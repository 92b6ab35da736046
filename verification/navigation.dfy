/**
 * The route table's metadata and the guard run before every navigation: it
 * picks the page title and decides whether the navigation proceeds or is
 * redirected, from the target's flags and whether the session is
 * authenticated.
 */
module Navigation {
  import opened Wrappers
  import opened Http
  import Session

  /** Per-route metadata; an absent flag is `false`. */
  datatype Meta = Meta(title: Option<string>, requiresAuth: bool, guest: bool)

  datatype RouteRecord = RouteRecord(path: string, name: string, meta: Meta)

  /** The target of a navigation as the router resolves it: its full path,
      its metadata, and the records it matched. */
  datatype Location = Location(fullPath: string, meta: Meta, matched: seq<RouteRecord>)

  /** `next()` or `next({name, query})`. */
  datatype Decision = Proceed | Redirect(name: string, query: seq<(string, string)>)

  datatype Flag = RequiresAuth | Guest

  predicate Carries(m: Meta, f: Flag) {
    match f
    case RequiresAuth => m.requiresAuth
    case Guest => m.guest
  }

  /** `matched.some(record => record.meta[flag])`. */
  function AnyCarries(matched: seq<RouteRecord>, f: Flag): (b: bool)
    ensures b <==> exists i :: 0 <= i < |matched| && Carries(matched[i].meta, f)
  {
    if |matched| == 0 then false
    else if Carries(matched[0].meta, f) then true
    else
      var rest := AnyCarries(matched[1..], f);
      assert forall i :: 1 <= i < |matched| ==> matched[i] == matched[1..][i - 1];
      rest
  }

  const LoginName := "login"
  const HomeName := "home"
  const DefaultTitle := "AventuraLocal"

  /** The guard's decision: a protected target without a session goes to the
      login page with the target kept for the return trip; otherwise a guest
      target with a session goes home; everything else proceeds. */
  function Decide(to: Location, authenticated: bool): (d: Decision)
    ensures AnyCarries(to.matched, RequiresAuth) && !authenticated ==>
      d == Redirect(LoginName, [("redirect", to.fullPath)])
    ensures AnyCarries(to.matched, Guest) && authenticated ==> d == Redirect(HomeName, [])
    ensures d == Proceed <==>
      (AnyCarries(to.matched, RequiresAuth) ==> authenticated) && (AnyCarries(to.matched, Guest) ==> !authenticated)
    ensures d.Redirect? && d.name == LoginName ==> !authenticated
    ensures d.Redirect? && d.name == HomeName ==> authenticated
  {
    var requiresAuth := AnyCarries(to.matched, RequiresAuth);
    var isGuestRoute := AnyCarries(to.matched, Guest);
    if requiresAuth && !authenticated then Redirect(LoginName, [("redirect", to.fullPath)])
    else if isGuestRoute && authenticated then Redirect(HomeName, [])
    else Proceed
  }

  /** `to.meta.title || 'AventuraLocal'`: the page title is never empty. */
  function Title(to: Location): (t: string)
    ensures t != ""
    ensures t == DefaultTitle || Some(t) == to.meta.title
    ensures Truthy(to.meta.title) ==> t == to.meta.title.value
  {
    OrElse(to.meta.title, DefaultTitle)
  }

  /** What the guard produces: the document title and the decision. */
  datatype Visit = Visit(title: string, decision: Decision)

  function BeforeEach(to: Location, s: Session.AuthState): (v: Visit)
    ensures v.title == Title(to)
    ensures v.decision == Decide(to, Session.IsAuthenticated(s))
    ensures v.decision.Redirect? && v.decision.name == LoginName ==> !Session.IsAuthenticated(s)
  {
    Visit(Title(to), Decide(to, Session.IsAuthenticated(s)))
  }

  /** The active route table. */
  const Table: seq<RouteRecord> := [
    RouteRecord("/", "home", Meta(Some("AventuraLocal - Descubre destinos turísticos locales"), false, false)),
    RouteRecord("/login", "login", Meta(Some("Iniciar sesión"), false, true)),
    RouteRecord("/register", "register", Meta(Some("Registrarse"), false, true)),
    RouteRecord("/destinations", "destinations", Meta(Some("Descubre destinos"), false, false)),
    RouteRecord("/destinations/:id", "destinationDetail", Meta(Some("Detalles del destino"), false, false)),
    RouteRecord("/routes", "routes", Meta(Some("Rutas turísticas"), false, false)),
    RouteRecord("/routes/:id", "routeDetail", Meta(Some("Detalle de ruta"), false, false))
  ]

  /** In the active table only the login and register pages are guest pages,
      no page requires a session, and every page has a title of its own. */
  lemma TableFlags()
    ensures forall r :: r in Table ==> (r.meta.guest <==> r.name == LoginName || r.name == "register")
    ensures forall r :: r in Table ==> !r.meta.requiresAuth
    ensures forall r :: r in Table ==> Truthy(r.meta.title)
  {
  }

  /** Navigating anywhere in the active table, a visitor without a session
      is never redirected. */
  lemma AnonymousNeverRedirected(to: Location)
    requires forall i :: 0 <= i < |to.matched| ==> to.matched[i] in Table
    ensures Decide(to, false) == Proceed
  {
    TableFlags();
  }

  /** With a session, exactly the guest pages of the table send the user home. */
  lemma AuthenticatedSentHomeFromGuestPages(r: RouteRecord, fullPath: string)
    requires r in Table
    ensures Decide(Location(fullPath, r.meta, [r]), true) == (if r.meta.guest then Redirect(HomeName, []) else Proceed)
    ensures Decide(Location(fullPath, r.meta, [r]), true) != Proceed <==> r.name == LoginName || r.name == "register"
  {
    TableFlags();
    assert [r][0] == r;
  }
}
