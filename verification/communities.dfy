/**
 * The communities store: all communities, the popular list, the community
 * being viewed, joining, and a community's events and routes. Joining keeps
 * no local copy of membership: the slice is left as it is.
 */
module Communities {
  import opened Wrappers
  import opened Http
  import opened Lifecycle

  datatype Community = Community(
    id: int,
    name: string,
    slug: string,
    description: Option<string>,
    categoryId: int,
    isPublic: bool,
    userId: int,
    memberCount: Option<int>)

  datatype CommunitiesState = CommunitiesState(
    communities: seq<Community>,
    popularCommunities: seq<Community>,
    currentCommunity: Option<Community>,
    isLoading: bool,
    error: Option<string>)

  const Initial := CommunitiesState([], [], None, false, None)

  const FetchCommunitiesFallback := "Error al obtener comunidades"
  const FetchPopularFallback := "Error al obtener comunidades populares"
  const FetchByIdFallback := "Error al obtener comunidad"
  const JoinFallback := "Error al unirse a la comunidad"
  const EventsFallback := "Error al obtener eventos de la comunidad"
  const RoutesFallback := "Error al obtener rutas de la comunidad"

  const DefaultPopularLimit := 4

  /** The parameters of the popular request. */
  function PopularParams(limit: Option<int>): (q: Query)
    ensures Lookup(q, "limit") == Some(Number(limit.GetOr(4)))
    ensures forall key :: key != "limit" ==> Lookup(q, key).None?
  {
    LimitQuery(limit, DefaultPopularLimit)
  }

  /** `fetchCommunities`: the list becomes the payload, or empty on failure. */
  function FetchCommunities(s: CommunitiesState, resp: Response<seq<Community>>): (r: CommunitiesState)
    ensures SettledOn(r.isLoading, r.error, resp, FetchCommunitiesFallback)
    ensures Succeeded(resp) ==> r.communities == resp.payload
    ensures !Succeeded(resp) ==> r.communities == []
    ensures r == s.(communities := r.communities, isLoading := r.isLoading, error := r.error)
  {
    var started := s.(isLoading := true, error := None);
    started.(communities := Installed(resp, []), error := ErrorAfter(resp, FetchCommunitiesFallback), isLoading := false)
  }

  /** `fetchPopularCommunities`: the popular list becomes the payload, or
      empty on failure. */
  function FetchPopularCommunities(s: CommunitiesState, resp: Response<seq<Community>>): (r: CommunitiesState)
    ensures SettledOn(r.isLoading, r.error, resp, FetchPopularFallback)
    ensures Succeeded(resp) ==> r.popularCommunities == resp.payload
    ensures !Succeeded(resp) ==> r.popularCommunities == []
    ensures r == s.(popularCommunities := r.popularCommunities, isLoading := r.isLoading, error := r.error)
  {
    var started := s.(isLoading := true, error := None);
    started.(popularCommunities := Installed(resp, []), error := ErrorAfter(resp, FetchPopularFallback), isLoading := false)
  }

  /** `fetchCommunityById`: the detail view is cleared first, then holds
      the community, which is also returned; on failure it stays empty. */
  function FetchCommunityById(s: CommunitiesState, resp: Response<Community>): (r: Step<CommunitiesState, Option<Community>>)
    ensures SettledOn(r.state.isLoading, r.state.error, resp, FetchByIdFallback)
    ensures r.state.currentCommunity == r.value
    ensures r.value.Some? <==> Succeeded(resp)
    ensures r.value.Some? ==> r.value.value == resp.payload
    ensures r.state == s.(currentCommunity := r.value, isLoading := r.state.isLoading, error := r.state.error)
  {
    var started := s.(isLoading := true, error := None, currentCommunity := None);
    if Succeeded(resp) then
      Step(started.(currentCommunity := Some(resp.payload), isLoading := false), Some(resp.payload))
    else
      Step(started.(error := Some(ErrorMessage(resp, FetchByIdFallback)), isLoading := false), None)
  }

  /** `joinCommunity`: returns the payload, or `null`; neither the list nor
      the community being viewed changes, even on success. */
  function JoinCommunity<P>(s: CommunitiesState, resp: Response<P>): (r: Step<CommunitiesState, Option<P>>)
    ensures SettledOn(r.state.isLoading, r.state.error, resp, JoinFallback)
    ensures r.value.Some? <==> Succeeded(resp)
    ensures r.value.Some? ==> r.value.value == resp.payload
    ensures r.state == s.(isLoading := r.state.isLoading, error := r.state.error)
  {
    var started := s.(isLoading := true, error := None);
    Step(started.(error := ErrorAfter(resp, JoinFallback), isLoading := false), Returned(resp))
  }

  /** `getCommunityEvents`: returns the events, or none on failure; no data
      field changes. */
  function GetCommunityEvents<E>(s: CommunitiesState, resp: Response<seq<E>>): (r: Step<CommunitiesState, seq<E>>)
    ensures SettledOn(r.state.isLoading, r.state.error, resp, EventsFallback)
    ensures Succeeded(resp) ==> r.value == resp.payload
    ensures !Succeeded(resp) ==> r.value == []
    ensures r.state == s.(isLoading := r.state.isLoading, error := r.state.error)
  {
    var started := s.(isLoading := true, error := None);
    Step(started.(error := ErrorAfter(resp, EventsFallback), isLoading := false), Installed(resp, []))
  }

  /** `getCommunityRoutes`: returns the routes, or none on failure; no data
      field changes. */
  function GetCommunityRoutes<R>(s: CommunitiesState, resp: Response<seq<R>>): (r: Step<CommunitiesState, seq<R>>)
    ensures SettledOn(r.state.isLoading, r.state.error, resp, RoutesFallback)
    ensures Succeeded(resp) ==> r.value == resp.payload
    ensures !Succeeded(resp) ==> r.value == []
    ensures r.state == s.(isLoading := r.state.isLoading, error := r.state.error)
  {
    var started := s.(isLoading := true, error := None);
    Step(started.(error := ErrorAfter(resp, RoutesFallback), isLoading := false), Installed(resp, []))
  }

  /** Joining a community while viewing it leaves the viewed copy exactly as
      fetched: membership and member count are only refreshed by a fetch. */
  lemma JoinKeepsViewedCommunity<P>(s: CommunitiesState, c: Community, resp: Response<P>)
    ensures var viewed := FetchCommunityById(s, Ok(true, c, None)).state;
            JoinCommunity(viewed, resp).state.currentCommunity == Some(c)
            && JoinCommunity(viewed, resp).state.communities == s.communities
  {
  }

  /** One store action with the response it meets. */
  datatype Action<P, E, R> =
    | Browse(list: Response<seq<Community>>)
    | Popular(popular: Response<seq<Community>>)
    | View(community: Response<Community>)
    | Join(join: Response<P>)
    | CommunityEvents(events: Response<seq<E>>)
    | CommunityRoutes(routes: Response<seq<R>>)

  /** The `error` an action leaves: cleared on success, its own message on
      failure. */
  function ErrorOf<P, E, R>(a: Action<P, E, R>): Option<string> {
    match a
    case Browse(resp) => ErrorAfter(resp, FetchCommunitiesFallback)
    case Popular(resp) => ErrorAfter(resp, FetchPopularFallback)
    case View(resp) => ErrorAfter(resp, FetchByIdFallback)
    case Join(resp) => ErrorAfter(resp, JoinFallback)
    case CommunityEvents(resp) => ErrorAfter(resp, EventsFallback)
    case CommunityRoutes(resp) => ErrorAfter(resp, RoutesFallback)
  }

  /** The store after one action: settled, with that action's error, and
      each data field written only by the actions that own it. */
  function Apply<P, E, R>(s: CommunitiesState, a: Action<P, E, R>): (r: CommunitiesState)
    ensures !r.isLoading
    ensures r.error == ErrorOf(a)
    ensures !a.Browse? ==> r.communities == s.communities
    ensures !a.Popular? ==> r.popularCommunities == s.popularCommunities
    ensures !a.View? ==> r.currentCommunity == s.currentCommunity
  {
    match a
    case Browse(resp) => FetchCommunities(s, resp)
    case Popular(resp) => FetchPopularCommunities(s, resp)
    case View(resp) => FetchCommunityById(s, resp).state
    case Join(resp) => JoinCommunity(s, resp).state
    case CommunityEvents(resp) => GetCommunityEvents(s, resp).state
    case CommunityRoutes(resp) => GetCommunityRoutes(s, resp).state
  }

  /** The store after the actions, in order. */
  function Run<P, E, R>(s: CommunitiesState, actions: seq<Action<P, E, R>>): CommunitiesState
    decreases |actions|
  {
    if |actions| == 0 then s else Run(Apply(s, actions[0]), actions[1..])
  }

  /** After any non-empty run the store is not loading and its error is the
      last action's, whatever came before. */
  lemma {:induction false} RunSettlesOnLast<P, E, R>(s: CommunitiesState, actions: seq<Action<P, E, R>>)
    requires |actions| > 0
    ensures !Run(s, actions).isLoading
    ensures Run(s, actions).error == ErrorOf(actions[|actions| - 1])
    decreases |actions|
  {
    if |actions| == 1 {
      assert Run(Apply(s, actions[0]), actions[1..]) == Apply(s, actions[0]);
    } else {
      RunSettlesOnLast(Apply(s, actions[0]), actions[1..]);
      assert actions[1..][|actions| - 2] == actions[|actions| - 1];
    }
  }

  /** A data field changes over a run only if some action of the run writes
      it. */
  lemma {:induction false} RunKeepsUnwrittenFields<P, E, R>(s: CommunitiesState, actions: seq<Action<P, E, R>>)
    ensures (forall a :: a in actions ==> !a.Browse?) ==>
      Run(s, actions).communities == s.communities
    ensures (forall a :: a in actions ==> !a.Popular?) ==>
      Run(s, actions).popularCommunities == s.popularCommunities
    ensures (forall a :: a in actions ==> !a.View?) ==>
      Run(s, actions).currentCommunity == s.currentCommunity
    decreases |actions|
  {
    if |actions| > 0 {
      assert forall a :: a in actions[1..] ==> a in actions;
      assert actions[0] in actions;
      RunKeepsUnwrittenFields(Apply(s, actions[0]), actions[1..]);
    }
  }
}
