/**
 * The travel-routes store: the paginated list, the popular list, the route
 * being viewed, and the actions that create, update, favourite or change the
 * status of a route.
 */
module TravelRoutes {
  import opened Wrappers
  import opened Http
  import opened Lifecycle
  import opened Paging

  datatype Difficulty = Easy | Medium | Hard

  datatype TravelRoute = TravelRoute(
    id: int,
    name: string,
    slug: string,
    description: Option<string>,
    difficulty: Difficulty,
    userId: int,
    media: Option<seq<string>>)

  datatype RoutesState = RoutesState(
    routes: seq<TravelRoute>,
    popularRoutes: seq<TravelRoute>,
    currentRoute: Option<TravelRoute>,
    isLoading: bool,
    error: Option<string>,
    pagination: Pagination)

  const Initial := RoutesState([], [], None, false, None, InitialPagination)

  const FetchRoutesFallback := "Error al obtener rutas"
  const FetchPopularFallback := "Error al obtener rutas populares"
  const FetchByIdFallback := "Error al obtener ruta"
  const CreateFallback := "Error al crear ruta"
  const UpdateFallback := "Error al actualizar ruta"
  const FavoriteFallback := "Error al añadir a favoritos"
  const StatusFallback := "Error al actualizar estado de la ruta"

  const DefaultPage := 1
  const DefaultPerPage := 6
  const DefaultPopularLimit := 4

  /** The parameters of the list request: the search text goes under `name`. */
  function ListParams(page: Option<int>, perPage: Option<int>, search: Option<string>): (q: Query)
    ensures Lookup(q, "page") == Some(Number(page.GetOr(DefaultPage)))
    ensures Lookup(q, "per_page") == Some(Number(perPage.GetOr(DefaultPerPage)))
    ensures Lookup(q, "name") == (if search.GetOr("") != "" then Some(Text(search.value)) else None)
    ensures Lookup(q, "search").None?
    ensures forall key :: key != "page" && key != "per_page" && key != "name" ==> Lookup(q, key).None?
  {
    ListQueryLookup(page.GetOr(DefaultPage), perPage.GetOr(DefaultPerPage), "name", search.GetOr(""));
    ListQueryOtherKeys(page.GetOr(DefaultPage), perPage.GetOr(DefaultPerPage), "name", search.GetOr(""));
    ListQuery(page.GetOr(DefaultPage), perPage.GetOr(DefaultPerPage), "name", search.GetOr(""))
  }

  /** The parameters of the popular request. */
  function PopularParams(limit: Option<int>): (q: Query)
    ensures Lookup(q, "limit") == Some(Number(limit.GetOr(4)))
    ensures forall key :: key != "limit" ==> Lookup(q, key).None?
  {
    LimitQuery(limit, DefaultPopularLimit)
  }

  /** `fetchRoutes`: the list and its page metadata are replaced on success;
      on failure the list is emptied and the metadata kept. */
  function FetchRoutes(s: RoutesState, resp: Response<Page<TravelRoute>>): (r: RoutesState)
    ensures SettledOn(r.isLoading, r.error, resp, FetchRoutesFallback)
    ensures Succeeded(resp) ==> r.routes == resp.payload.data && r.pagination == PaginationOf(resp.payload)
    ensures !Succeeded(resp) ==> r.routes == [] && r.pagination == s.pagination
    ensures r == s.(routes := r.routes, pagination := r.pagination, isLoading := r.isLoading, error := r.error)
  {
    var started := s.(isLoading := true, error := None);
    if Succeeded(resp) then
      started.(routes := resp.payload.data, pagination := PaginationOf(resp.payload), isLoading := false)
    else
      started.(error := Some(ErrorMessage(resp, FetchRoutesFallback)), routes := [], isLoading := false)
  }

  /** `fetchPopularRoutes`: the popular list becomes the payload, or empty
      on failure. */
  function FetchPopularRoutes(s: RoutesState, resp: Response<seq<TravelRoute>>): (r: RoutesState)
    ensures SettledOn(r.isLoading, r.error, resp, FetchPopularFallback)
    ensures Succeeded(resp) ==> r.popularRoutes == resp.payload
    ensures !Succeeded(resp) ==> r.popularRoutes == []
    ensures r == s.(popularRoutes := r.popularRoutes, isLoading := r.isLoading, error := r.error)
  {
    var started := s.(isLoading := true, error := None);
    started.(popularRoutes := Installed(resp, []), error := ErrorAfter(resp, FetchPopularFallback), isLoading := false)
  }

  /** `fetchRouteById`: the detail view is cleared first, then holds the
      route, which is also returned; on failure it stays empty. */
  function FetchRouteById(s: RoutesState, resp: Response<TravelRoute>): (r: Step<RoutesState, Option<TravelRoute>>)
    ensures SettledOn(r.state.isLoading, r.state.error, resp, FetchByIdFallback)
    ensures r.state.currentRoute == r.value
    ensures r.value.Some? <==> Succeeded(resp)
    ensures r.value.Some? ==> r.value.value == resp.payload
    ensures r.state == s.(currentRoute := r.value, isLoading := r.state.isLoading, error := r.state.error)
  {
    var started := s.(isLoading := true, error := None, currentRoute := None);
    if Succeeded(resp) then
      Step(started.(currentRoute := Some(resp.payload), isLoading := false), Some(resp.payload))
    else
      Step(started.(error := Some(ErrorMessage(resp, FetchByIdFallback)), isLoading := false), None)
  }

  /** `createRoute`: returns the created route, or `null`; no data field
      changes. */
  function CreateRoute(s: RoutesState, resp: Response<TravelRoute>): (r: Step<RoutesState, Option<TravelRoute>>)
    ensures SettledOn(r.state.isLoading, r.state.error, resp, CreateFallback)
    ensures r.value.Some? <==> Succeeded(resp)
    ensures r.value.Some? ==> r.value.value == resp.payload
    ensures r.state == s.(isLoading := r.state.isLoading, error := r.state.error)
  {
    var started := s.(isLoading := true, error := None);
    Step(started.(error := ErrorAfter(resp, CreateFallback), isLoading := false), Returned(resp))
  }

  /** `updateRoute(id)`: the detail view takes the updated route only when it
      shows the route with that id; the updated route is returned, or `null`. */
  function UpdateRoute(s: RoutesState, id: int, resp: Response<TravelRoute>): (r: Step<RoutesState, Option<TravelRoute>>)
    ensures SettledOn(r.state.isLoading, r.state.error, resp, UpdateFallback)
    ensures r.value.Some? <==> Succeeded(resp)
    ensures r.value.Some? ==> r.value.value == resp.payload
    ensures r.state.currentRoute != s.currentRoute ==>
      Succeeded(resp) && s.currentRoute.Some? && s.currentRoute.value.id == id
    ensures Succeeded(resp) && s.currentRoute.Some? && s.currentRoute.value.id == id ==>
      r.state.currentRoute == Some(resp.payload)
    ensures r.state == s.(currentRoute := r.state.currentRoute, isLoading := r.state.isLoading, error := r.state.error)
  {
    var started := s.(isLoading := true, error := None);
    if Succeeded(resp) then
      var current := if started.currentRoute.Some? && started.currentRoute.value.id == id
                     then Some(resp.payload) else started.currentRoute;
      Step(started.(currentRoute := current, isLoading := false), Some(resp.payload))
    else
      Step(started.(error := Some(ErrorMessage(resp, UpdateFallback)), isLoading := false), None)
  }

  /** `toggleFavoriteRoute`: returns the payload, or `null`; no data field
      changes. */
  function ToggleFavoriteRoute<P>(s: RoutesState, resp: Response<P>): (r: Step<RoutesState, Option<P>>)
    ensures SettledOn(r.state.isLoading, r.state.error, resp, FavoriteFallback)
    ensures r.value.Some? <==> Succeeded(resp)
    ensures r.value.Some? ==> r.value.value == resp.payload
    ensures r.state == s.(isLoading := r.state.isLoading, error := r.state.error)
  {
    var started := s.(isLoading := true, error := None);
    Step(started.(error := ErrorAfter(resp, FavoriteFallback), isLoading := false), Returned(resp))
  }

  /** The progress states a user can give a route. */
  datatype RouteStatus = Pending | InProgress | Completed

  /** `updateRouteStatus`: returns the payload, or `null`; no data field
      changes. The status only travels in the request body. */
  function UpdateRouteStatus<P>(s: RoutesState, status: RouteStatus, resp: Response<P>): (r: Step<RoutesState, Option<P>>)
    ensures SettledOn(r.state.isLoading, r.state.error, resp, StatusFallback)
    ensures r.value.Some? <==> Succeeded(resp)
    ensures r.value.Some? ==> r.value.value == resp.payload
    ensures r.state == s.(isLoading := r.state.isLoading, error := r.state.error)
  {
    var started := s.(isLoading := true, error := None);
    Step(started.(error := ErrorAfter(resp, StatusFallback), isLoading := false), Returned(resp))
  }

  /** List fetches replace rather than merge; a failed fetch empties the
      list but keeps the page metadata of the last successful one. */
  lemma FetchRoutesReplaces(s: RoutesState, t: RoutesState, first: Response<Page<TravelRoute>>, resp: Response<Page<TravelRoute>>)
    ensures FetchRoutes(s, resp).routes == FetchRoutes(t, resp).routes
    ensures Succeeded(resp) ==> FetchRoutes(FetchRoutes(s, first), resp) == FetchRoutes(s, resp)
    ensures !Succeeded(resp) ==> FetchRoutes(FetchRoutes(s, first), resp).pagination == FetchRoutes(s, first).pagination
  {
  }

  /** A detail fetch forgets whatever the previous one installed. */
  lemma FetchRouteByIdForgets(s: RoutesState, first: Response<TravelRoute>, resp: Response<TravelRoute>)
    ensures FetchRouteById(FetchRouteById(s, first).state, resp) == FetchRouteById(s, resp)
  {
  }

  /** Viewing a route and then updating it: the view follows the update when
      the ids agree and keeps the fetched route when they do not. */
  lemma UpdateAfterFetch(s: RoutesState, fetched: TravelRoute, id: int, resp: Response<TravelRoute>)
    ensures var viewed := FetchRouteById(s, Ok(true, fetched, None)).state;
            UpdateRoute(viewed, id, resp).state.currentRoute
            == (if Succeeded(resp) && fetched.id == id then Some(resp.payload) else Some(fetched))
  {
  }

  /** One store action with the response it meets. */
  datatype Action<F, T> =
    | Browse(page: Response<Page<TravelRoute>>)
    | Popular(popular: Response<seq<TravelRoute>>)
    | View(route: Response<TravelRoute>)
    | Create(created: Response<TravelRoute>)
    | Update(id: int, updated: Response<TravelRoute>)
    | Favorite(favorite: Response<F>)
    | SetStatus(status: RouteStatus, statusReply: Response<T>)

  /** The `error` an action leaves: cleared on success, its own message on
      failure. */
  function ErrorOf<F, T>(a: Action<F, T>): Option<string> {
    match a
    case Browse(resp) => ErrorAfter(resp, FetchRoutesFallback)
    case Popular(resp) => ErrorAfter(resp, FetchPopularFallback)
    case View(resp) => ErrorAfter(resp, FetchByIdFallback)
    case Create(resp) => ErrorAfter(resp, CreateFallback)
    case Update(_, resp) => ErrorAfter(resp, UpdateFallback)
    case Favorite(resp) => ErrorAfter(resp, FavoriteFallback)
    case SetStatus(_, resp) => ErrorAfter(resp, StatusFallback)
  }

  /** The store after one action: settled, with that action's error, and
      each data field written only by the actions that own it. */
  function Apply<F, T>(s: RoutesState, a: Action<F, T>): (r: RoutesState)
    ensures !r.isLoading
    ensures r.error == ErrorOf(a)
    ensures !a.Browse? ==> r.routes == s.routes && r.pagination == s.pagination
    ensures !a.Popular? ==> r.popularRoutes == s.popularRoutes
    ensures !a.View? && !a.Update? ==> r.currentRoute == s.currentRoute
  {
    match a
    case Browse(resp) => FetchRoutes(s, resp)
    case Popular(resp) => FetchPopularRoutes(s, resp)
    case View(resp) => FetchRouteById(s, resp).state
    case Create(resp) => CreateRoute(s, resp).state
    case Update(id, resp) => UpdateRoute(s, id, resp).state
    case Favorite(resp) => ToggleFavoriteRoute(s, resp).state
    case SetStatus(status, resp) => UpdateRouteStatus(s, status, resp).state
  }

  /** The store after the actions, in order. */
  function Run<F, T>(s: RoutesState, actions: seq<Action<F, T>>): RoutesState
    decreases |actions|
  {
    if |actions| == 0 then s else Run(Apply(s, actions[0]), actions[1..])
  }

  /** After any non-empty run the store is not loading and its error is the
      last action's, whatever came before. */
  lemma {:induction false} RunSettlesOnLast<F, T>(s: RoutesState, actions: seq<Action<F, T>>)
    requires |actions| > 0
    ensures !Run(s, actions).isLoading
    ensures Run(s, actions).error == ErrorOf(actions[|actions| - 1])
    decreases |actions|
  {
    if |actions| == 1 {
      assert Run(Apply(s, actions[0]), actions[1..]) == Apply(s, actions[0]);
    } else {
      RunSettlesOnLast(Apply(s, actions[0]), actions[1..]);
      assert actions[1..][|actions| - 2] == actions[|actions| - 1];
    }
  }

  /** A data field changes over a run only if some action of the run writes
      it. */
  lemma {:induction false} RunKeepsUnwrittenFields<F, T>(s: RoutesState, actions: seq<Action<F, T>>)
    ensures (forall a :: a in actions ==> !a.Browse?) ==>
      Run(s, actions).routes == s.routes && Run(s, actions).pagination == s.pagination
    ensures (forall a :: a in actions ==> !a.Popular?) ==>
      Run(s, actions).popularRoutes == s.popularRoutes
    ensures (forall a :: a in actions ==> !a.View? && !a.Update?) ==>
      Run(s, actions).currentRoute == s.currentRoute
    decreases |actions|
  {
    if |actions| > 0 {
      assert forall a :: a in actions[1..] ==> a in actions;
      assert actions[0] in actions;
      RunKeepsUnwrittenFields(Apply(s, actions[0]), actions[1..]);
    }
  }
}
