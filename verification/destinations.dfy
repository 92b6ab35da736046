/**
 * The destinations store: the paginated list, the popular list, the
 * destination being viewed, and the read-only actions on a single
 * destination.
 */
module Destinations {
  import opened Wrappers
  import opened Http
  import opened Lifecycle
  import opened Paging

  datatype Tag = Tag(id: int, name: string, slug: string, color: string)

  /** A destination as the backend sends it; `media` and `tags` may be
      missing. The coordinates are kept as the text they render to. */
  datatype DestinationRecord = DestinationRecord(
    id: int,
    name: string,
    slug: string,
    city: string,
    latitude: string,
    longitude: string,
    categoryId: int,
    userId: int,
    isFeatured: bool,
    media: Option<seq<string>>,
    tags: Option<seq<Tag>>)

  /** A destination as the detail view holds it: `media` and `tags` are
      always lists. */
  datatype Destination = Destination(
    id: int,
    name: string,
    slug: string,
    city: string,
    latitude: string,
    longitude: string,
    categoryId: int,
    userId: int,
    isFeatured: bool,
    media: seq<string>,
    tags: seq<Tag>)

  /** The results of the nearby search. */
  datatype Nearby = Nearby(results: seq<DestinationRecord>)

  datatype DestinationsState = DestinationsState(
    destinations: seq<DestinationRecord>,
    popularDestinations: seq<DestinationRecord>,
    currentDestination: Option<Destination>,
    isLoading: bool,
    error: Option<string>,
    pagination: Pagination)

  const Initial := DestinationsState([], [], None, false, None, InitialPagination)

  const FetchDestinationsFallback := "Error al obtener destinos"
  const FetchPopularFallback := "Error al obtener destinos populares"
  const FetchByIdFallback := "Error al obtener destino"
  const ReviewsFallback := "Error al obtener reseñas"
  const FavoriteFallback := "Error al añadir a favoritos"
  const NearbyFallback := "Error al obtener destinos cercanos"

  const DefaultPage := 1
  const DefaultPerPage := 6
  const DefaultPopularLimit := 6
  const DefaultRadius := 50

  /** The normalisation of the detail view: every field is kept, and missing
      `media` and `tags` become empty lists. */
  function Normalize(d: DestinationRecord): (n: Destination)
    ensures AsRecord(n) == d.(media := Some(d.media.GetOr([])), tags := Some(d.tags.GetOr([])))
  {
    Destination(d.id, d.name, d.slug, d.city, d.latitude, d.longitude, d.categoryId, d.userId, d.isFeatured,
                d.media.GetOr([]), d.tags.GetOr([]))
  }

  /** The record the backend would send for a normalised destination. */
  function AsRecord(n: Destination): DestinationRecord {
    DestinationRecord(n.id, n.name, n.slug, n.city, n.latitude, n.longitude, n.categoryId, n.userId, n.isFeatured,
                      Some(n.media), Some(n.tags))
  }

  /** Normalising is lossless on records that carry both lists, and leaves
      an already normalised destination as it is. */
  lemma NormalizeRoundTrip(d: DestinationRecord, n: Destination)
    ensures d.media.Some? && d.tags.Some? ==> AsRecord(Normalize(d)) == d
    ensures Normalize(AsRecord(n)) == n
    ensures Normalize(d).id == d.id
  {
  }

  /** The parameters of the list request. */
  function ListParams(page: Option<int>, perPage: Option<int>, search: Option<string>): (q: Query)
    ensures Lookup(q, "page") == Some(Number(page.GetOr(DefaultPage)))
    ensures Lookup(q, "per_page") == Some(Number(perPage.GetOr(DefaultPerPage)))
    ensures Lookup(q, "search") == (if search.GetOr("") != "" then Some(Text(search.value)) else None)
    ensures forall key :: key != "page" && key != "per_page" && key != "search" ==> Lookup(q, key).None?
  {
    ListQueryLookup(page.GetOr(DefaultPage), perPage.GetOr(DefaultPerPage), "search", search.GetOr(""));
    ListQueryOtherKeys(page.GetOr(DefaultPage), perPage.GetOr(DefaultPerPage), "search", search.GetOr(""));
    ListQuery(page.GetOr(DefaultPage), perPage.GetOr(DefaultPerPage), "search", search.GetOr(""))
  }

  /** The parameters of the popular request. */
  function PopularParams(limit: Option<int>): (q: Query)
    ensures Lookup(q, "limit") == Some(Number(limit.GetOr(6)))
    ensures forall key :: key != "limit" ==> Lookup(q, key).None?
  {
    LimitQuery(limit, DefaultPopularLimit)
  }

  /** The parameters of the nearby request. */
  function NearbyParams(destinationId: int, radius: Option<int>): (q: Query)
    ensures Lookup(q, "destination_id") == Some(Number(destinationId))
    ensures Lookup(q, "radius") == Some(Number(radius.GetOr(DefaultRadius)))
    ensures forall key :: key != "destination_id" && key != "radius" ==> Lookup(q, key).None?
  {
    PairQueryOtherKeys("destination_id", Number(destinationId), "radius", Number(radius.GetOr(DefaultRadius)));
    [("destination_id", Number(destinationId)), ("radius", Number(radius.GetOr(DefaultRadius)))]
  }

  /** `fetchDestinations`: the list and its page metadata are replaced on
      success; on failure the list is emptied and the metadata kept. */
  function FetchDestinations(s: DestinationsState, resp: Response<Page<DestinationRecord>>): (r: DestinationsState)
    ensures SettledOn(r.isLoading, r.error, resp, FetchDestinationsFallback)
    ensures Succeeded(resp) ==> r.destinations == resp.payload.data && r.pagination == PaginationOf(resp.payload)
    ensures !Succeeded(resp) ==> r.destinations == [] && r.pagination == s.pagination
    ensures r == s.(destinations := r.destinations, pagination := r.pagination, isLoading := r.isLoading, error := r.error)
  {
    var started := s.(isLoading := true, error := None);
    if Succeeded(resp) then
      started.(destinations := resp.payload.data, pagination := PaginationOf(resp.payload), isLoading := false)
    else
      started.(error := Some(ErrorMessage(resp, FetchDestinationsFallback)), destinations := [], isLoading := false)
  }

  /** `fetchPopularDestinations`: the popular list becomes the payload, or
      empty on failure. */
  function FetchPopularDestinations(s: DestinationsState, resp: Response<seq<DestinationRecord>>): (r: DestinationsState)
    ensures SettledOn(r.isLoading, r.error, resp, FetchPopularFallback)
    ensures Succeeded(resp) ==> r.popularDestinations == resp.payload
    ensures !Succeeded(resp) ==> r.popularDestinations == []
    ensures r == s.(popularDestinations := r.popularDestinations, isLoading := r.isLoading, error := r.error)
  {
    var started := s.(isLoading := true, error := None);
    started.(popularDestinations := Installed(resp, []), error := ErrorAfter(resp, FetchPopularFallback), isLoading := false)
  }

  /** `fetchDestinationById`: the detail view is cleared first, then holds
      the normalised destination, which is also returned; on failure it
      stays empty and `null` is returned. */
  function FetchDestinationById(s: DestinationsState, resp: Response<DestinationRecord>): (r: Step<DestinationsState, Option<Destination>>)
    ensures SettledOn(r.state.isLoading, r.state.error, resp, FetchByIdFallback)
    ensures r.state.currentDestination == r.value
    ensures Succeeded(resp) ==> r.value == Some(Normalize(resp.payload))
    ensures !Succeeded(resp) ==> r.value.None?
    ensures r.state == s.(currentDestination := r.value, isLoading := r.state.isLoading, error := r.state.error)
  {
    var started := s.(isLoading := true, error := None, currentDestination := None);
    if Succeeded(resp) then
      var current := Normalize(resp.payload);
      Step(started.(currentDestination := Some(current), isLoading := false), Some(current))
    else
      Step(started.(error := Some(ErrorMessage(resp, FetchByIdFallback)), isLoading := false), None)
  }

  /** `fetchDestinationReviews`: returns the reviews, or none on failure;
      no data field changes. */
  function FetchDestinationReviews<R>(s: DestinationsState, resp: Response<seq<R>>): (r: Step<DestinationsState, seq<R>>)
    ensures SettledOn(r.state.isLoading, r.state.error, resp, ReviewsFallback)
    ensures Succeeded(resp) ==> r.value == resp.payload
    ensures !Succeeded(resp) ==> r.value == []
    ensures r.state == s.(isLoading := r.state.isLoading, error := r.state.error)
  {
    var started := s.(isLoading := true, error := None);
    Step(started.(error := ErrorAfter(resp, ReviewsFallback), isLoading := false), Installed(resp, []))
  }

  /** `toggleFavoriteDestination`: returns the payload, or `null` on
      failure; no data field changes. */
  function ToggleFavoriteDestination<P>(s: DestinationsState, resp: Response<P>): (r: Step<DestinationsState, Option<P>>)
    ensures SettledOn(r.state.isLoading, r.state.error, resp, FavoriteFallback)
    ensures r.value.Some? <==> Succeeded(resp)
    ensures r.value.Some? ==> r.value.value == resp.payload
    ensures r.state == s.(isLoading := r.state.isLoading, error := r.state.error)
  {
    var started := s.(isLoading := true, error := None);
    Step(started.(error := ErrorAfter(resp, FavoriteFallback), isLoading := false), Returned(resp))
  }

  /** `fetchNearbyDestinations`: returns `data.results`, or none on
      failure; no data field changes. */
  function FetchNearbyDestinations(s: DestinationsState, resp: Response<Nearby>): (r: Step<DestinationsState, seq<DestinationRecord>>)
    ensures SettledOn(r.state.isLoading, r.state.error, resp, NearbyFallback)
    ensures Succeeded(resp) ==> r.value == resp.payload.results
    ensures !Succeeded(resp) ==> r.value == []
    ensures r.state == s.(isLoading := r.state.isLoading, error := r.state.error)
  {
    var started := s.(isLoading := true, error := None);
    var results := if Succeeded(resp) then resp.payload.results else [];
    Step(started.(error := ErrorAfter(resp, NearbyFallback), isLoading := false), results)
  }

  /** List fetches replace rather than merge: the list after a fetch does
      not depend on what the store held before, and a successful fetch
      overrides everything an earlier fetch installed. */
  lemma FetchDestinationsReplaces(s: DestinationsState, t: DestinationsState, first: Response<Page<DestinationRecord>>, resp: Response<Page<DestinationRecord>>)
    ensures FetchDestinations(s, resp).destinations == FetchDestinations(t, resp).destinations
    ensures Succeeded(resp) ==> FetchDestinations(FetchDestinations(s, first), resp) == FetchDestinations(s, resp)
    ensures !Succeeded(resp) ==> FetchDestinations(FetchDestinations(s, first), resp).pagination == FetchDestinations(s, first).pagination
  {
  }

  /** A detail fetch forgets whatever the previous one installed. */
  lemma FetchDestinationByIdForgets(s: DestinationsState, first: Response<DestinationRecord>, resp: Response<DestinationRecord>)
    ensures FetchDestinationById(FetchDestinationById(s, first).state, resp) == FetchDestinationById(s, resp)
  {
  }

  /** One store action with the response it meets. */
  datatype Action<R, P> =
    | Browse(page: Response<Page<DestinationRecord>>)
    | Popular(popular: Response<seq<DestinationRecord>>)
    | View(record: Response<DestinationRecord>)
    | Reviews(reviews: Response<seq<R>>)
    | Favorite(favorite: Response<P>)
    | NearbyTo(nearby: Response<Nearby>)

  /** The `error` an action leaves: cleared on success, its own message on
      failure. */
  function ErrorOf<R, P>(a: Action<R, P>): Option<string> {
    match a
    case Browse(resp) => ErrorAfter(resp, FetchDestinationsFallback)
    case Popular(resp) => ErrorAfter(resp, FetchPopularFallback)
    case View(resp) => ErrorAfter(resp, FetchByIdFallback)
    case Reviews(resp) => ErrorAfter(resp, ReviewsFallback)
    case Favorite(resp) => ErrorAfter(resp, FavoriteFallback)
    case NearbyTo(resp) => ErrorAfter(resp, NearbyFallback)
  }

  /** The store after one action: settled, with that action's error, and
      each data field written only by the action that owns it. */
  function Apply<R, P>(s: DestinationsState, a: Action<R, P>): (r: DestinationsState)
    ensures !r.isLoading
    ensures r.error == ErrorOf(a)
    ensures !a.Browse? ==> r.destinations == s.destinations && r.pagination == s.pagination
    ensures !a.Popular? ==> r.popularDestinations == s.popularDestinations
    ensures !a.View? ==> r.currentDestination == s.currentDestination
  {
    match a
    case Browse(resp) => FetchDestinations(s, resp)
    case Popular(resp) => FetchPopularDestinations(s, resp)
    case View(resp) => FetchDestinationById(s, resp).state
    case Reviews(resp) => FetchDestinationReviews(s, resp).state
    case Favorite(resp) => ToggleFavoriteDestination(s, resp).state
    case NearbyTo(resp) => FetchNearbyDestinations(s, resp).state
  }

  /** The store after the actions, in order. */
  function Run<R, P>(s: DestinationsState, actions: seq<Action<R, P>>): DestinationsState
    decreases |actions|
  {
    if |actions| == 0 then s else Run(Apply(s, actions[0]), actions[1..])
  }

  /** After any non-empty run the store is not loading and its error is the
      last action's, whatever came before. */
  lemma {:induction false} RunSettlesOnLast<R, P>(s: DestinationsState, actions: seq<Action<R, P>>)
    requires |actions| > 0
    ensures !Run(s, actions).isLoading
    ensures Run(s, actions).error == ErrorOf(actions[|actions| - 1])
    decreases |actions|
  {
    if |actions| == 1 {
      assert Run(Apply(s, actions[0]), actions[1..]) == Apply(s, actions[0]);
    } else {
      RunSettlesOnLast(Apply(s, actions[0]), actions[1..]);
      assert actions[1..][|actions| - 2] == actions[|actions| - 1];
    }
  }

  /** A data field changes over a run only if some action of the run writes
      it. */
  lemma {:induction false} RunKeepsUnwrittenFields<R, P>(s: DestinationsState, actions: seq<Action<R, P>>)
    ensures (forall a :: a in actions ==> !a.Browse?) ==>
      Run(s, actions).destinations == s.destinations && Run(s, actions).pagination == s.pagination
    ensures (forall a :: a in actions ==> !a.Popular?) ==>
      Run(s, actions).popularDestinations == s.popularDestinations
    ensures (forall a :: a in actions ==> !a.View?) ==>
      Run(s, actions).currentDestination == s.currentDestination
    decreases |actions|
  {
    if |actions| > 0 {
      assert forall a :: a in actions[1..] ==> a in actions;
      assert actions[0] in actions;
      RunKeepsUnwrittenFields(Apply(s, actions[0]), actions[1..]);
    }
  }
}
