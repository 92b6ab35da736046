/**
 * The tours store: all tours, the tour being viewed, and creating and
 * updating a tour.
 */
module Tours {
  import opened Wrappers
  import opened Http
  import opened Lifecycle

  datatype Tour = Tour(
    id: int,
    name: string,
    description: string,
    price: int,
    currency: string,
    durationDays: int,
    maxParticipants: int,
    startDate: string,
    endDate: string,
    userId: int)

  datatype ToursState = ToursState(
    tours: seq<Tour>,
    currentTour: Option<Tour>,
    isLoading: bool,
    error: Option<string>)

  const Initial := ToursState([], None, false, None)

  const FetchToursFallback := "Error al obtener tours"
  const FetchByIdFallback := "Error al obtener tour"
  const CreateFallback := "Error al crear tour"
  const UpdateFallback := "Error al actualizar tour"

  /** `fetchTours`: the list becomes the payload, or empty on failure. */
  function FetchTours(s: ToursState, resp: Response<seq<Tour>>): (r: ToursState)
    ensures SettledOn(r.isLoading, r.error, resp, FetchToursFallback)
    ensures Succeeded(resp) ==> r.tours == resp.payload
    ensures !Succeeded(resp) ==> r.tours == []
    ensures r == s.(tours := r.tours, isLoading := r.isLoading, error := r.error)
  {
    var started := s.(isLoading := true, error := None);
    started.(tours := Installed(resp, []), error := ErrorAfter(resp, FetchToursFallback), isLoading := false)
  }

  /** `fetchTourById`: the detail view is cleared first, then holds the
      tour, which is also returned; on failure it stays empty. */
  function FetchTourById(s: ToursState, resp: Response<Tour>): (r: Step<ToursState, Option<Tour>>)
    ensures SettledOn(r.state.isLoading, r.state.error, resp, FetchByIdFallback)
    ensures r.state.currentTour == r.value
    ensures r.value.Some? <==> Succeeded(resp)
    ensures r.value.Some? ==> r.value.value == resp.payload
    ensures r.state == s.(currentTour := r.value, isLoading := r.state.isLoading, error := r.state.error)
  {
    var started := s.(isLoading := true, error := None, currentTour := None);
    if Succeeded(resp) then
      Step(started.(currentTour := Some(resp.payload), isLoading := false), Some(resp.payload))
    else
      Step(started.(error := Some(ErrorMessage(resp, FetchByIdFallback)), isLoading := false), None)
  }

  /** `createTour`: returns the created tour, or `null`; no data field changes. */
  function CreateTour(s: ToursState, resp: Response<Tour>): (r: Step<ToursState, Option<Tour>>)
    ensures SettledOn(r.state.isLoading, r.state.error, resp, CreateFallback)
    ensures r.value.Some? <==> Succeeded(resp)
    ensures r.value.Some? ==> r.value.value == resp.payload
    ensures r.state == s.(isLoading := r.state.isLoading, error := r.state.error)
  {
    var started := s.(isLoading := true, error := None);
    Step(started.(error := ErrorAfter(resp, CreateFallback), isLoading := false), Returned(resp))
  }

  /** `updateTour(id)`: the detail view takes the updated tour only when it
      shows the tour with that id; the updated tour is returned, or `null`. */
  function UpdateTour(s: ToursState, id: int, resp: Response<Tour>): (r: Step<ToursState, Option<Tour>>)
    ensures SettledOn(r.state.isLoading, r.state.error, resp, UpdateFallback)
    ensures r.value.Some? <==> Succeeded(resp)
    ensures r.value.Some? ==> r.value.value == resp.payload
    ensures r.state.currentTour != s.currentTour ==>
      Succeeded(resp) && s.currentTour.Some? && s.currentTour.value.id == id
    ensures Succeeded(resp) && s.currentTour.Some? && s.currentTour.value.id == id ==>
      r.state.currentTour == Some(resp.payload)
    ensures r.state == s.(currentTour := r.state.currentTour, isLoading := r.state.isLoading, error := r.state.error)
  {
    var started := s.(isLoading := true, error := None);
    if Succeeded(resp) then
      var current := if started.currentTour.Some? && started.currentTour.value.id == id
                     then Some(resp.payload) else started.currentTour;
      Step(started.(currentTour := current, isLoading := false), Some(resp.payload))
    else
      Step(started.(error := Some(ErrorMessage(resp, UpdateFallback)), isLoading := false), None)
  }

  /** A list fetch does not depend on what the store held before; a detail
      fetch forgets the previous one; an update reaches the viewed tour only
      when the ids agree. */
  lemma FetchAndUpdate(s: ToursState, t: ToursState, list: Response<seq<Tour>>, first: Response<Tour>, fetched: Tour, id: int, resp: Response<Tour>)
    ensures FetchTours(s, list).tours == FetchTours(t, list).tours
    ensures FetchTourById(FetchTourById(s, first).state, resp) == FetchTourById(s, resp)
    ensures var viewed := FetchTourById(s, Ok(true, fetched, None)).state;
            UpdateTour(viewed, id, resp).state.currentTour
            == (if Succeeded(resp) && fetched.id == id then Some(resp.payload) else Some(fetched))
  {
  }

  /** One store action with the response it meets. */
  datatype Action =
    | Browse(list: Response<seq<Tour>>)
    | View(tour: Response<Tour>)
    | Create(created: Response<Tour>)
    | Update(id: int, updated: Response<Tour>)

  /** The `error` an action leaves: cleared on success, its own message on
      failure. */
  function ErrorOf(a: Action): Option<string> {
    match a
    case Browse(resp) => ErrorAfter(resp, FetchToursFallback)
    case View(resp) => ErrorAfter(resp, FetchByIdFallback)
    case Create(resp) => ErrorAfter(resp, CreateFallback)
    case Update(_, resp) => ErrorAfter(resp, UpdateFallback)
  }

  /** The store after one action: settled, with that action's error, and
      each data field written only by the actions that own it. */
  function Apply(s: ToursState, a: Action): (r: ToursState)
    ensures !r.isLoading
    ensures r.error == ErrorOf(a)
    ensures !a.Browse? ==> r.tours == s.tours
    ensures !a.View? && !a.Update? ==> r.currentTour == s.currentTour
  {
    match a
    case Browse(resp) => FetchTours(s, resp)
    case View(resp) => FetchTourById(s, resp).state
    case Create(resp) => CreateTour(s, resp).state
    case Update(id, resp) => UpdateTour(s, id, resp).state
  }

  /** The store after the actions, in order. */
  function Run(s: ToursState, actions: seq<Action>): ToursState
    decreases |actions|
  {
    if |actions| == 0 then s else Run(Apply(s, actions[0]), actions[1..])
  }

  /** After any non-empty run the store is not loading and its error is the
      last action's, whatever came before. */
  lemma {:induction false} RunSettlesOnLast(s: ToursState, actions: seq<Action>)
    requires |actions| > 0
    ensures !Run(s, actions).isLoading
    ensures Run(s, actions).error == ErrorOf(actions[|actions| - 1])
    decreases |actions|
  {
    if |actions| == 1 {
      assert Run(Apply(s, actions[0]), actions[1..]) == Apply(s, actions[0]);
    } else {
      RunSettlesOnLast(Apply(s, actions[0]), actions[1..]);
      assert actions[1..][|actions| - 2] == actions[|actions| - 1];
    }
  }

  /** A data field changes over a run only if some action of the run writes
      it. */
  lemma {:induction false} RunKeepsUnwrittenFields(s: ToursState, actions: seq<Action>)
    ensures (forall a :: a in actions ==> !a.Browse?) ==>
      Run(s, actions).tours == s.tours
    ensures (forall a :: a in actions ==> !a.View? && !a.Update?) ==>
      Run(s, actions).currentTour == s.currentTour
    decreases |actions|
  {
    if |actions| > 0 {
      assert forall a :: a in actions[1..] ==> a in actions;
      assert actions[0] in actions;
      RunKeepsUnwrittenFields(Apply(s, actions[0]), actions[1..]);
    }
  }
}
