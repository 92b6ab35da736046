/**
 * The events store: all events, the popular and upcoming lists, the event
 * being viewed, and attendance.
 */
module Events {
  import opened Wrappers
  import opened Http
  import opened Lifecycle
  import opened Paging

  datatype Event = Event(
    id: int,
    title: string,
    startDatetime: string,
    endDatetime: string,
    location: string,
    destinationId: int,
    userId: int,
    maxAttendees: Option<int>)

  datatype EventsState = EventsState(
    events: seq<Event>,
    popularEvents: seq<Event>,
    upcomingEvents: seq<Event>,
    currentEvent: Option<Event>,
    isLoading: bool,
    error: Option<string>)

  const Initial := EventsState([], [], [], None, false, None)

  const FetchEventsFallback := "Error al obtener eventos"
  const FetchPopularFallback := "Error al obtener eventos populares"
  const FetchUpcomingFallback := "Error al obtener próximos eventos"
  const FetchByIdFallback := "Error al obtener evento"
  const AttendFallback := "Error al asistir al evento"
  const CancelFallback := "Error al cancelar asistencia"
  const AttendeesFallback := "Error al obtener asistentes"

  const DefaultPopularLimit := 4

  /** The parameters of the popular request. */
  function PopularParams(limit: Option<int>): (q: Query)
    ensures Lookup(q, "limit") == Some(Number(limit.GetOr(4)))
    ensures forall key :: key != "limit" ==> Lookup(q, key).None?
  {
    LimitQuery(limit, DefaultPopularLimit)
  }

  /** `fetchEvents`: the list becomes the payload, or empty on failure. */
  function FetchEvents(s: EventsState, resp: Response<seq<Event>>): (r: EventsState)
    ensures SettledOn(r.isLoading, r.error, resp, FetchEventsFallback)
    ensures Succeeded(resp) ==> r.events == resp.payload
    ensures !Succeeded(resp) ==> r.events == []
    ensures r == s.(events := r.events, isLoading := r.isLoading, error := r.error)
  {
    var started := s.(isLoading := true, error := None);
    started.(events := Installed(resp, []), error := ErrorAfter(resp, FetchEventsFallback), isLoading := false)
  }

  /** `fetchPopularEvents`: the popular list becomes the payload, or empty
      on failure. */
  function FetchPopularEvents(s: EventsState, resp: Response<seq<Event>>): (r: EventsState)
    ensures SettledOn(r.isLoading, r.error, resp, FetchPopularFallback)
    ensures Succeeded(resp) ==> r.popularEvents == resp.payload
    ensures !Succeeded(resp) ==> r.popularEvents == []
    ensures r == s.(popularEvents := r.popularEvents, isLoading := r.isLoading, error := r.error)
  {
    var started := s.(isLoading := true, error := None);
    started.(popularEvents := Installed(resp, []), error := ErrorAfter(resp, FetchPopularFallback), isLoading := false)
  }

  /** `fetchUpcomingEvents`: the answer is paginated and only the items on
      the page are kept; empty on failure. */
  function FetchUpcomingEvents(s: EventsState, resp: Response<Page<Event>>): (r: EventsState)
    ensures SettledOn(r.isLoading, r.error, resp, FetchUpcomingFallback)
    ensures Succeeded(resp) ==> r.upcomingEvents == resp.payload.data
    ensures !Succeeded(resp) ==> r.upcomingEvents == []
    ensures r == s.(upcomingEvents := r.upcomingEvents, isLoading := r.isLoading, error := r.error)
  {
    var started := s.(isLoading := true, error := None);
    var upcoming := if Succeeded(resp) then resp.payload.data else [];
    started.(upcomingEvents := upcoming, error := ErrorAfter(resp, FetchUpcomingFallback), isLoading := false)
  }

  /** `fetchEventById`: the detail view is cleared first, then holds the
      event, which is also returned; on failure it stays empty. */
  function FetchEventById(s: EventsState, resp: Response<Event>): (r: Step<EventsState, Option<Event>>)
    ensures SettledOn(r.state.isLoading, r.state.error, resp, FetchByIdFallback)
    ensures r.state.currentEvent == r.value
    ensures r.value.Some? <==> Succeeded(resp)
    ensures r.value.Some? ==> r.value.value == resp.payload
    ensures r.state == s.(currentEvent := r.value, isLoading := r.state.isLoading, error := r.state.error)
  {
    var started := s.(isLoading := true, error := None, currentEvent := None);
    if Succeeded(resp) then
      Step(started.(currentEvent := Some(resp.payload), isLoading := false), Some(resp.payload))
    else
      Step(started.(error := Some(ErrorMessage(resp, FetchByIdFallback)), isLoading := false), None)
  }

  /** `attendEvent`: returns the payload, or `null`; no data field changes. */
  function AttendEvent<P>(s: EventsState, resp: Response<P>): (r: Step<EventsState, Option<P>>)
    ensures SettledOn(r.state.isLoading, r.state.error, resp, AttendFallback)
    ensures r.value.Some? <==> Succeeded(resp)
    ensures r.value.Some? ==> r.value.value == resp.payload
    ensures r.state == s.(isLoading := r.state.isLoading, error := r.state.error)
  {
    var started := s.(isLoading := true, error := None);
    Step(started.(error := ErrorAfter(resp, AttendFallback), isLoading := false), Returned(resp))
  }

  /** `cancelAttendance`: `true` exactly on success; no data field changes. */
  function CancelAttendance<P>(s: EventsState, resp: Response<P>): (r: Step<EventsState, bool>)
    ensures SettledOn(r.state.isLoading, r.state.error, resp, CancelFallback)
    ensures r.value <==> Succeeded(resp)
    ensures r.value <==> r.state.error.None?
    ensures r.state == s.(isLoading := r.state.isLoading, error := r.state.error)
  {
    var started := s.(isLoading := true, error := None);
    Step(started.(error := ErrorAfter(resp, CancelFallback), isLoading := false), Succeeded(resp))
  }

  /** `getEventAttendees`: returns the attendees, or none on failure; no
      data field changes. */
  function GetEventAttendees<A>(s: EventsState, resp: Response<seq<A>>): (r: Step<EventsState, seq<A>>)
    ensures SettledOn(r.state.isLoading, r.state.error, resp, AttendeesFallback)
    ensures Succeeded(resp) ==> r.value == resp.payload
    ensures !Succeeded(resp) ==> r.value == []
    ensures r.state == s.(isLoading := r.state.isLoading, error := r.state.error)
  {
    var started := s.(isLoading := true, error := None);
    Step(started.(error := ErrorAfter(resp, AttendeesFallback), isLoading := false), Installed(resp, []))
  }

  /** A list fetch does not depend on what the store held before, and a
      detail fetch forgets what the previous one installed. */
  lemma FetchesReplace(s: EventsState, t: EventsState, list: Response<seq<Event>>, first: Response<Event>, resp: Response<Event>)
    ensures FetchEvents(s, list).events == FetchEvents(t, list).events
    ensures FetchEvents(FetchEvents(s, list), list) == FetchEvents(s, list)
    ensures FetchEventById(FetchEventById(s, first).state, resp) == FetchEventById(s, resp)
  {
  }

  /** One store action with the response it meets. */
  datatype Action<P, C, A> =
    | Browse(list: Response<seq<Event>>)
    | Popular(popular: Response<seq<Event>>)
    | Upcoming(upcoming: Response<Page<Event>>)
    | View(event: Response<Event>)
    | Attend(attend: Response<P>)
    | Cancel(cancel: Response<C>)
    | Attendees(attendees: Response<seq<A>>)

  /** The `error` an action leaves: cleared on success, its own message on
      failure. */
  function ErrorOf<P, C, A>(a: Action<P, C, A>): Option<string> {
    match a
    case Browse(resp) => ErrorAfter(resp, FetchEventsFallback)
    case Popular(resp) => ErrorAfter(resp, FetchPopularFallback)
    case Upcoming(resp) => ErrorAfter(resp, FetchUpcomingFallback)
    case View(resp) => ErrorAfter(resp, FetchByIdFallback)
    case Attend(resp) => ErrorAfter(resp, AttendFallback)
    case Cancel(resp) => ErrorAfter(resp, CancelFallback)
    case Attendees(resp) => ErrorAfter(resp, AttendeesFallback)
  }

  /** The store after one action: settled, with that action's error, and
      each data field written only by the actions that own it. */
  function Apply<P, C, A>(s: EventsState, a: Action<P, C, A>): (r: EventsState)
    ensures !r.isLoading
    ensures r.error == ErrorOf(a)
    ensures !a.Browse? ==> r.events == s.events
    ensures !a.Popular? ==> r.popularEvents == s.popularEvents
    ensures !a.Upcoming? ==> r.upcomingEvents == s.upcomingEvents
    ensures !a.View? ==> r.currentEvent == s.currentEvent
  {
    match a
    case Browse(resp) => FetchEvents(s, resp)
    case Popular(resp) => FetchPopularEvents(s, resp)
    case Upcoming(resp) => FetchUpcomingEvents(s, resp)
    case View(resp) => FetchEventById(s, resp).state
    case Attend(resp) => AttendEvent(s, resp).state
    case Cancel(resp) => CancelAttendance(s, resp).state
    case Attendees(resp) => GetEventAttendees(s, resp).state
  }

  /** The store after the actions, in order. */
  function Run<P, C, A>(s: EventsState, actions: seq<Action<P, C, A>>): EventsState
    decreases |actions|
  {
    if |actions| == 0 then s else Run(Apply(s, actions[0]), actions[1..])
  }

  /** After any non-empty run the store is not loading and its error is the
      last action's, whatever came before. */
  lemma {:induction false} RunSettlesOnLast<P, C, A>(s: EventsState, actions: seq<Action<P, C, A>>)
    requires |actions| > 0
    ensures !Run(s, actions).isLoading
    ensures Run(s, actions).error == ErrorOf(actions[|actions| - 1])
    decreases |actions|
  {
    if |actions| == 1 {
      assert Run(Apply(s, actions[0]), actions[1..]) == Apply(s, actions[0]);
    } else {
      RunSettlesOnLast(Apply(s, actions[0]), actions[1..]);
      assert actions[1..][|actions| - 2] == actions[|actions| - 1];
    }
  }

  /** A data field changes over a run only if some action of the run writes
      it. */
  lemma {:induction false} RunKeepsUnwrittenFields<P, C, A>(s: EventsState, actions: seq<Action<P, C, A>>)
    ensures (forall a :: a in actions ==> !a.Browse?) ==>
      Run(s, actions).events == s.events
    ensures (forall a :: a in actions ==> !a.Popular?) ==>
      Run(s, actions).popularEvents == s.popularEvents
    ensures (forall a :: a in actions ==> !a.Upcoming?) ==>
      Run(s, actions).upcomingEvents == s.upcomingEvents
    ensures (forall a :: a in actions ==> !a.View?) ==>
      Run(s, actions).currentEvent == s.currentEvent
    decreases |actions|
  {
    if |actions| > 0 {
      assert forall a :: a in actions[1..] ==> a in actions;
      assert actions[0] in actions;
      RunKeepsUnwrittenFields(Apply(s, actions[0]), actions[1..]);
    }
  }
}
