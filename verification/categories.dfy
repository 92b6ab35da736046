/**
 * The categories store: all categories, the category being viewed, and the
 * destinations of a category.
 */
module Categories {
  import opened Wrappers
  import opened Http
  import opened Lifecycle

  datatype Category = Category(id: int, name: string, description: Option<string>, icon: Option<string>)

  datatype CategoriesState = CategoriesState(
    categories: seq<Category>,
    currentCategory: Option<Category>,
    isLoading: bool,
    error: Option<string>)

  const Initial := CategoriesState([], None, false, None)

  const FetchCategoriesFallback := "Error al obtener categorías"
  const FetchByIdFallback := "Error al obtener categoría"
  const DestinationsFallback := "Error al obtener destinos de la categoría"

  /** `fetchCategories`: the list becomes the payload, or empty on failure. */
  function FetchCategories(s: CategoriesState, resp: Response<seq<Category>>): (r: CategoriesState)
    ensures SettledOn(r.isLoading, r.error, resp, FetchCategoriesFallback)
    ensures Succeeded(resp) ==> r.categories == resp.payload
    ensures !Succeeded(resp) ==> r.categories == []
    ensures r == s.(categories := r.categories, isLoading := r.isLoading, error := r.error)
  {
    var started := s.(isLoading := true, error := None);
    started.(categories := Installed(resp, []), error := ErrorAfter(resp, FetchCategoriesFallback), isLoading := false)
  }

  /** `fetchCategoryById`: the detail view is cleared first, then holds the
      category, which is also returned; on failure it stays empty. */
  function FetchCategoryById(s: CategoriesState, resp: Response<Category>): (r: Step<CategoriesState, Option<Category>>)
    ensures SettledOn(r.state.isLoading, r.state.error, resp, FetchByIdFallback)
    ensures r.state.currentCategory == r.value
    ensures r.value.Some? <==> Succeeded(resp)
    ensures r.value.Some? ==> r.value.value == resp.payload
    ensures r.state == s.(currentCategory := r.value, isLoading := r.state.isLoading, error := r.state.error)
  {
    var started := s.(isLoading := true, error := None, currentCategory := None);
    if Succeeded(resp) then
      Step(started.(currentCategory := Some(resp.payload), isLoading := false), Some(resp.payload))
    else
      Step(started.(error := Some(ErrorMessage(resp, FetchByIdFallback)), isLoading := false), None)
  }

  /** `fetchCategoryDestinations`: returns the destinations, or none on
      failure; no data field changes. */
  function FetchCategoryDestinations<D>(s: CategoriesState, resp: Response<seq<D>>): (r: Step<CategoriesState, seq<D>>)
    ensures SettledOn(r.state.isLoading, r.state.error, resp, DestinationsFallback)
    ensures Succeeded(resp) ==> r.value == resp.payload
    ensures !Succeeded(resp) ==> r.value == []
    ensures r.state == s.(isLoading := r.state.isLoading, error := r.state.error)
  {
    var started := s.(isLoading := true, error := None);
    Step(started.(error := ErrorAfter(resp, DestinationsFallback), isLoading := false), Installed(resp, []))
  }

  /** The error field only ever shows the last action's outcome: after any
      action it is empty on success and a non-empty message on failure,
      whatever it held before. */
  lemma ErrorReflectsLastAction(s: CategoriesState, t: CategoriesState, resp: Response<seq<Category>>)
    ensures FetchCategories(s, resp).error == FetchCategories(t, resp).error
    ensures !Succeeded(resp) ==> FetchCategories(s, resp).error.Some? && FetchCategories(s, resp).error.value != ""
  {
  }

  /** One store action with the response it meets. */
  datatype Action<D> =
    | Browse(list: Response<seq<Category>>)
    | View(category: Response<Category>)
    | CategoryDestinations(destinations: Response<seq<D>>)

  /** The `error` an action leaves: cleared on success, its own message on
      failure. */
  function ErrorOf<D>(a: Action<D>): Option<string> {
    match a
    case Browse(resp) => ErrorAfter(resp, FetchCategoriesFallback)
    case View(resp) => ErrorAfter(resp, FetchByIdFallback)
    case CategoryDestinations(resp) => ErrorAfter(resp, DestinationsFallback)
  }

  /** The store after one action: settled, with that action's error, and
      each data field written only by the actions that own it. */
  function Apply<D>(s: CategoriesState, a: Action<D>): (r: CategoriesState)
    ensures !r.isLoading
    ensures r.error == ErrorOf(a)
    ensures !a.Browse? ==> r.categories == s.categories
    ensures !a.View? ==> r.currentCategory == s.currentCategory
  {
    match a
    case Browse(resp) => FetchCategories(s, resp)
    case View(resp) => FetchCategoryById(s, resp).state
    case CategoryDestinations(resp) => FetchCategoryDestinations(s, resp).state
  }

  /** The store after the actions, in order. */
  function Run<D>(s: CategoriesState, actions: seq<Action<D>>): CategoriesState
    decreases |actions|
  {
    if |actions| == 0 then s else Run(Apply(s, actions[0]), actions[1..])
  }

  /** After any non-empty run the store is not loading and its error is the
      last action's, whatever came before. */
  lemma {:induction false} RunSettlesOnLast<D>(s: CategoriesState, actions: seq<Action<D>>)
    requires |actions| > 0
    ensures !Run(s, actions).isLoading
    ensures Run(s, actions).error == ErrorOf(actions[|actions| - 1])
    decreases |actions|
  {
    if |actions| == 1 {
      assert Run(Apply(s, actions[0]), actions[1..]) == Apply(s, actions[0]);
    } else {
      RunSettlesOnLast(Apply(s, actions[0]), actions[1..]);
      assert actions[1..][|actions| - 2] == actions[|actions| - 1];
    }
  }

  /** A data field changes over a run only if some action of the run writes
      it. */
  lemma {:induction false} RunKeepsUnwrittenFields<D>(s: CategoriesState, actions: seq<Action<D>>)
    ensures (forall a :: a in actions ==> !a.Browse?) ==>
      Run(s, actions).categories == s.categories
    ensures (forall a :: a in actions ==> !a.View?) ==>
      Run(s, actions).currentCategory == s.currentCategory
    decreases |actions|
  {
    if |actions| > 0 {
      assert forall a :: a in actions[1..] ==> a in actions;
      assert actions[0] in actions;
      RunKeepsUnwrittenFields(Apply(s, actions[0]), actions[1..]);
    }
  }
}
