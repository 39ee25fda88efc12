/**
 * The `recipes` store: the search thunk with the query string it sends, the
 * details thunk, and the reducer that moves the store through pending,
 * fulfilled and rejected for both requests.
 */
module RecipesSlice {
  import opened Options
  import opened Text
  import opened Domain
  import opened Thunks
  import opened SearchQuery

  /** `if (filters.page) params.append('page', filters.page)`: a page of 0 is falsy and is left out. */
  function PageEntry(page: int): (r: Option<string>)
    ensures r.Some? <==> page != 0
    ensures r.Some? ==> r.value == IntToString(page)
  {
    if page != 0 then Some(IntToString(page)) else None
  }

  /** The query string `fetchRecipes` sends for a request. */
  function SearchParams(req: SearchRequest): Params
  {
    Entries(req.filters, PageEntry(req.page))
  }

  /** `fetchRecipes` building its URLSearchParams by successive appends. */
  method BuildSearchParams(req: SearchRequest) returns (ps: Params)
    ensures ps == SearchParams(req)
  {
    ps := BuildEntries(req.filters, PageEntry(req.page));
  }

  /** `{ recipes, total }` of a search response. */
  datatype SearchData = SearchData(recipes: seq<Recipe>, total: int)

  /** The fulfilled payload of `fetchRecipes`. */
  datatype SearchResult = SearchResult(recipes: seq<Recipe>, total: int, page: int)

  /** How `fetchRecipes` settles: the response's list and total with the page that was asked for. */
  function SettleSearch(req: SearchRequest, reply: Reply<SearchData>): (r: Outcome<SearchResult>)
    ensures reply.Answered? <==> r.Fulfilled?
    ensures r.Fulfilled? ==> r.payload == SearchResult(reply.data.recipes, reply.data.total, req.page)
    ensures r.Rejected? ==> r.reason == RejectValue(reply.message, "Failed to fetch recipes")
  {
    match reply
    case Answered(d) => Fulfilled(SearchResult(d.recipes, d.total, req.page))
    case Failed(message) => Rejected(RejectValue(message, "Failed to fetch recipes"))
  }

  /** How `fetchRecipeById` settles: the response data itself, or the details fallback. */
  function SettleDetails(reply: Reply<Recipe>): (r: Outcome<Recipe>)
    ensures reply.Answered? <==> r.Fulfilled?
    ensures r.Fulfilled? ==> r.payload == reply.data
    ensures r.Rejected? ==> r.reason == RejectValue(reply.message, "Failed to fetch recipe details")
  {
    Settle(reply, "Failed to fetch recipe details")
  }

  /** A snapshot of the store. */
  datatype State = State(
    list: seq<Recipe>,
    total: int,
    page: int,
    loading: bool,
    error: Option<string>,
    selectedRecipe: Option<Recipe>)

  const Initial := State([], 0, 1, false, None, None)

  /** The actions the reducer handles; the two `pending` cases act alike and share one. */
  datatype Action =
    | ClearSelectedRecipe
    | Pending
    | SearchSettled(search: Outcome<SearchResult>)
    | DetailsSettled(details: Outcome<Recipe>)

  /** The search results, the page and the selected recipe are the same in both snapshots. */
  predicate SameData(a: State, b: State)
  {
    a.list == b.list && a.total == b.total && a.page == b.page && a.selectedRecipe == b.selectedRecipe
  }

  /** The reducer: what each action does to a snapshot. */
  function Reduce(s: State, a: Action): (r: State)
    ensures a.ClearSelectedRecipe? ==> r == s.(selectedRecipe := None)
    ensures a.Pending? ==> r.loading && r.error.None? && SameData(r, s)
    ensures (a.SearchSettled? && a.search.Rejected?) || (a.DetailsSettled? && a.details.Rejected?) ==>
      !r.loading && SameData(r, s) &&
      r.error == Some(if a.SearchSettled? then a.search.reason else a.details.reason)
    ensures a.SearchSettled? && a.search.Fulfilled? ==>
      (var p := a.search.payload;
       !r.loading && r.list == p.recipes && r.total == p.total && r.page == p.page &&
       r.error == s.error && r.selectedRecipe == s.selectedRecipe)
    ensures a.DetailsSettled? && a.details.Fulfilled? ==>
      r == s.(loading := false, selectedRecipe := Some(a.details.payload))
  {
    match a
    case ClearSelectedRecipe => s.(selectedRecipe := None)
    case Pending => s.(loading := true, error := None)
    case SearchSettled(Fulfilled(p)) => s.(loading := false, list := p.recipes, total := p.total, page := p.page)
    case SearchSettled(Rejected(reason)) => s.(loading := false, error := Some(reason))
    case DetailsSettled(Fulfilled(recipe)) => s.(loading := false, selectedRecipe := Some(recipe))
    case DetailsSettled(Rejected(reason)) => s.(loading := false, error := Some(reason))
  }

  /**
   * A whole search from any state: the store ends idle, holding the response's
   * list and total with the requested page, and clears the previous error;
   * a failed search keeps the previous results and reports the message.
   */
  lemma SearchCycle(s: State, req: SearchRequest, reply: Reply<SearchData>)
    ensures var r := Reduce(Reduce(s, Pending), SearchSettled(SettleSearch(req, reply)));
      && !r.loading
      && r.selectedRecipe == s.selectedRecipe
      && (reply.Answered? ==>
            r.list == reply.data.recipes && r.total == reply.data.total && r.page == req.page && r.error.None?)
      && (reply.Failed? ==> SameData(r, s) && r.error == Some(RejectValue(reply.message, "Failed to fetch recipes")))
  {
  }

  /** The store as the slice keeps it. */
  class RecipesStore {
    var list: seq<Recipe>
    var total: int
    var page: int
    var loading: bool
    var error: Option<string>
    var selectedRecipe: Option<Recipe>

    function Snapshot(): State
      reads this
    {
      State(list, total, page, loading, error, selectedRecipe)
    }

    /** `initialState`. */
    constructor ()
      ensures Snapshot() == Initial
    {
      list, total, page := [], 0, 1;
      loading, error, selectedRecipe := false, None, None;
    }

    method ClearSelected()
      modifies this
      ensures Snapshot() == Reduce(old(Snapshot()), ClearSelectedRecipe)
    {
      selectedRecipe := None;
    }

    /** `fetchRecipes.pending` and `fetchRecipeById.pending`. */
    method OnPending()
      modifies this
      ensures Snapshot() == Reduce(old(Snapshot()), Pending)
    {
      loading := true;
      error := None;
    }

    /** `fetchRecipes.fulfilled` / `fetchRecipes.rejected`. */
    method OnSearchSettled(outcome: Outcome<SearchResult>)
      modifies this
      ensures Snapshot() == Reduce(old(Snapshot()), SearchSettled(outcome))
    {
      loading := false;
      match outcome
      case Fulfilled(p) =>
        list := p.recipes;
        total := p.total;
        page := p.page;
      case Rejected(reason) =>
        error := Some(reason);
    }

    /** `fetchRecipeById.fulfilled` / `fetchRecipeById.rejected`. */
    method OnDetailsSettled(outcome: Outcome<Recipe>)
      modifies this
      ensures Snapshot() == Reduce(old(Snapshot()), DetailsSettled(outcome))
    {
      loading := false;
      match outcome
      case Fulfilled(recipe) =>
        selectedRecipe := Some(recipe);
      case Rejected(reason) =>
        error := Some(reason);
    }
  }
}
