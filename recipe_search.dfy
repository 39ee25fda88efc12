/**
 * The search page: the filters it starts from (read from the URL), the URL it
 * writes back together with the request it dispatches, the ingredient and
 * dietary-tag editors, and the pagination controls.
 */
module RecipeSearch {
  import opened Options
  import opened Text
  import opened SearchQuery
  import Lists
  import RecipesSlice

  /** `searchParams.get(key) || ''`. */
  function TextParam(ps: Params, key: string): (r: string)
    ensures r == "" <==> Get(ps, key).None? || Get(ps, key) == Some("")
  {
    Get(ps, key).GetOr("")
  }

  /** `searchParams.get(key) ? searchParams.get(key).split(',') : []`. */
  function ListParam(ps: Params, key: string): (r: seq<string>)
    ensures r == [] <==> TextParam(ps, key) == ""
    ensures r != [] ==> Join(r, ",") == TextParam(ps, key)
  {
    var v := TextParam(ps, key);
    if v != "" then Split(v, ",") else []
  }

  /** The filters the page starts with for the query string it is opened at. */
  function FiltersFromParams(ps: Params): (r: Filters)
    ensures ReadsText(ps, "query", r.query) && ReadsText(ps, "cuisine", r.cuisine)
    ensures ReadsText(ps, "cookTime", r.cookTime) && ReadsText(ps, "difficulty", r.difficulty)
    ensures ReadsList(ps, "ingredients", r.ingredients) && ReadsList(ps, "dietaryTags", r.dietaryTags)
  {
    Filters(
      TextParam(ps, "query"),
      ListParam(ps, "ingredients"),
      TextParam(ps, "cuisine"),
      ListParam(ps, "dietaryTags"),
      TextParam(ps, "cookTime"),
      TextParam(ps, "difficulty"))
  }

  /** A text filter read from `key`: empty exactly when the key is missing or empty, and otherwise its value. */
  predicate ReadsText(ps: Params, key: string, v: string)
  {
    && (v == "" <==> Get(ps, key).None? || Get(ps, key) == Some(""))
    && (v != "" ==> Get(ps, key) == Some(v))
  }

  /** A list filter read from `key`: empty exactly when the key is missing or empty, and otherwise joining back to its value. */
  predicate ReadsList(ps: Params, key: string, vs: seq<string>)
  {
    && (vs == [] <==> Get(ps, key).None? || Get(ps, key) == Some(""))
    && (vs != [] ==> Get(ps, key) == Some(Join(vs, ",")))
  }

  /** `Number(page) || 1` for the store's page: 0 is falsy. */
  function InitialPage(storePage: int): (r: int)
    ensures r != 0
    ensures storePage != 0 ==> r == storePage
  {
    if storePage != 0 then storePage else 1
  }

  /** `if (pageState !== 1) paramsObj.page = String(pageState)`: page 1 is left out of the URL. */
  function UrlPage(page: int): (r: Option<string>)
    ensures r.Some? <==> page != 1
    ensures r.Some? ==> r.value == IntToString(page)
  {
    if page != 1 then Some(IntToString(page)) else None
  }

  /** A list filter the URL carries faithfully: comma-free elements, and not the single empty string. */
  predicate UrlSafeList(xs: seq<string>)
  {
    xs != [""] && forall k :: 0 <= k < |xs| ==> ',' !in xs[k]
  }

  /** Lists the URL carries faithfully, for both list filters. */
  predicate UrlSafe(f: Filters)
  {
    UrlSafeList(f.ingredients) && UrlSafeList(f.dietaryTags)
  }

  /** Reading a list filter back from the value the builders emit for it. */
  lemma ListEntryRoundTrip(xs: seq<string>)
    requires UrlSafeList(xs)
    ensures var v := ListEntry(xs).GetOr("");
            (if v != "" then Split(v, ",") else []) == xs
  {
    if |xs| > 0 {
      assert Join(xs, ",") != "" by {
        if |xs| == 1 {
          assert xs[0] != "";
        } else {
          assert Join(xs, ",")[|xs[0]|] == ',';
        }
      }
      SplitJoinChar(xs, ',');
    }
  }

  /**
   * Opening the URL the page wrote gives back the filters that wrote it, for
   * whatever page it was on; the page itself is not read back from the URL.
   */
  lemma UrlRoundTrip(f: Filters, page: Option<string>)
    requires UrlSafe(f)
    ensures FiltersFromParams(Entries(f, page)) == f
  {
    EntriesSent(f, page);
    FiltersBack(Entries(f, page), f);
  }

  /** Parameters holding what the builders emit for each filter read back as those filters. */
  lemma FiltersBack(ps: Params, f: Filters)
    requires UrlSafe(f)
    requires Get(ps, "query") == TextEntry(f.query) && Get(ps, "ingredients") == ListEntry(f.ingredients)
    requires Get(ps, "cuisine") == TextEntry(f.cuisine) && Get(ps, "dietaryTags") == ListEntry(f.dietaryTags)
    requires Get(ps, "cookTime") == TextEntry(f.cookTime) && Get(ps, "difficulty") == TextEntry(f.difficulty)
    ensures FiltersFromParams(ps) == f
  {
    ListParamBack(ps, "ingredients", f.ingredients);
    ListParamBack(ps, "dietaryTags", f.dietaryTags);
  }

  /** A list filter comes back from the parameter the builders emit for it. */
  lemma ListParamBack(ps: Params, key: string, xs: seq<string>)
    requires UrlSafeList(xs) && Get(ps, key) == ListEntry(xs)
    ensures ListParam(ps, key) == xs
  {
    ListEntryRoundTrip(xs);
  }

  /** The splitting of a list parameter is where a `[""]` list is lost: it comes back as `[]`. */
  lemma EmptyStringListLost(f: Filters, page: Option<string>)
    requires f.ingredients == [""]
    ensures FiltersFromParams(Entries(f, page)).ingredients == []
  {
    EntriesSent(f, page);
  }

  /** The local state of the page. */
  datatype SearchForm = SearchForm(
    filters: Filters,
    ingredientInput: string,
    page: int)

  /** The page as it first renders at a URL with the store on `storePage`. */
  function Open(ps: Params, storePage: int): (r: SearchForm)
    ensures r.filters == FiltersFromParams(ps) && r.ingredientInput == "" && r.page == InitialPage(storePage)
  {
    SearchForm(FiltersFromParams(ps), "", InitialPage(storePage))
  }

  /** The effect run after every change: the request it dispatches and the URL it writes. */
  method Sync(form: SearchForm) returns (req: SearchRequest, url: Params)
    ensures req == SearchRequest(form.filters, form.page)
    ensures url == Entries(form.filters, UrlPage(form.page))
  {
    req := SearchRequest(form.filters, form.page);
    url := BuildEntries(form.filters, UrlPage(form.page));
  }

  /**
   * The URL written by the effect and the query string of the request it
   * dispatches carry the same filter keys; they differ only in the page,
   * which the URL leaves out on page 1 and the request leaves out on page 0.
   */
  lemma UrlMatchesRequest(f: Filters, page: int, key: string)
    ensures var url, query := Entries(f, UrlPage(page)), RecipesSlice.SearchParams(SearchRequest(f, page));
      && (key != "page" ==> Get(url, key) == Get(query, key))
      && (Get(url, "page").None? <==> page == 1)
      && (Get(query, "page").None? <==> page == 0)
  {
    var url, query := Entries(f, UrlPage(page)), RecipesSlice.SearchParams(SearchRequest(f, page));
    EntriesGet(f, UrlPage(page), key);
    EntriesGet(f, RecipesSlice.PageEntry(page), key);
    if key != "page" {
      KeyValueIgnoresPage(f, UrlPage(page), RecipesSlice.PageEntry(page), key);
    }
    EntriesGet(f, UrlPage(page), "page");
    EntriesGet(f, RecipesSlice.PageEntry(page), "page");
  }

  /** `addIngredient`: the trimmed input joins the list only when it is non-empty and new, and only then is the input cleared. */
  function AddIngredient(form: SearchForm): (r: SearchForm)
    ensures var x := Trim(form.ingredientInput);
      if x != "" && x !in form.filters.ingredients then
        r == form.(filters := form.filters.(ingredients := form.filters.ingredients + [x]), ingredientInput := "")
      else r == form
  {
    var x := Trim(form.ingredientInput);
    if x != "" && x !in form.filters.ingredients then
      form.(filters := form.filters.(ingredients := form.filters.ingredients + [x]), ingredientInput := "")
    else form
  }

  /** Entries the ingredient editor can produce: non-empty and trimmed. */
  predicate CleanEntries(xs: seq<string>)
  {
    forall k :: 0 <= k < |xs| ==> xs[k] != "" && IsTrimmed(xs[k])
  }

  /** Adding ingredients this way never creates a duplicate nor an empty or untrimmed entry. */
  lemma AddIngredientKeepsClean(form: SearchForm)
    requires Lists.Distinct(form.filters.ingredients) && CleanEntries(form.filters.ingredients)
    ensures Lists.Distinct(AddIngredient(form).filters.ingredients)
    ensures CleanEntries(AddIngredient(form).filters.ingredients)
  {
    var xs := form.filters.ingredients;
    var x := Trim(form.ingredientInput);
    if x != "" && x !in xs {
      assert AddIngredient(form).filters.ingredients == xs + [x];
      Lists.AppendFreshKeepsDistinct(xs, x);
      AppendCleanEntry(xs, x);
    }
  }

  lemma AppendCleanEntry(xs: seq<string>, x: string)
    requires CleanEntries(xs) && x != "" && IsTrimmed(x)
    ensures CleanEntries(xs + [x])
  {
    assert forall k :: 0 <= k < |xs + [x]| ==> (xs + [x])[k] == if k < |xs| then xs[k] else x;
  }

  /** `removeIngredient`: every copy of the value goes and the other entries keep their order. */
  function RemoveIngredient(form: SearchForm, ing: string): (r: SearchForm)
    ensures ing !in r.filters.ingredients
    ensures multiset(r.filters.ingredients) == multiset(form.filters.ingredients)[ing := 0]
    ensures r == form.(filters := r.filters) && r.filters == form.filters.(ingredients := r.filters.ingredients)
  {
    form.(filters := form.filters.(ingredients := Lists.RemoveAll(form.filters.ingredients, ing)))
  }

  /** `toggleDietaryTag`: the tag's membership flips, the other tags and filters stay. */
  function ToggleDietaryTag(form: SearchForm, tag: string): (r: SearchForm)
    ensures tag in r.filters.dietaryTags <==> tag !in form.filters.dietaryTags
    ensures forall t :: t != tag ==> (t in r.filters.dietaryTags <==> t in form.filters.dietaryTags)
    ensures r == form.(filters := r.filters) && r.filters == form.filters.(dietaryTags := r.filters.dietaryTags)
  {
    form.(filters := form.filters.(dietaryTags := Lists.Toggle(form.filters.dietaryTags, tag)))
  }

  /** `Math.ceil(total / 10)`; a negative ceiling is taken as its integer value. */
  function TotalPages(total: int): (r: int)
    ensures 10 * (r - 1) < total <= 10 * r
    ensures total <= 0 ==> r <= 0
    ensures total > 0 ==> r >= 1
  {
    -((-total) / 10)
  }

  /** `Math.max(p - 1, 1)`. */
  function PrevPage(p: int): (r: int)
    ensures r >= 1
    ensures p > 1 ==> r == p - 1
    ensures p <= 1 ==> r == 1
  {
    if p - 1 > 1 then p - 1 else 1
  }

  /** `Math.min(p + 1, totalPages)`. */
  function NextPage(p: int, totalPages: int): (r: int)
    ensures r <= totalPages
    ensures p < totalPages ==> r == p + 1
    ensures p >= totalPages ==> r == totalPages
  {
    if p + 1 < totalPages then p + 1 else totalPages
  }

  /** The numbered buttons: one per page, 1 to totalPages. */
  function PageNumbers(totalPages: int): (r: seq<int>)
    ensures totalPages >= 0 ==> |r| == totalPages
    ensures forall k :: 0 <= k < |r| ==> r[k] == k + 1
  {
    if totalPages <= 0 then [] else seq(totalPages, k => k + 1)
  }

  /** A page in range stays in range whichever control is used, once there is more than one page. */
  lemma PagesStayInRange(total: int, p: int)
    requires TotalPages(total) > 1 && 1 <= p <= TotalPages(total)
    ensures 1 <= PrevPage(p) <= TotalPages(total)
    ensures 1 <= NextPage(p, TotalPages(total)) <= TotalPages(total)
    ensures forall k :: 0 <= k < |PageNumbers(TotalPages(total))| ==>
      1 <= PageNumbers(TotalPages(total))[k] <= TotalPages(total)
  {
  }

  /** Submitting: back to page 1, and a request for page 1 with the current filters. */
  function Submit(form: SearchForm): (r: (SearchForm, SearchRequest))
    ensures r.0 == form.(page := 1)
    ensures r.1 == SearchRequest(form.filters, 1)
  {
    (form.(page := 1), SearchRequest(form.filters, 1))
  }
}
