/**
 * The search filters and the query string they become. Both the URL sync of the
 * search page and the `fetchRecipes` thunk emit the same keys in the same order,
 * each only when its filter is non-empty; they differ only in when `page` is sent.
 * URLSearchParams is modelled as an ordered list of key/value entries.
 */
module SearchQuery {
  import opened Options
  import opened Text

  /** The filter fields of the search form. */
  datatype Filters = Filters(
    query: string,
    ingredients: seq<string>,
    cuisine: string,
    dietaryTags: seq<string>,
    cookTime: string,
    difficulty: string)

  /** The `filters` object handed to `fetchRecipes`: the filter fields and the page. */
  datatype SearchRequest = SearchRequest(filters: Filters, page: int)

  /** A query string as URLSearchParams holds it: entries in insertion order. */
  type Params = seq<(string, string)>

  /** Entry `(key, v)` comes before every other entry with this key. */
  predicate FirstEntry(ps: Params, key: string, v: string)
  {
    exists i :: 0 <= i < |ps| && ps[i] == (key, v) && forall j :: 0 <= j < i ==> ps[j].0 != key
  }

  /** `params.get(key)`: the value of the first entry with this key. */
  function Get(ps: Params, key: string): (r: Option<string>)
    ensures r.Some? ==> (key, r.value) in ps
    ensures r.None? ==> forall i :: 0 <= i < |ps| ==> ps[i].0 != key
    ensures r.Some? ==> FirstEntry(ps, key, r.value)
    decreases |ps|
  {
    if ps == [] then None
    else if ps[0].0 == key then Some(ps[0].1)
    else Get(ps[1..], key)
  }

  /** A text filter is sent only when it is non-empty (`if (filters.query)`). */
  function TextEntry(v: string): Option<string>
  {
    if v != "" then Some(v) else None
  }

  /** A list filter is sent only when it has elements, joined with ',' (`if (xs.length)`). */
  function ListEntry(vs: seq<string>): Option<string>
  {
    if |vs| > 0 then Some(Join(vs, ",")) else None
  }

  /** `params.append(k, v)` in front of the entries appended after it, when the value is present. */
  function Emit(k: string, v: Option<string>, rest: Params): Params
  {
    if v.Some? then [(k, v.value)] + rest else rest
  }

  /**
   * The entries a builder appends for `f`, given what it does with the page:
   * query, ingredients, cuisine, dietaryTags, cookTime, difficulty, page.
   */
  function Entries(f: Filters, page: Option<string>): (r: Params)
    ensures |r| <= |Keys|
    ensures Carries(r, f, page)
  {
    var e6 := Emit("page", page, []);
    var e5 := Emit("difficulty", TextEntry(f.difficulty), e6);
    var e4 := Emit("cookTime", TextEntry(f.cookTime), e5);
    var e3 := Emit("dietaryTags", ListEntry(f.dietaryTags), e4);
    var e2 := Emit("cuisine", TextEntry(f.cuisine), e3);
    var e1 := Emit("ingredients", ListEntry(f.ingredients), e2);
    EmitCarries("page", [], f, page);
    EmitCarries("difficulty", e6, f, page);
    EmitCarries("cookTime", e5, f, page);
    EmitCarries("dietaryTags", e4, f, page);
    EmitCarries("cuisine", e3, f, page);
    EmitCarries("ingredients", e2, f, page);
    EmitCarries("query", e1, f, page);
    Emit("query", TextEntry(f.query), e1)
  }

  /** Every entry holds the value meant for its key, so no entry has a key outside Keys. */
  predicate Carries(ps: Params, f: Filters, page: Option<string>)
  {
    forall i :: 0 <= i < |ps| ==> KeyValue(f, page, ps[i].0) == Some(ps[i].1)
  }

  /** Emitting a key's own value in front keeps every entry carrying its value. */
  lemma EmitCarries(k: string, rest: Params, f: Filters, page: Option<string>)
    requires Carries(rest, f, page)
    ensures Carries(Emit(k, KeyValue(f, page, k), rest), f, page)
    ensures |Emit(k, KeyValue(f, page, k), rest)| <= |rest| + 1
  {
    var ps := Emit(k, KeyValue(f, page, k), rest);
    if KeyValue(f, page, k).Some? {
      assert forall i :: 1 <= i < |ps| ==> ps[i] == rest[i - 1];
    }
  }

  /** Looking a key up past an emitted entry. */
  lemma GetEmit(k: string, v: Option<string>, rest: Params, key: string)
    ensures Get(Emit(k, v, rest), key) == if key == k && v.Some? then v else Get(rest, key)
  {
    if v.Some? {
      assert Emit(k, v, rest)[1..] == rest;
    }
  }

  /** Reading any key of the emitted entries gives the value meant for it. */
  lemma EntriesGet(f: Filters, page: Option<string>, key: string)
    ensures Get(Entries(f, page), key) == KeyValue(f, page, key)
  {
    var e6 := Emit("page", page, []);
    var e5 := Emit("difficulty", TextEntry(f.difficulty), e6);
    var e4 := Emit("cookTime", TextEntry(f.cookTime), e5);
    var e3 := Emit("dietaryTags", ListEntry(f.dietaryTags), e4);
    var e2 := Emit("cuisine", TextEntry(f.cuisine), e3);
    var e1 := Emit("ingredients", ListEntry(f.ingredients), e2);
    GetEmit("page", page, [], key);
    GetEmit("difficulty", TextEntry(f.difficulty), e6, key);
    GetEmit("cookTime", TextEntry(f.cookTime), e5, key);
    GetEmit("dietaryTags", ListEntry(f.dietaryTags), e4, key);
    GetEmit("cuisine", TextEntry(f.cuisine), e3, key);
    GetEmit("ingredients", ListEntry(f.ingredients), e2, key);
    GetEmit("query", TextEntry(f.query), e1, key);
  }

  /** A key is in the emitted entries exactly when its filter is non-empty; lists are joined with ','. */
  lemma EntriesSent(f: Filters, page: Option<string>)
    ensures var ps := Entries(f, page);
      && Get(ps, "query") == TextEntry(f.query)
      && Get(ps, "ingredients") == ListEntry(f.ingredients)
      && Get(ps, "cuisine") == TextEntry(f.cuisine)
      && Get(ps, "dietaryTags") == ListEntry(f.dietaryTags)
      && Get(ps, "cookTime") == TextEntry(f.cookTime)
      && Get(ps, "difficulty") == TextEntry(f.difficulty)
      && Get(ps, "page") == page
  {
    EntriesGet(f, page, "query");
    EntriesGet(f, page, "ingredients");
    EntriesGet(f, page, "cuisine");
    EntriesGet(f, page, "dietaryTags");
    EntriesGet(f, page, "cookTime");
    EntriesGet(f, page, "difficulty");
    EntriesGet(f, page, "page");
  }

  /** The value each key is meant to carry. */
  function KeyValue(f: Filters, page: Option<string>, key: string): Option<string>
  {
    if key == "query" then TextEntry(f.query)
    else if key == "ingredients" then ListEntry(f.ingredients)
    else if key == "cuisine" then TextEntry(f.cuisine)
    else if key == "dietaryTags" then ListEntry(f.dietaryTags)
    else if key == "cookTime" then TextEntry(f.cookTime)
    else if key == "difficulty" then TextEntry(f.difficulty)
    else if key == "page" then page
    else None
  }

  /** Only the `page` key depends on what a builder does with the page. */
  lemma KeyValueIgnoresPage(f: Filters, p1: Option<string>, p2: Option<string>, key: string)
    requires key != "page"
    ensures KeyValue(f, p1, key) == KeyValue(f, p2, key)
  {
  }

  /** The keys both builders consider, in the order they append them. */
  const Keys: seq<string> := ["query", "ingredients", "cuisine", "dietaryTags", "cookTime", "difficulty", "page"]

  /** The position of a key in Keys (7 for any other key). */
  function Rank(key: string): (r: nat)
    ensures r <= |Keys|
    ensures r < |Keys| ==> Keys[r] == key
  {
    if key == "query" then 0
    else if key == "ingredients" then 1
    else if key == "cuisine" then 2
    else if key == "dietaryTags" then 3
    else if key == "cookTime" then 4
    else if key == "difficulty" then 5
    else if key == "page" then 6
    else 7
  }

  /** Every entry comes strictly after the previous one in the order of Keys. */
  predicate Ordered(ps: Params)
  {
    forall i, j :: 0 <= i < j < |ps| ==> Rank(ps[i].0) < Rank(ps[j].0)
  }

  /** Every entry's key ranks at least `n`. */
  predicate RanksFrom(ps: Params, n: nat)
  {
    forall i :: 0 <= i < |ps| ==> n <= Rank(ps[i].0)
  }

  /** Emitting a key ahead of entries whose keys come later keeps the order. */
  lemma EmitOrdered(k: string, v: Option<string>, rest: Params)
    requires Ordered(rest) && RanksFrom(rest, Rank(k) + 1)
    ensures Ordered(Emit(k, v, rest)) && RanksFrom(Emit(k, v, rest), Rank(k))
  {
  }

  /** The entries of both builders follow the order of Keys, so no key is sent twice. */
  lemma EntriesOrdered(f: Filters, page: Option<string>)
    ensures Ordered(Entries(f, page))
  {
    var e6 := Emit("page", page, []);
    var e5 := Emit("difficulty", TextEntry(f.difficulty), e6);
    var e4 := Emit("cookTime", TextEntry(f.cookTime), e5);
    var e3 := Emit("dietaryTags", ListEntry(f.dietaryTags), e4);
    var e2 := Emit("cuisine", TextEntry(f.cuisine), e3);
    var e1 := Emit("ingredients", ListEntry(f.ingredients), e2);
    EmitOrdered("page", page, []);
    EmitOrdered("difficulty", TextEntry(f.difficulty), e6);
    EmitOrdered("cookTime", TextEntry(f.cookTime), e5);
    EmitOrdered("dietaryTags", ListEntry(f.dietaryTags), e4);
    EmitOrdered("cuisine", TextEntry(f.cuisine), e3);
    EmitOrdered("ingredients", ListEntry(f.ingredients), e2);
    EmitOrdered("query", TextEntry(f.query), e1);
  }

  /** Both builders: `params.append(k, v)` in `fetchRecipes`, `paramsObj.k = v` in the URL
   * sync of the search page, one conditional write per key in the order of Keys. */
  method BuildEntries(f: Filters, page: Option<string>) returns (ps: Params)
    ensures ps == Entries(f, page)
  {
    ghost var e6 := Emit("page", page, []);
    ghost var e5 := Emit("difficulty", TextEntry(f.difficulty), e6);
    ghost var e4 := Emit("cookTime", TextEntry(f.cookTime), e5);
    ghost var e3 := Emit("dietaryTags", ListEntry(f.dietaryTags), e4);
    ghost var e2 := Emit("cuisine", TextEntry(f.cuisine), e3);
    ghost var e1 := Emit("ingredients", ListEntry(f.ingredients), e2);
    ghost var target := Emit("query", TextEntry(f.query), e1);
    assert [] + target == target;
    ps := [];
    if f.query != "" {
      ps := ps + [("query", f.query)];
    }
    AppendThenEmit([], ps, "query", TextEntry(f.query), e1, target);
    ghost var p1 := ps;
    if |f.ingredients| > 0 {
      ps := ps + [("ingredients", Join(f.ingredients, ","))];
    }
    AppendThenEmit(p1, ps, "ingredients", ListEntry(f.ingredients), e2, target);
    ghost var p2 := ps;
    if f.cuisine != "" {
      ps := ps + [("cuisine", f.cuisine)];
    }
    AppendThenEmit(p2, ps, "cuisine", TextEntry(f.cuisine), e3, target);
    ghost var p3 := ps;
    if |f.dietaryTags| > 0 {
      ps := ps + [("dietaryTags", Join(f.dietaryTags, ","))];
    }
    AppendThenEmit(p3, ps, "dietaryTags", ListEntry(f.dietaryTags), e4, target);
    ghost var p4 := ps;
    if f.cookTime != "" {
      ps := ps + [("cookTime", f.cookTime)];
    }
    AppendThenEmit(p4, ps, "cookTime", TextEntry(f.cookTime), e5, target);
    ghost var p5 := ps;
    if f.difficulty != "" {
      ps := ps + [("difficulty", f.difficulty)];
    }
    AppendThenEmit(p5, ps, "difficulty", TextEntry(f.difficulty), e6, target);
    ghost var p6 := ps;
    if page.Some? {
      ps := ps + [("page", page.value)];
    }
    AppendThenEmit(p6, ps, "page", page, [], target);
    assert ps + [] == ps;
  }

  /** Appending a present entry now is emitting it ahead of what is appended later. */
  lemma AppendThenEmit(ps: Params, next: Params, k: string, v: Option<string>, rest: Params, target: Params)
    requires ps + Emit(k, v, rest) == target
    requires next == if v.Some? then ps + [(k, v.value)] else ps
    ensures next + rest == target
  {
  }
}
