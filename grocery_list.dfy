/**
 * The weekly grocery list page: grouping the items by store, and the PDF export,
 * reduced to the lines it draws, where, and on which page.
 */
module GroceryList {
  import opened Options

  /** A grocery item as the list endpoint returns it; `unit` and `store` may be missing or empty. */
  datatype GroceryItem = GroceryItem(name: string, quantity: string, unit: Option<string>, store: Option<string>)

  /** `item.store || 'Others'`. */
  function StoreKey(item: GroceryItem): (r: string)
    ensures r != ""
    ensures item.store.Some? && item.store.value != "" ==> r == item.store.value
    ensures item.store.None? || item.store.value == "" ==> r == "Others"
  {
    if item.store.Some? && item.store.value != "" then item.store.value else "Others"
  }

  /** The stores in the order the `reduce` first meets them: the key order of the accumulator. */
  function StoreOrder(items: seq<GroceryItem>): (r: seq<string>)
    ensures items == [] ==> r == []
    decreases |items|
  {
    if items == [] then []
    else
      var prev := StoreOrder(items[..|items| - 1]);
      var k := StoreKey(items[|items| - 1]);
      if k in prev then prev else prev + [k]
  }

  /** The items of one store, in list order: what `acc[store]` ends up holding. */
  function ItemsOf(items: seq<GroceryItem>, store: string): (r: seq<GroceryItem>)
    ensures items == [] ==> r == []
    decreases |items|
  {
    if items == [] then []
    else
      var last := items[|items| - 1];
      ItemsOf(items[..|items| - 1], store) + if StoreKey(last) == store then [last] else []
  }

  /** One entry of `Object.entries(groupedItems)`. */
  datatype Group = Group(store: string, items: seq<GroceryItem>)

  /** `groupedItems` as its entries, in key order. */
  function Grouped(items: seq<GroceryItem>): (r: seq<Group>)
    ensures |r| == |StoreOrder(items)|
    ensures forall g :: 0 <= g < |r| ==> r[g] == Group(StoreOrder(items)[g], ItemsOf(items, StoreOrder(items)[g]))
  {
    var keys := StoreOrder(items);
    seq(|keys|, g requires 0 <= g < |keys| => Group(keys[g], ItemsOf(items, keys[g])))
  }

  /** The `reduce` that groups the items: one accumulator list per store, pushed to in list order. */
  method GroupByStore(items: seq<GroceryItem>) returns (groups: seq<Group>)
    ensures groups == Grouped(items)
  {
    var keys: seq<string> := [];
    var acc: map<string, seq<GroceryItem>> := map[];
    var i := 0;
    while i < |items|
      invariant 0 <= i <= |items|
      invariant keys == StoreOrder(items[..i])
      invariant forall k :: k in acc <==> k in keys
      invariant forall k :: k in acc ==> acc[k] == ItemsOf(items[..i], k)
    {
      var item := items[i];
      var store := StoreKey(item);
      assert items[..i + 1][..i] == items[..i];
      if store !in acc {
        NoItemsOfUnseenStore(items[..i], store);
        acc := acc[store := []];
        keys := keys + [store];
      }
      acc := acc[store := acc[store] + [item]];
      i := i + 1;
    }
    assert items[..i] == items;
    groups := seq(|keys|, g requires 0 <= g < |keys| => Group(keys[g], acc[keys[g]]));
  }

  /** A store that no item maps to has no items. */
  lemma {:induction false} NoItemsOfUnseenStore(items: seq<GroceryItem>, store: string)
    requires store !in StoreOrder(items)
    ensures ItemsOf(items, store) == []
    decreases |items|
  {
    if items != [] {
      var prev := items[..|items| - 1];
      StoreOrderGrows(prev, items[|items| - 1]);
      NoItemsOfUnseenStore(prev, store);
    }
  }

  /** The key order only ever grows at the end. */
  lemma StoreOrderGrows(items: seq<GroceryItem>, x: GroceryItem)
    ensures var prev, next := StoreOrder(items), StoreOrder(items + [x]);
      next == if StoreKey(x) in prev then prev else prev + [StoreKey(x)]
  {
    assert (items + [x])[..|items|] == items;
  }

  /** The stores are the keys of the items, each once. */
  lemma {:induction false} StoreOrderIsKeys(items: seq<GroceryItem>)
    ensures forall k :: k in StoreOrder(items) <==> exists i :: 0 <= i < |items| && StoreKey(items[i]) == k
    ensures forall a, b :: 0 <= a < b < |StoreOrder(items)| ==> StoreOrder(items)[a] != StoreOrder(items)[b]
    decreases |items|
  {
    if items != [] {
      var prev := items[..|items| - 1];
      var x := items[|items| - 1];
      StoreOrderIsKeys(prev);
      assert items == prev + [x];
      StoreOrderGrows(prev, x);
      forall k ensures k in StoreOrder(items) <==> exists i :: 0 <= i < |items| && StoreKey(items[i]) == k {
        if k in StoreOrder(prev) {
          var i :| 0 <= i < |prev| && StoreKey(prev[i]) == k;
          assert StoreKey(items[i]) == k;
        }
        if exists i :: 0 <= i < |items| && StoreKey(items[i]) == k {
          var i :| 0 <= i < |items| && StoreKey(items[i]) == k;
          if i < |prev| {
            assert StoreKey(prev[i]) == k;
          }
        }
      }
    }
  }

  /** An item belongs to the group of its own store and to no other. */
  lemma {:induction false} ItemsOfBelong(items: seq<GroceryItem>, store: string)
    ensures forall x :: x in ItemsOf(items, store) <==> x in items && StoreKey(x) == store
    decreases |items|
  {
    if items != [] {
      var prev := items[..|items| - 1];
      ItemsOfBelong(prev, store);
      assert items == prev + [items[|items| - 1]];
    }
  }

  /** Grouping splits over concatenation, so every group keeps the list's order. */
  lemma {:induction false} ItemsOfAppend(a: seq<GroceryItem>, b: seq<GroceryItem>, store: string)
    ensures ItemsOf(a + b, store) == ItemsOf(a, store) + ItemsOf(b, store)
    decreases |b|
  {
    if b == [] {
      assert a + b == a;
    } else {
      var b' := b[..|b| - 1];
      ItemsOfAppend(a, b', store);
      assert (a + b)[..|a + b| - 1] == a + b';
      assert (a + b)[|a + b| - 1] == b[|b| - 1];
    }
  }

  /** The number of items over a run of groups. */
  function Count(groups: seq<Group>): nat
  {
    if groups == [] then 0 else Count(groups[..|groups| - 1]) + |groups[|groups| - 1].items|
  }

  /** The sizes of the groups of a list, store by store. */
  function Sizes(items: seq<GroceryItem>, keys: seq<string>): nat
  {
    if keys == [] then 0 else Sizes(items, keys[..|keys| - 1]) + |ItemsOf(items, keys[|keys| - 1])|
  }

  /** Adding an item of a store not in `keys` changes none of their sizes. */
  lemma {:induction false} SizesOther(items: seq<GroceryItem>, x: GroceryItem, keys: seq<string>)
    requires StoreKey(x) !in keys
    ensures Sizes(items + [x], keys) == Sizes(items, keys)
    decreases |keys|
  {
    if keys != [] {
      SizesOther(items, x, keys[..|keys| - 1]);
      assert (items + [x])[..|items|] == items;
    }
  }

  /** Adding an item of a store that occurs once in `keys` grows their sizes by one. */
  lemma {:induction false} SizesOwn(items: seq<GroceryItem>, x: GroceryItem, keys: seq<string>)
    requires StoreKey(x) in keys
    requires forall a, b :: 0 <= a < b < |keys| ==> keys[a] != keys[b]
    ensures Sizes(items + [x], keys) == Sizes(items, keys) + 1
    decreases |keys|
  {
    var init := keys[..|keys| - 1];
    assert (items + [x])[..|items|] == items;
    if keys[|keys| - 1] == StoreKey(x) {
      assert StoreKey(x) !in init by {
        forall a | 0 <= a < |init| ensures init[a] != StoreKey(x) {
          assert keys[a] != keys[|keys| - 1];
        }
      }
      SizesOther(items, x, init);
    } else {
      assert StoreKey(x) in init by {
        var a :| 0 <= a < |keys| && keys[a] == StoreKey(x);
        assert a < |keys| - 1;
        assert init[a] == keys[a];
      }
      SizesOwn(items, x, init);
    }
  }

  lemma {:induction false} SizesExtend(items: seq<GroceryItem>, keys: seq<string>, k: string)
    ensures Sizes(items, keys + [k]) == Sizes(items, keys) + |ItemsOf(items, k)|
  {
    assert (keys + [k])[..|keys|] == keys;
  }

  /** Grouping loses no item and invents none: the groups hold as many items as the list. */
  lemma {:induction false} GroupingKeepsCount(items: seq<GroceryItem>)
    ensures Sizes(items, StoreOrder(items)) == |items|
    decreases |items|
  {
    if items != [] {
      var prev := items[..|items| - 1];
      var x := items[|items| - 1];
      assert items == prev + [x];
      GroupingKeepsCount(prev);
      GroupingStep(prev, x);
    }
  }

  /** One more item adds one to the sizes of the groups. */
  lemma GroupingStep(prev: seq<GroceryItem>, x: GroceryItem)
    ensures Sizes(prev + [x], StoreOrder(prev + [x])) == Sizes(prev, StoreOrder(prev)) + 1
  {
    StoreOrderGrows(prev, x);
    var keys := StoreOrder(prev);
    if StoreKey(x) in keys {
      StoreOrderIsKeys(prev);
      SizesOwn(prev, x, keys);
    } else {
      SizesOther(prev, x, keys);
      SizesExtend(prev + [x], keys, StoreKey(x));
      NewStoreHoldsItem(prev, x);
    }
  }

  /** The first item of a store is alone in its group. */
  lemma NewStoreHoldsItem(prev: seq<GroceryItem>, x: GroceryItem)
    requires StoreKey(x) !in StoreOrder(prev)
    ensures ItemsOf(prev + [x], StoreKey(x)) == [x]
  {
    NoItemsOfUnseenStore(prev, StoreKey(x));
    assert (prev + [x])[..|prev|] == prev;
  }

  /** The entries of the grouping hold as many items as the list. */
  lemma {:induction false} GroupedCount(items: seq<GroceryItem>)
    ensures Count(Grouped(items)) == |items|
  {
    GroupingKeepsCount(items);
    CountIsSizes(items, StoreOrder(items));
  }

  lemma {:induction false} CountIsSizes(items: seq<GroceryItem>, keys: seq<string>)
    ensures Count(seq(|keys|, g requires 0 <= g < |keys| => Group(keys[g], ItemsOf(items, keys[g])))) == Sizes(items, keys)
    decreases |keys|
  {
    if keys != [] {
      var init := keys[..|keys| - 1];
      CountIsSizes(items, init);
      var gs := seq(|keys|, g requires 0 <= g < |keys| => Group(keys[g], ItemsOf(items, keys[g])));
      assert gs[..|gs| - 1] == seq(|init|, g requires 0 <= g < |init| => Group(init[g], ItemsOf(items, init[g])));
    }
  }

  // ---------------------------------------------------------------------------
  // PDF export

  /** `- ${item.name} (${item.quantity} ${item.unit || ''})`. */
  function ItemText(item: GroceryItem): (r: string)
    ensures |r| > 2 + |item.name| && r[..2 + |item.name|] == "- " + item.name
    ensures r[|r| - 1] == ')'
  {
    "- " + item.name + " (" + item.quantity + " " + item.unit.GetOr("") + ")"
  }

  /** What the export loop does next: draw one line at column `x`, or move the cursor down. */
  datatype Step = Line(text: string, x: int, bold: bool) | Gap(dy: int)

  /** A line on the document: its text, column, baseline, page (0 for the first) and weight. */
  datatype Drawn = Drawn(text: string, x: int, y: int, page: nat, bold: bool)

  /** The cursor of the export: `y` and the page being drawn on. */
  datatype Cursor = Cursor(y: int, page: nat)

  const Top := 20
  const Bottom := 270
  const LineHeight := 6
  const GroupGap := 4
  const Start := Cursor(40, 0)

  /** `if (y > 270) { doc.addPage(); y = 20; }`. */
  function Break(c: Cursor): (r: Cursor)
    ensures c.y > Bottom ==> r == Cursor(Top, c.page + 1)
    ensures c.y <= Bottom ==> r == c
  {
    if c.y > Bottom then Cursor(Top, c.page + 1) else c
  }

  /** The lines a run of steps draws from a cursor, and where the cursor ends. */
  function Layout(steps: seq<Step>, c: Cursor): (r: (seq<Drawn>, Cursor))
    ensures |r.0| <= |steps|
    ensures r.1.page >= c.page
    decreases |steps|
  {
    if steps == [] then ([], c)
    else match steps[0]
      case Line(t, x, b) =>
        var at := Break(c);
        var rest := Layout(steps[1..], Cursor(at.y + LineHeight, at.page));
        ([Drawn(t, x, at.y, at.page, b)] + rest.0, rest.1)
      case Gap(dy) => Layout(steps[1..], Cursor(c.y + dy, c.page))
  }

  /** Laying out two runs one after the other is laying out their concatenation. */
  lemma {:induction false} LayoutAppend(a: seq<Step>, b: seq<Step>, c: Cursor)
    ensures var first := Layout(a, c); var second := Layout(b, first.1);
      Layout(a + b, c) == (first.0 + second.0, second.1)
    decreases |a|
  {
    if a == [] {
      assert a + b == b;
      assert [] + Layout(b, c).0 == Layout(b, c).0;
    } else {
      assert (a + b)[0] == a[0];
      assert (a + b)[1..] == a[1..] + b;
      match a[0]
      case Line(t, x, bo) =>
        var at := Break(c);
        var next := Cursor(at.y + LineHeight, at.page);
        LayoutAppend(a[1..], b, next);
        var rest := Layout(a[1..], next);
        assert Layout(a, c) == ([Drawn(t, x, at.y, at.page, bo)] + rest.0, rest.1);
        var tail := Layout(a[1..] + b, next);
        assert Layout(a + b, c) == ([Drawn(t, x, at.y, at.page, bo)] + tail.0, tail.1);
        var second := Layout(b, rest.1);
        assert [Drawn(t, x, at.y, at.page, bo)] + (rest.0 + second.0) == [Drawn(t, x, at.y, at.page, bo)] + rest.0 + second.0;
      case Gap(dy) =>
        LayoutAppend(a[1..], b, Cursor(c.y + dy, c.page));
    }
  }

  /** The steps only move the cursor down. */
  predicate Downward(steps: seq<Step>)
  {
    forall i :: 0 <= i < |steps| ==> steps[i].Gap? ==> steps[i].dy >= 0
  }

  /**
   * Every line is drawn between the top and bottom margins, and the cursor never
   * goes above the top, whatever the steps, as long as it starts below the top.
   */
  lemma {:induction false} LayoutInMargins(steps: seq<Step>, c: Cursor)
    requires c.y >= Top && Downward(steps)
    ensures var r := Layout(steps, c);
      r.1.y >= Top && r.1.page >= c.page &&
      forall i :: 0 <= i < |r.0| ==> Top <= r.0[i].y <= Bottom && r.0[i].page >= c.page
    decreases |steps|
  {
    if steps != [] {
      match steps[0]
      case Line(t, x, b) =>
        var at := Break(c);
        LayoutInMargins(steps[1..], Cursor(at.y + LineHeight, at.page));
      case Gap(dy) =>
        LayoutInMargins(steps[1..], Cursor(c.y + dy, c.page));
    }
  }

  /** Two successive lines: 6 further down the same page, or at the top of the next page when 6 more would pass the bottom. */
  predicate Spaced(a: Drawn, b: Drawn)
  {
    if a.y + LineHeight > Bottom then b.y == Top && b.page == a.page + 1
    else b.y == a.y + LineHeight && b.page == a.page
  }

  /** Where the first line of a run is drawn: at the cursor, or at the top of a new page. */
  lemma FirstLine(steps: seq<Step>, c: Cursor)
    requires steps != [] && steps[0].Line?
    ensures var d := Layout(steps, c).0; d != [] && d[0].y == Break(c).y && d[0].page == Break(c).page
  {
  }

  /** In a run of lines with no gaps, each line advances the cursor by exactly one line height. */
  lemma {:induction false} LinesAreSpaced(steps: seq<Step>, c: Cursor)
    requires forall i :: 0 <= i < |steps| ==> steps[i].Line?
    ensures var d := Layout(steps, c).0; forall i :: 0 <= i < |d| - 1 ==> Spaced(d[i], d[i + 1])
    decreases |steps|
  {
    if steps != [] {
      var at := Break(c);
      var next := Cursor(at.y + LineHeight, at.page);
      LinesAreSpaced(steps[1..], next);
      var rest := Layout(steps[1..], next).0;
      var d := Layout(steps, c).0;
      assert d == [Drawn(steps[0].text, steps[0].x, at.y, at.page, steps[0].bold)] + rest;
      if steps[1..] != [] {
        FirstLine(steps[1..], next);
      }
      forall i | 0 <= i < |d| - 1 ensures Spaced(d[i], d[i + 1]) {
        if i > 0 {
          assert d[i] == rest[i - 1] && d[i + 1] == rest[i];
        }
      }
    }
  }

  /** The flat export puts successive items one line height apart, breaking pages as needed. */
  lemma FlatExportSpacing(items: seq<GroceryItem>)
    ensures var d := Layout(FlatSteps(items), Start).0; forall i :: 0 <= i < |d| - 1 ==> Spaced(d[i], d[i + 1])
  {
    LinesAreSpaced(FlatSteps(items), Start);
  }

  /** The text, column and weight of every Line step, in order. */
  function Lines(steps: seq<Step>): seq<(string, int, bool)>
    decreases |steps|
  {
    if steps == [] then []
    else match steps[0]
      case Line(t, x, b) => [(t, x, b)] + Lines(steps[1..])
      case Gap(_) => Lines(steps[1..])
  }

  /** What the drawn lines say and where they start on the row. */
  function Ink(drawn: seq<Drawn>): (r: seq<(string, int, bool)>)
    ensures |r| == |drawn|
    ensures forall i :: 0 <= i < |drawn| ==> r[i] == (drawn[i].text, drawn[i].x, drawn[i].bold)
  {
    seq(|drawn|, i requires 0 <= i < |drawn| => (drawn[i].text, drawn[i].x, drawn[i].bold))
  }

  /** Every Line step is drawn exactly once, in order, with its text, column and weight. */
  lemma {:induction false} LayoutDrawsLines(steps: seq<Step>, c: Cursor)
    ensures Ink(Layout(steps, c).0) == Lines(steps)
    decreases |steps|
  {
    if steps != [] {
      match steps[0]
      case Line(t, x, b) =>
        var at := Break(c);
        var rest := Layout(steps[1..], Cursor(at.y + LineHeight, at.page));
        LayoutDrawsLines(steps[1..], Cursor(at.y + LineHeight, at.page));
        assert Ink([Drawn(t, x, at.y, at.page, b)] + rest.0) == [(t, x, b)] + Ink(rest.0);
      case Gap(dy) =>
        LayoutDrawsLines(steps[1..], Cursor(c.y + dy, c.page));
    }
  }

  /** One line per item at column `x`. */
  function ItemSteps(items: seq<GroceryItem>, x: int): (r: seq<Step>)
    ensures |r| == |items|
    ensures forall i :: 0 <= i < |items| ==> r[i] == Line(ItemText(items[i]), x, false)
  {
    seq(|items|, i requires 0 <= i < |items| => Line(ItemText(items[i]), x, false))
  }

  /** The flat export: one line per item at column 14. */
  function FlatSteps(items: seq<GroceryItem>): seq<Step>
  {
    ItemSteps(items, 14)
  }

  /** One store of the grouped export: its name in bold at column 14, its items at 18, then a gap. */
  function GroupSteps(g: Group): seq<Step>
  {
    [Line(g.store, 14, true)] + ItemSteps(g.items, 18) + [Gap(GroupGap)]
  }

  /** The grouped export, store after store. */
  function GroupedSteps(groups: seq<Group>): seq<Step>
    decreases |groups|
  {
    if groups == [] then [] else GroupedSteps(groups[..|groups| - 1]) + GroupSteps(groups[|groups| - 1])
  }

  lemma ItemStepsDownward(items: seq<GroceryItem>, x: int)
    ensures Downward(ItemSteps(items, x))
  {
  }

  lemma {:induction false} GroupedStepsDownward(groups: seq<Group>)
    ensures Downward(GroupedSteps(groups))
    decreases |groups|
  {
    if groups != [] {
      GroupedStepsDownward(groups[..|groups| - 1]);
      var a, b := GroupedSteps(groups[..|groups| - 1]), GroupSteps(groups[|groups| - 1]);
      assert forall i :: 0 <= i < |a + b| ==> (a + b)[i] == if i < |a| then a[i] else b[i - |a|];
    }
  }

  lemma {:induction false} LinesOfItems(items: seq<GroceryItem>, x: int)
    ensures |Lines(ItemSteps(items, x))| == |items|
    ensures forall i :: 0 <= i < |items| ==> Lines(ItemSteps(items, x))[i] == (ItemText(items[i]), x, false)
    decreases |items|
  {
    if items != [] {
      LinesOfItems(items[1..], x);
      assert ItemSteps(items, x)[1..] == ItemSteps(items[1..], x);
    }
  }

  /** The flat export draws every item, in list order, at column 14, between the margins. */
  lemma FlatExportShape(items: seq<GroceryItem>)
    ensures var drawn := Layout(FlatSteps(items), Start).0;
      && |drawn| == |items|
      && (forall i :: 0 <= i < |items| ==> drawn[i].text == ItemText(items[i]) && drawn[i].x == 14 && !drawn[i].bold)
      && (forall i :: 0 <= i < |drawn| ==> Top <= drawn[i].y <= Bottom)
  {
    var drawn := Layout(FlatSteps(items), Start).0;
    LayoutDrawsLines(FlatSteps(items), Start);
    LinesOfItems(items, 14);
    assert |Ink(drawn)| == |items|;
    forall i | 0 <= i < |items| ensures drawn[i].text == ItemText(items[i]) && drawn[i].x == 14 && !drawn[i].bold {
      assert Ink(drawn)[i] == (ItemText(items[i]), 14, false);
    }
    ItemStepsDownward(items, 14);
    LayoutInMargins(FlatSteps(items), Start);
  }

  /**
   * Within one store's block, the name and the items are one line height apart
   * (breaking pages as needed), and the block ends 4 units below its last line.
   */
  lemma GroupSpacing(g: Group, c: Cursor)
    ensures var d := Layout(GroupSteps(g), c).0; forall i :: 0 <= i < |d| - 1 ==> Spaced(d[i], d[i + 1])
    ensures var lines := Layout([Line(g.store, 14, true)] + ItemSteps(g.items, 18), c).1;
      Layout(GroupSteps(g), c).1 == Cursor(lines.y + GroupGap, lines.page)
  {
    var body := [Line(g.store, 14, true)] + ItemSteps(g.items, 18);
    var lines := Layout(body, c);
    LayoutAppend(body, [Gap(GroupGap)], c);
    assert [Gap(GroupGap)][1..] == [];
    assert Layout([Gap(GroupGap)], lines.1) == ([], Cursor(lines.1.y + GroupGap, lines.1.page));
    assert lines.0 + [] == lines.0;
    assert forall i :: 0 <= i < |body| ==> body[i].Line?;
    LinesAreSpaced(body, c);
  }

  /** The grouped export draws every line between the margins. */
  lemma GroupedExportInMargins(groups: seq<Group>)
    ensures var drawn := Layout(GroupedSteps(groups), Start).0;
      forall i :: 0 <= i < |drawn| ==> Top <= drawn[i].y <= Bottom
  {
    GroupedStepsDownward(groups);
    LayoutInMargins(GroupedSteps(groups), Start);
  }

  /** What one store's block says: its name in bold at column 14, then each of its items at column 18. */
  function GroupInk(g: Group): seq<(string, int, bool)>
  {
    [(g.store, 14, true)] + ItemInk(g.items, 18)
  }

  /** What the lines of some items say: each item's text at column `x`, in normal weight. */
  function ItemInk(items: seq<GroceryItem>, x: int): seq<(string, int, bool)>
  {
    seq(|items|, i requires 0 <= i < |items| => (ItemText(items[i]), x, false))
  }

  /** What the grouped export says, block after block. */
  function GroupedInk(groups: seq<Group>): seq<(string, int, bool)>
    decreases |groups|
  {
    if groups == [] then [] else GroupedInk(groups[..|groups| - 1]) + GroupInk(groups[|groups| - 1])
  }

  lemma {:induction false} LinesAppend(a: seq<Step>, b: seq<Step>)
    ensures Lines(a + b) == Lines(a) + Lines(b)
    decreases |a|
  {
    if a == [] {
      assert a + b == b;
    } else {
      assert (a + b)[0] == a[0];
      assert (a + b)[1..] == a[1..] + b;
      LinesAppend(a[1..], b);
    }
  }

  /** One store's block draws its name and then its items. */
  lemma GroupLines(g: Group)
    ensures Lines(GroupSteps(g)) == GroupInk(g)
  {
    var head := [Line(g.store, 14, true)];
    var items := ItemSteps(g.items, 18);
    LinesAppend(head, items);
    LinesAppend(head + items, [Gap(GroupGap)]);
    assert head[1..] == [];
    assert [Gap(GroupGap)][1..] == [];
    LinesOfItems(g.items, 18);
    assert Lines(items) == ItemInk(g.items, 18);
    assert Lines(head + items) + [] == Lines(head + items);
  }

  /** The grouped steps draw the blocks in order: one name per store and one line per item. */
  lemma {:induction false} GroupedLines(groups: seq<Group>)
    ensures Lines(GroupedSteps(groups)) == GroupedInk(groups)
    ensures |GroupedInk(groups)| == |groups| + Count(groups)
    decreases |groups|
  {
    if groups != [] {
      var init, last := groups[..|groups| - 1], groups[|groups| - 1];
      GroupedLines(init);
      LinesAppend(GroupedSteps(init), GroupSteps(last));
      GroupLines(last);
    }
  }

  /**
   * The grouped export of a list: each store's name in bold at column 14 with
   * its items at column 18 after it, as many lines as stores plus items, all
   * between the margins.
   */
  lemma GroupedExportShape(items: seq<GroceryItem>)
    ensures var groups := Grouped(items);
      var drawn := Layout(GroupedSteps(groups), Start).0;
      && Ink(drawn) == GroupedInk(groups)
      && |drawn| == |groups| + |items|
      && (forall i :: 0 <= i < |drawn| ==> Top <= drawn[i].y <= Bottom)
  {
    var groups := Grouped(items);
    LayoutDrawsLines(GroupedSteps(groups), Start);
    GroupedLines(groups);
    GroupedCount(items);
    GroupedExportInMargins(groups);
  }

  /** The heading lines drawn before the list, at fixed places on the first page. */
  function Heading(weekLabel: string): seq<Drawn>
  {
    [Drawn("NutriPlan Grocery List", 14, 20, 0, false), Drawn("Week of " + weekLabel, 14, 30, 0, false)]
  }

  /** Drawing one line where the cursor is, breaking the page first when it is past the bottom. */
  method DrawLine(c: Cursor, text: string, x: int, bold: bool) returns (d: Drawn, next: Cursor)
    ensures ([d], next) == Layout([Line(text, x, bold)], c)
  {
    var y, page := c.y, c.page;
    if y > Bottom {
      page := page + 1;
      y := Top;
    }
    d := Drawn(text, x, y, page, bold);
    y := y + LineHeight;
    next := Cursor(y, page);
    assert [Line(text, x, bold)][1..] == [];
    assert [d] + [] == [d];
  }

  /** Drawing more after a laid-out run extends its layout by what is drawn. */
  lemma DrawAfter(prefix: seq<Step>, more: seq<Step>, start: Cursor, ds: seq<Drawn>, next: Cursor)
    requires (ds, next) == Layout(more, Layout(prefix, start).1)
    ensures Layout(prefix + more, start) == (Layout(prefix, start).0 + ds, next)
  {
    LayoutAppend(prefix, more, start);
  }

  /**
   * `exportToPDF` with grouping off. `weekLabel` is the formatted week start,
   * which the model takes as given.
   */
  method ExportFlat(items: seq<GroceryItem>, weekLabel: string) returns (drawn: seq<Drawn>)
    ensures drawn == Heading(weekLabel) + Layout(FlatSteps(items), Start).0
  {
    drawn := Heading(weekLabel);
    var c := Start;
    var i := 0;
    assert FlatSteps(items[..0]) == [];
    while i < |items|
      invariant 0 <= i <= |items|
      invariant drawn == Heading(weekLabel) + Layout(FlatSteps(items[..i]), Start).0
      invariant c == Layout(FlatSteps(items[..i]), Start).1
    {
      ghost var done := FlatSteps(items[..i]);
      var d;
      d, c := DrawLine(c, ItemText(items[i]), 14, false);
      DrawAfter(done, [Line(ItemText(items[i]), 14, false)], Start, [d], c);
      assert FlatSteps(items[..i + 1]) == done + [Line(ItemText(items[i]), 14, false)];
      assert drawn + [d] == Heading(weekLabel) + (Layout(done, Start).0 + [d]);
      drawn := drawn + [d];
      i := i + 1;
    }
    assert items[..i] == items;
  }

  /** One store of the grouped export, from wherever the cursor is. */
  method DrawGroup(start: Cursor, group: Group) returns (ds: seq<Drawn>, c: Cursor)
    ensures (ds, c) == Layout(GroupSteps(group), start)
  {
    var d;
    d, c := DrawLine(start, group.store, 14, true);
    ds := [d];
    ghost var head := [Line(group.store, 14, true)];
    assert head + ItemSteps(group.items[..0], 18) == head;
    var j := 0;
    while j < |group.items|
      invariant 0 <= j <= |group.items|
      invariant (ds, c) == Layout(head + ItemSteps(group.items[..j], 18), start)
    {
      ghost var prefix := head + ItemSteps(group.items[..j], 18);
      var item := group.items[j];
      d, c := DrawLine(c, ItemText(item), 18, false);
      DrawAfter(prefix, [Line(ItemText(item), 18, false)], start, [d], c);
      assert head + ItemSteps(group.items[..j + 1], 18) == prefix + [Line(ItemText(item), 18, false)];
      ds := ds + [d];
      j := j + 1;
    }
    assert group.items[..j] == group.items;
    ghost var body := head + ItemSteps(group.items, 18);
    DrawAfter(body, [Gap(GroupGap)], start, [], Cursor(c.y + GroupGap, c.page));
    assert ds + [] == ds;
    c := Cursor(c.y + GroupGap, c.page);
  }

  /**
   * `exportToPDF` with grouping on: for each store its bold name at column 14,
   * its items at column 18, then 4 more units of space.
   */
  method ExportGrouped(groups: seq<Group>, weekLabel: string) returns (drawn: seq<Drawn>)
    ensures drawn == Heading(weekLabel) + Layout(GroupedSteps(groups), Start).0
  {
    drawn := Heading(weekLabel);
    var c := Start;
    var g := 0;
    assert GroupedSteps(groups[..0]) == [];
    while g < |groups|
      invariant 0 <= g <= |groups|
      invariant drawn == Heading(weekLabel) + Layout(GroupedSteps(groups[..g]), Start).0
      invariant c == Layout(GroupedSteps(groups[..g]), Start).1
    {
      ghost var done := GroupedSteps(groups[..g]);
      var ds;
      ds, c := DrawGroup(c, groups[g]);
      DrawAfter(done, GroupSteps(groups[g]), Start, ds, c);
      assert groups[..g + 1][..g] == groups[..g];
      assert GroupedSteps(groups[..g + 1]) == done + GroupSteps(groups[g]);
      assert drawn + ds == Heading(weekLabel) + (Layout(done, Start).0 + ds);
      drawn := drawn + ds;
      g := g + 1;
    }
    assert groups[..g] == groups;
  }
}
