/**
 * The free-text list input shared by the add-recipe form (allergens) and the
 * profile form (allergies): the field shows `list.join(', ')` and every edit
 * stores `text.split(',').map((a) => a.trim()).filter(Boolean)`.
 */
module CommaList {
  import opened Text
  import Lists

  /** `parts.map((a) => a.trim())`. */
  function TrimAll(parts: seq<string>): (r: seq<string>)
    ensures |r| == |parts|
    ensures forall k :: 0 <= k < |r| ==> r[k] == Trim(parts[k])
  {
    seq(|parts|, k requires 0 <= k < |parts| => Trim(parts[k]))
  }

  /** What the list field stores after an edit that leaves `text` in the input. */
  function Parse(text: string): (r: seq<string>)
    ensures forall k :: 0 <= k < |r| ==> IsEntry(r[k])
  {
    var parts := Split(text, ",");
    TrimmedPartsCommaFree(parts);
    DropBlanksLeavesEntries(TrimAll(parts));
    Lists.RemoveAll(TrimAll(parts), "")
  }

  /** Trimming the pieces of a split on ',' leaves trimmed, comma-free pieces. */
  lemma TrimmedPartsCommaFree(parts: seq<string>)
    requires forall k :: 0 <= k < |parts| ==> !Contains(parts[k], ",")
    ensures forall k :: 0 <= k < |TrimAll(parts)| ==> IsTrimmed(TrimAll(parts)[k]) && ',' !in TrimAll(parts)[k]
  {
    forall k | 0 <= k < |parts| ensures ',' !in Trim(parts[k]) {
      NoCommaInPart(parts[k]);
    }
  }

  /** `filter(Boolean)` on trimmed comma-free pieces leaves only entries. */
  lemma {:induction false} DropBlanksLeavesEntries(xs: seq<string>)
    requires forall k :: 0 <= k < |xs| ==> IsTrimmed(xs[k]) && ',' !in xs[k]
    ensures forall k :: 0 <= k < |Lists.RemoveAll(xs, "")| ==> IsEntry(Lists.RemoveAll(xs, "")[k])
    decreases |xs|
  {
    if xs != [] {
      DropBlanksLeavesEntries(xs[1..]);
    }
  }

  lemma NoCommaInPart(part: string)
    requires !Contains(part, ",")
    ensures ',' !in part
  {
    if ',' in part {
      var j :| 0 <= j < |part| && part[j] == ',';
      OccursAtChar(part, ',', j);
      assert false;
    }
  }

  /** What the field shows for a stored list. */
  function Display(items: seq<string>): (r: string)
    ensures items == [] ==> r == ""
    ensures |items| >= 1 ==> StartsWith(r, items[0])
  {
    Join(items, ", ")
  }

  /** Entries the parser can produce: non-empty, trimmed and free of commas. */
  predicate IsEntry(s: string)
  {
    s != "" && IsTrimmed(s) && ',' !in s
  }

  /** `items.map((a) => ' ' + a)`. */
  function Indent(items: seq<string>): (r: seq<string>)
    ensures |r| == |items|
    ensures forall k :: 0 <= k < |r| ==> r[k] == " " + items[k]
  {
    seq(|items|, k requires 0 <= k < |items| => " " + items[k])
  }

  /** Joining with ", " is joining the entries, every one but the first indented by a space, with ",". */
  lemma {:induction false} JoinCommaSpace(items: seq<string>)
    requires |items| >= 1
    ensures Join(items, ", ") == Join([items[0]] + Indent(items[1..]), ",")
    decreases |items|
  {
    if |items| > 1 {
      var rest := items[1..];
      JoinCommaSpace(rest);
      IndentedJoin(rest);
      var xs := [items[0]] + Indent(rest);
      assert xs[1..] == Indent(rest);
    }
  }

  lemma {:induction false} IndentedJoin(items: seq<string>)
    requires |items| >= 1
    ensures Join(Indent(items), ",") == " " + Join(items, ", ")
    decreases |items|
  {
    if |items| > 1 {
      var rest := items[1..];
      IndentedJoin(rest);
      assert Indent(items)[1..] == Indent(rest);
      assert Join(Indent(items), ",") == (" " + items[0]) + "," + (" " + Join(rest, ", "));
    }
  }

  /** Showing a list of parser-shaped entries and reading the field back gives the same list. */
  lemma ParseDisplay(items: seq<string>)
    requires forall k :: 0 <= k < |items| ==> IsEntry(items[k])
    ensures Parse(Display(items)) == items
  {
    if items == [] {
      ParseEmpty();
    } else {
      ParseDisplayNonEmpty(items);
    }
  }

  /** An empty field stores the empty list. */
  lemma ParseEmpty()
    ensures Parse("") == []
  {
    assert Split("", ",") == [""];
    assert TrimAll([""]) == [""];
  }

  lemma ParseDisplayNonEmpty(items: seq<string>)
    requires |items| >= 1
    requires forall k :: 0 <= k < |items| ==> IsEntry(items[k])
    ensures Parse(Display(items)) == items
  {
    SplitDisplay(items);
    TrimIndented(items);
    Lists.RemoveAllAbsent(items, "");
  }

  /** The pieces of a shown list: the first entry, then every other entry behind its space. */
  lemma SplitDisplay(items: seq<string>)
    requires |items| >= 1
    requires forall k :: 0 <= k < |items| ==> IsEntry(items[k])
    ensures Split(Display(items), ",") == [items[0]] + Indent(items[1..])
  {
    var parts := [items[0]] + Indent(items[1..]);
    JoinCommaSpace(items);
    forall k | 0 <= k < |parts| ensures ',' !in parts[k] {
      if k > 0 {
        assert parts[k] == " " + items[k];
      }
    }
    SplitJoinChar(parts, ',');
  }

  /** Trimming those pieces gives the entries back. */
  lemma TrimIndented(items: seq<string>)
    requires |items| >= 1
    requires forall k :: 0 <= k < |items| ==> IsEntry(items[k])
    ensures TrimAll([items[0]] + Indent(items[1..])) == items
  {
    var r := TrimAll([items[0]] + Indent(items[1..]));
    TrimIndentedAt(items, r);
    assert r == items;
  }

  /** Position by position, the trimmed pieces are the entries. */
  lemma TrimIndentedAt(items: seq<string>, r: seq<string>)
    requires |items| >= 1
    requires forall k :: 0 <= k < |items| ==> IsEntry(items[k])
    requires r == TrimAll([items[0]] + Indent(items[1..]))
    ensures |r| == |items|
    ensures forall k :: 0 <= k < |items| ==> r[k] == items[k]
  {
    forall k | 0 <= k < |items| ensures r[k] == items[k] {
      TrimPiece(items, k);
    }
  }

  /** The piece at position `k` trims back to entry `k`. */
  lemma TrimPiece(items: seq<string>, k: nat)
    requires k < |items| && IsEntry(items[k])
    ensures Trim(([items[0]] + Indent(items[1..]))[k]) == items[k]
  {
    if k == 0 {
      TrimOfTrimmed(items[0]);
    } else {
      assert ([items[0]] + Indent(items[1..]))[k] == Indent(items[1..])[k - 1] == " " + items[k];
      TrimIndentedEntry(items[k]);
    }
  }

  /** An entry behind its space trims back to itself. */
  lemma TrimIndentedEntry(x: string)
    requires IsEntry(x)
    ensures Trim(" " + x) == x
  {
    assert AllSpace(" ") by { assert IsSpace(" "[0]); }
    TrimDropsLeadingSpace(" ", x);
    TrimOfTrimmed(x);
  }
}
