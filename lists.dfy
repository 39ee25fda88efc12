/** The array updates the forms perform with `filter`, `map` and spread. */
module Lists {

  /** Every value occurs at most once. */
  ghost predicate Distinct<T(!new)>(xs: seq<T>)
  {
    forall y :: multiset(xs)[y] <= 1
  }

  /** `xs.filter((y) => y !== x)`: every occurrence of `x` goes, everything else stays. */
  function RemoveAll<T(==,!new)>(xs: seq<T>, x: T): (r: seq<T>)
    ensures x !in r
    ensures multiset(r) == multiset(xs)[x := 0]
    ensures |r| <= |xs|
    decreases |xs|
  {
    if xs == [] then []
    else
      assert xs == [xs[0]] + xs[1..];
      (if xs[0] == x then [] else [xs[0]]) + RemoveAll(xs[1..], x)
  }

  /** Filtering distributes over concatenation, so the survivors keep their relative order. */
  lemma {:induction false} RemoveAllAppend<T(!new)>(a: seq<T>, b: seq<T>, x: T)
    ensures RemoveAll(a + b, x) == RemoveAll(a, x) + RemoveAll(b, x)
    decreases |a|
  {
    if a == [] {
      assert a + b == b;
    } else {
      assert (a + b)[0] == a[0];
      assert (a + b)[1..] == a[1..] + b;
      RemoveAllAppend(a[1..], b, x);
    }
  }

  /** Filtering out a value that is not there changes nothing. */
  lemma {:induction false} RemoveAllAbsent<T(!new)>(xs: seq<T>, x: T)
    requires x !in xs
    ensures RemoveAll(xs, x) == xs
    decreases |xs|
  {
    if xs != [] {
      assert xs == [xs[0]] + xs[1..];
      RemoveAllAbsent(xs[1..], x);
    }
  }

  /**
   * The checkbox toggle the forms share: `xs.includes(x) ? xs.filter((y) => y !== x) : [...xs, x]`.
   * Membership of `x` flips; membership of every other value stays.
   */
  function Toggle<T(==,!new)>(xs: seq<T>, x: T): (r: seq<T>)
    ensures x in xs ==> r == RemoveAll(xs, x)
    ensures x !in xs ==> r == xs + [x]
    ensures x in r <==> x !in xs
    ensures forall y :: y != x ==> (y in r <==> y in xs)
  {
    if x in xs then
      var r := RemoveAll(xs, x);
      assert forall y :: y != x ==> (y in r <==> y in xs) by {
        forall y | y != x ensures y in r <==> y in xs {
          assert multiset(r)[y] == multiset(xs)[y];
        }
      }
      r
    else xs + [x]
  }

  /** Toggling a value that is absent twice gives the original list back. */
  lemma ToggleTwice<T(!new)>(xs: seq<T>, x: T)
    requires x !in xs
    ensures Toggle(xs, x) == xs + [x]
    ensures Toggle(Toggle(xs, x), x) == xs
  {
    RemoveAllAppend(xs, [x], x);
    RemoveAllAbsent(xs, x);
    assert RemoveAll([x], x) == [];
  }

  /** Appending a value that is not there yet never introduces a duplicate. */
  lemma AppendFreshKeepsDistinct<T(!new)>(xs: seq<T>, x: T)
    requires Distinct(xs) && x !in xs
    ensures Distinct(xs + [x])
  {
    assert multiset(xs + [x]) == multiset(xs) + multiset{x};
  }

  /** Toggling never introduces a duplicate. */
  lemma ToggleKeepsDistinct<T(!new)>(xs: seq<T>, x: T)
    requires Distinct(xs)
    ensures Distinct(Toggle(xs, x))
  {
    if x !in xs {
      AppendFreshKeepsDistinct(xs, x);
    }
  }

  /** `xs.filter((_, j) => j !== i)`: position `i` goes when it exists, nothing else changes. */
  function RemoveAt<T>(xs: seq<T>, i: int): (r: seq<T>)
    ensures 0 <= i < |xs| ==> |r| == |xs| - 1 && r[..i] == xs[..i] && r[i..] == xs[i + 1..]
    ensures !(0 <= i < |xs|) ==> r == xs
    decreases |xs|
  {
    if xs == [] then []
    else if i == 0 then xs[1..]
    else [xs[0]] + RemoveAt(xs[1..], i - 1)
  }

  /** `xs.map((y, j) => j === i ? v : y)`: the built-in update where `i` is a position, no change otherwise. */
  function UpdateAt<T>(xs: seq<T>, i: int, v: T): (r: seq<T>)
    ensures |r| == |xs|
    ensures 0 <= i < |xs| ==> r == xs[i := v]
    ensures !(0 <= i < |xs|) ==> r == xs
  {
    seq(|xs|, j requires 0 <= j < |xs| => if j == i then v else xs[j])
  }
}
