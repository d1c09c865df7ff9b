/**
 * Stable sorting by a comparison, as `Array.prototype.sort` with a comparator and Python's
 * `sorted` perform it: insertion of each element after every element it does not precede.
 */
module Sorting {

  /** `le` orders all values: any two are comparable, and the order is transitive. */
  ghost predicate TotalPreorder<T(!new)>(le: (T, T) -> bool) {
    (forall a, b :: le(a, b) || le(b, a))
    && (forall a, b, c :: le(a, b) && le(b, c) ==> le(a, c))
  }

  predicate SortedBy<T>(xs: seq<T>, le: (T, T) -> bool) {
    forall i, j :: 0 <= i < j < |xs| ==> le(xs[i], xs[j])
  }

  /** Inserts `x` into `ys` just before the first element that `x` strictly precedes. */
  function Insert<T>(ys: seq<T>, x: T, le: (T, T) -> bool): (r: seq<T>)
    ensures multiset(r) == multiset(ys) + multiset{x}
    decreases |ys|
  {
    if |ys| == 0 then [x]
    else if !le(ys[0], x) then [x] + ys
    else
      assert ys == [ys[0]] + ys[1..];
      [ys[0]] + Insert(ys[1..], x, le)
  }

  /** The elements of `xs` in order of `le`; elements that compare equal keep their order. */
  function SortBy<T>(xs: seq<T>, le: (T, T) -> bool): (r: seq<T>)
    ensures multiset(r) == multiset(xs)
    decreases |xs|
  {
    if |xs| == 0 then []
    else
      assert xs == xs[..|xs| - 1] + [xs[|xs| - 1]];
      Insert(SortBy(xs[..|xs| - 1], le), xs[|xs| - 1], le)
  }

  lemma {:induction false} InsertSorted<T(!new)>(ys: seq<T>, x: T, le: (T, T) -> bool)
    requires TotalPreorder(le) && SortedBy(ys, le)
    ensures SortedBy(Insert(ys, x, le), le)
    decreases |ys|
  {
    if |ys| > 0 && le(ys[0], x) {
      var rest := Insert(ys[1..], x, le);
      InsertSorted(ys[1..], x, le);
      var r := [ys[0]] + rest;
      forall j | 0 < j < |r|
        ensures le(r[0], r[j])
      {
        assert r[j] in multiset(rest);
        if r[j] != x {
          assert r[j] in multiset(ys[1..]);
          var k :| 0 <= k < |ys[1..]| && ys[1..][k] == r[j];
          assert ys[k + 1] == r[j];
        }
      }
    }
  }

  /** The result of `SortBy` is ordered by `le`. */
  lemma {:induction false} SortBySorted<T(!new)>(xs: seq<T>, le: (T, T) -> bool)
    requires TotalPreorder(le)
    ensures SortedBy(SortBy(xs, le), le)
    decreases |xs|
  {
    if |xs| > 0 {
      SortBySorted(xs[..|xs| - 1], le);
      InsertSorted(SortBy(xs[..|xs| - 1], le), xs[|xs| - 1], le);
    }
  }

  /** An element that every element of `ys` precedes goes to the end. */
  lemma {:induction false} InsertAfterAll<T>(ys: seq<T>, x: T, le: (T, T) -> bool)
    requires forall i :: 0 <= i < |ys| ==> le(ys[i], x)
    ensures Insert(ys, x, le) == ys + [x]
    decreases |ys|
  {
    if |ys| > 0 {
      InsertAfterAll(ys[1..], x, le);
      assert [ys[0]] + (ys[1..] + [x]) == ys + [x];
    }
  }

  /** Sorting input that is already in order changes nothing: the sort is stable on sorted input. */
  lemma {:induction false} SortBySortedInput<T>(xs: seq<T>, le: (T, T) -> bool)
    requires SortedBy(xs, le)
    ensures SortBy(xs, le) == xs
    decreases |xs|
  {
    if |xs| > 0 {
      var init := xs[..|xs| - 1];
      SortBySortedInput(init, le);
      InsertAfterAll(init, xs[|xs| - 1], le);
      assert init + [xs[|xs| - 1]] == xs;
    }
  }
}
