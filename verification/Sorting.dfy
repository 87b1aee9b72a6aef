/** Stable sorting by an order and removal of adjacent repeats, as the standard library does them. */
module Sorting {

  ghost predicate TotalPreorder<T(!new)>(leq: (T, T) -> bool) {
    && (forall x, y :: leq(x, y) || leq(y, x))
    && (forall x, y, z :: leq(x, y) && leq(y, z) ==> leq(x, z))
  }

  ghost predicate SortedBy<T>(xs: seq<T>, leq: (T, T) -> bool) {
    forall i, j :: 0 <= i < j < |xs| ==> leq(xs[i], xs[j])
  }

  /** Puts `x` behind every element that is not above it. */
  function Insert<T>(xs: seq<T>, x: T, leq: (T, T) -> bool): seq<T> {
    if xs == [] then [x]
    else if leq(xs[|xs| - 1], x) then xs + [x]
    else Insert(xs[..|xs| - 1], x, leq) + [xs[|xs| - 1]]
  }

  function Sort<T>(xs: seq<T>, leq: (T, T) -> bool): seq<T> {
    if xs == [] then [] else Insert(Sort(xs[..|xs| - 1], leq), xs[|xs| - 1], leq)
  }

  lemma {:induction false} InsertElements<T>(xs: seq<T>, x: T, leq: (T, T) -> bool)
    ensures forall y :: y in Insert(xs, x, leq) <==> y in xs || y == x
  {
    if xs != [] && !leq(xs[|xs| - 1], x) {
      InsertElements(xs[..|xs| - 1], x, leq);
      assert xs == xs[..|xs| - 1] + [xs[|xs| - 1]];
    }
  }

  lemma {:induction false} InsertSorted<T(!new)>(xs: seq<T>, x: T, leq: (T, T) -> bool)
    requires TotalPreorder(leq) && SortedBy(xs, leq)
    ensures SortedBy(Insert(xs, x, leq), leq)
  {
    if xs != [] {
      var n := |xs| - 1;
      if leq(xs[n], x) {
        assert forall i :: 0 <= i < n ==> leq(xs[i], xs[n]);
      } else {
        var front := Insert(xs[..n], x, leq);
        InsertSorted(xs[..n], x, leq);
        InsertElements(xs[..n], x, leq);
        forall i | 0 <= i < |front|
          ensures leq(front[i], xs[n])
        {
          assert front[i] in front;
        }
      }
    }
  }

  lemma {:induction false} SortKeeps<T>(xs: seq<T>, leq: (T, T) -> bool)
    ensures forall y :: y in Sort(xs, leq) <==> y in xs
  {
    if xs != [] {
      SortKeeps(xs[..|xs| - 1], leq);
      InsertElements(Sort(xs[..|xs| - 1], leq), xs[|xs| - 1], leq);
      assert xs == xs[..|xs| - 1] + [xs[|xs| - 1]];
    }
  }

  lemma {:induction false} SortSorts<T(!new)>(xs: seq<T>, leq: (T, T) -> bool)
    requires TotalPreorder(leq)
    ensures SortedBy(Sort(xs, leq), leq)
  {
    if xs != [] {
      SortSorts(xs[..|xs| - 1], leq);
      InsertSorted(Sort(xs[..|xs| - 1], leq), xs[|xs| - 1], leq);
    }
  }

  function Dedup<T(==)>(xs: seq<T>): seq<T> {
    if |xs| <= 1 then xs
    else
      var front := Dedup(xs[..|xs| - 1]);
      if xs[|xs| - 1] == xs[|xs| - 2] then front else front + [xs[|xs| - 1]]
  }

  lemma {:induction false} DedupKeeps<T>(xs: seq<T>)
    ensures forall y :: y in Dedup(xs) <==> y in xs
    ensures xs != [] ==> Dedup(xs) != [] && Dedup(xs)[|Dedup(xs)| - 1] == xs[|xs| - 1]
  {
    if |xs| > 1 {
      DedupKeeps(xs[..|xs| - 1]);
      assert xs == xs[..|xs| - 1] + [xs[|xs| - 1]];
    }
  }

  /** In a sorted list whose equal-keyed elements are equal, nothing survives twice. */
  lemma {:induction false} DedupDistinct<T(!new)>(xs: seq<T>, leq: (T, T) -> bool)
    requires TotalPreorder(leq) && SortedBy(xs, leq)
    requires forall x, y :: x in xs && y in xs && leq(x, y) && leq(y, x) ==> x == y
    ensures SortedBy(Dedup(xs), leq)
    ensures forall i, j :: 0 <= i < j < |Dedup(xs)| ==> Dedup(xs)[i] != Dedup(xs)[j]
  {
    if |xs| > 1 {
      var n := |xs| - 1;
      DedupDistinct(xs[..n], leq);
      DedupKeeps(xs[..n]);
      var front := Dedup(xs[..n]);
      if xs[n] != xs[n - 1] {
        forall i | 0 <= i < |front|
          ensures leq(front[i], xs[n]) && front[i] != xs[n]
        {
          assert front[i] in xs[..n];
          var k :| 0 <= k < n && xs[k] == front[i];
          assert k == n - 1 || leq(xs[k], xs[n - 1]);
          assert leq(xs[n - 1], xs[n]) && xs[k] in xs && xs[n - 1] in xs;
        }
      }
    }
  }
}
