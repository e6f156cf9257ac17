/** Ordering of query results: the ORDER BY clauses of the repositories, modelled
    as a stable insertion sort under a caller-given "may come first" relation.
    SQL leaves the order of ties unspecified; this model keeps them in table order. */
module Sorting {

  /** `first` is total and transitive: a valid ORDER BY key comparison. */
  ghost predicate TotalPreorder<T(!new)>(first: (T, T) -> bool) {
    (forall a, b :: first(a, b) || first(b, a))
    && (forall a, b, c :: first(a, b) && first(b, c) ==> first(a, c))
  }

  /** Every element may come before every later one. */
  ghost predicate SortedBy<T>(xs: seq<T>, first: (T, T) -> bool) {
    forall i, j :: 0 <= i < j < |xs| ==> first(xs[i], xs[j])
  }

  /** `x` placed before the first element of `xs` that it may precede. */
  function Insert<T>(x: T, xs: seq<T>, first: (T, T) -> bool): (r: seq<T>)
    ensures multiset(r) == multiset(xs) + multiset{x}
    ensures |r| == |xs| + 1
  {
    if xs == [] then [x]
    else if first(x, xs[0]) then [x] + xs
    else
      assert xs == [xs[0]] + xs[1..];
      [xs[0]] + Insert(x, xs[1..], first)
  }

  /** The rows of `xs` in ORDER BY order. */
  function SortBy<T>(xs: seq<T>, first: (T, T) -> bool): (r: seq<T>)
    ensures multiset(r) == multiset(xs)
    ensures |r| == |xs|
  {
    if xs == [] then []
    else
      assert xs == [xs[0]] + xs[1..];
      Insert(xs[0], SortBy(xs[1..], first), first)
  }

  lemma {:induction false} InsertSorted<T(!new)>(x: T, xs: seq<T>, first: (T, T) -> bool)
    requires TotalPreorder(first)
    requires SortedBy(xs, first)
    ensures SortedBy(Insert(x, xs, first), first)
  {
    if xs == [] || first(x, xs[0]) {
    } else {
      InsertSorted(x, xs[1..], first);
      var rest := Insert(x, xs[1..], first);
      assert first(xs[0], x);
      forall k | 0 <= k < |rest|
        ensures first(xs[0], rest[k])
      {
        assert rest[k] in multiset(rest);
        assert rest[k] == x || rest[k] in multiset(xs[1..]);
        if rest[k] != x {
          var m :| 0 <= m < |xs[1..]| && xs[1..][m] == rest[k];
          assert xs[m + 1] == rest[k];
        }
      }
    }
  }

  /** The sort is a permutation of its input (see `SortBy`'s contract) that is in
      ORDER BY order. */
  lemma {:induction false} SortBySorted<T(!new)>(xs: seq<T>, first: (T, T) -> bool)
    requires TotalPreorder(first)
    ensures SortedBy(SortBy(xs, first), first)
  {
    if xs != [] {
      SortBySorted(xs[1..], first);
      InsertSorted(xs[0], SortBy(xs[1..], first), first);
    }
  }

  /** An element is in the sorted rows iff it is in the input. */
  lemma SortByMembers<T>(xs: seq<T>, first: (T, T) -> bool, x: T)
    ensures x in SortBy(xs, first) <==> x in xs
  {
    var r := SortBy(xs, first);
    assert x in r <==> x in multiset(r);
    assert x in xs <==> x in multiset(xs);
  }
}
