/** `Array.prototype.sort` with a numeric comparator `(a, b) => rank(a) - rank(b)`
    and `slice(0, n)`, on values. The sort is an insertion sort that puts a
    later element after the earlier ones of the same rank, as the stable
    sort JavaScript requires. */
module Sorting {

  predicate SortedBy<T>(xs: seq<T>, rank: T -> int) {
    forall i, j | 0 <= i < j < |xs| :: rank(xs[i]) <= rank(xs[j])
  }

  /** Places `x` after every element of `s` whose rank is not greater. */
  function Insert<T(==)>(x: T, s: seq<T>, rank: T -> int): (r: seq<T>)
    requires SortedBy(s, rank)
    ensures |r| == |s| + 1
    ensures SortedBy(r, rank)
    ensures multiset(r) == multiset(s) + multiset{x}
    ensures r[0] == x || (|s| > 0 && r[0] == s[0])
  {
    if |s| == 0 then [x]
    else if rank(x) < rank(s[0]) then [x] + s
    else
      var rest := Insert(x, s[1..], rank);
      assert s == [s[0]] + s[1..];
      assert forall j | 0 <= j < |rest| :: rank(s[0]) <= rank(rest[j]) by {
        assert rank(s[0]) <= rank(rest[0]);
      }
      [s[0]] + rest
  }

  /** The elements of `xs`, ordered by ascending rank. */
  function SortBy<T(==)>(xs: seq<T>, rank: T -> int): (r: seq<T>)
    ensures |r| == |xs|
    ensures SortedBy(r, rank)
    ensures multiset(r) == multiset(xs)
  {
    if |xs| == 0 then []
    else
      assert xs == xs[..|xs| - 1] + [xs[|xs| - 1]];
      Insert(xs[|xs| - 1], SortBy(xs[..|xs| - 1], rank), rank)
  }

  /** `xs.slice(0, n)` */
  function Take<T>(xs: seq<T>, n: nat): (r: seq<T>)
    ensures |r| == if |xs| <= n then |xs| else n
    ensures r == xs[..|r|]
    ensures |xs| <= n ==> r == xs
  {
    if |xs| <= n then xs else xs[..n]
  }

  /** A prefix of a sorted sequence is sorted and is part of it; every
      element left out ranks at least as high as every element kept. */
  lemma TakeSorted<T>(xs: seq<T>, n: nat, rank: T -> int)
    requires SortedBy(xs, rank)
    ensures SortedBy(Take(xs, n), rank)
    ensures multiset(Take(xs, n)) <= multiset(xs)
    ensures forall i, j | 0 <= i < |Take(xs, n)| <= j < |xs| :: rank(xs[i]) <= rank(xs[j])
  {
    var r := Take(xs, n);
    assert xs == r + xs[|r|..];
  }

  /** The first n of a sorted copy: n of them, or all when there are no
      more than n, each drawn from the input. */
  lemma TopOf<T>(xs: seq<T>, n: nat, rank: T -> int)
    ensures |Take(SortBy(xs, rank), n)| == if |xs| <= n then |xs| else n
    ensures multiset(Take(SortBy(xs, rank), n)) <= multiset(xs)
    ensures |xs| <= n ==> multiset(Take(SortBy(xs, rank), n)) == multiset(xs)
  {
    TakeSorted(SortBy(xs, rank), n, rank);
  }
}
