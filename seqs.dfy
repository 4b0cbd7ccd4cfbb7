/** `Array.prototype.filter` and the subsequence order it keeps. */
module Seqs {
  /** a can be read off b left to right, skipping elements of b. */
  predicate IsSubsequence<T(==)>(a: seq<T>, b: seq<T>)
    decreases |b|
  {
    |a| == 0 || (|b| > 0 && if a[0] == b[0] then IsSubsequence(a[1..], b[1..]) else IsSubsequence(a, b[1..]))
  }

  /** Every sequence is a subsequence of itself. */
  lemma {:induction false} SubsequenceRefl<T>(a: seq<T>)
    ensures IsSubsequence(a, a)
    decreases |a|
  {
    if |a| > 0 {
      SubsequenceRefl(a[1..]);
    }
  }

  /** The elements of xs satisfying f, in their order. */
  function Filter<T(==,!new)>(xs: seq<T>, f: T -> bool): (r: seq<T>)
    ensures forall x :: x in r <==> x in xs && f(x)
    ensures IsSubsequence(r, xs)
    ensures |r| <= |xs|
    decreases |xs|
  {
    if |xs| == 0 then []
    else
      var rest := Filter(xs[1..], f);
      assert xs == [xs[0]] + xs[1..];
      if f(xs[0]) then
        assert ([xs[0]] + rest)[1..] == rest;
        [xs[0]] + rest
      else rest
  }

  /** Each kept element occurs as often as in xs; the dropped ones not at all. */
  lemma {:induction false} FilterCounts<T(!new)>(xs: seq<T>, f: T -> bool)
    ensures forall x :: multiset(Filter(xs, f))[x] == if f(x) then multiset(xs)[x] else 0
    decreases |xs|
  {
    if |xs| > 0 {
      FilterCounts(xs[1..], f);
      assert xs == [xs[0]] + xs[1..];
    }
  }

  /** Filtering by a test every element passes changes nothing. */
  lemma {:induction false} FilterAll<T(!new)>(xs: seq<T>, f: T -> bool)
    requires forall i :: 0 <= i < |xs| ==> f(xs[i])
    ensures Filter(xs, f) == xs
    decreases |xs|
  {
    if |xs| > 0 {
      assert forall i :: 0 <= i < |xs[1..]| ==> f(xs[1..][i]) by {
        forall i | 0 <= i < |xs[1..]|
          ensures f(xs[1..][i])
        {
          assert xs[1..][i] == xs[i + 1];
        }
      }
      FilterAll(xs[1..], f);
      assert xs == [xs[0]] + xs[1..];
    }
  }

  /** Filtering by a test and by its negation splits the sequence: the two lengths add up. */
  lemma {:induction false} FilterSplitsLength<T(!new)>(xs: seq<T>, f: T -> bool, g: T -> bool)
    requires forall x :: g(x) == !f(x)
    ensures |Filter(xs, f)| + |Filter(xs, g)| == |xs|
    decreases |xs|
  {
    if |xs| > 0 {
      FilterSplitsLength(xs[1..], f, g);
    }
  }

  /** `xs.map(y => hit(y) ? x : y)`: x over every element the test hits, the rest kept in place. */
  function ReplaceWhere<T>(xs: seq<T>, hit: T -> bool, x: T): (r: seq<T>)
    ensures |r| == |xs|
    ensures forall i :: 0 <= i < |xs| && hit(xs[i]) ==> r[i] == x
    ensures forall i :: 0 <= i < |xs| && !hit(xs[i]) ==> r[i] == xs[i]
  {
    seq(|xs|, i requires 0 <= i < |xs| => if hit(xs[i]) then x else xs[i])
  }
}
