/** Order-preserving filtering and reversal, the two list shapes the ledger's
    queries and the bot's comprehensions produce. */
module Seqs {

  /** `[x for x in xs if p(x)]`. */
  function Filter<T(!new)>(xs: seq<T>, p: T -> bool): (r: seq<T>)
    ensures |r| <= |xs|
    ensures forall x :: x in r <==> x in xs && p(x)
    decreases |xs|
  {
    if xs == [] then []
    else (if p(xs[0]) then [xs[0]] else []) + Filter(xs[1..], p)
  }

  /** Filtering keeps the original order: it commutes with concatenation. */
  lemma {:induction false} FilterAppend<T(!new)>(xs: seq<T>, ys: seq<T>, p: T -> bool)
    ensures Filter(xs + ys, p) == Filter(xs, p) + Filter(ys, p)
    decreases |xs|
  {
    if xs == [] {
      assert xs + ys == ys;
    } else {
      assert (xs + ys)[0] == xs[0];
      assert (xs + ys)[1..] == xs[1..] + ys;
      FilterAppend(xs[1..], ys, p);
    }
  }

  /** Two filters with disjoint conditions together select as many elements
      as the filter on either condition. */
  lemma {:induction false} FilterDisjointSize<T(!new)>(xs: seq<T>, p: T -> bool, q: T -> bool, pq: T -> bool)
    requires forall x :: x in xs ==> !(p(x) && q(x))
    requires forall x :: x in xs ==> pq(x) == (p(x) || q(x))
    ensures |Filter(xs, p)| + |Filter(xs, q)| == |Filter(xs, pq)|
    decreases |xs|
  {
    if xs != [] {
      assert xs[0] in xs;
      assert forall x :: x in xs[1..] ==> x in xs;
      FilterDisjointSize(xs[1..], p, q, pq);
    }
  }

  /** A filter never keeps more than a weaker filter does. */
  lemma {:induction false} FilterMonotone<T(!new)>(xs: seq<T>, p: T -> bool, q: T -> bool)
    requires forall x :: x in xs && p(x) ==> q(x)
    ensures |Filter(xs, p)| <= |Filter(xs, q)|
    decreases |xs|
  {
    if xs != [] {
      assert xs[0] in xs;
      assert forall x :: x in xs[1..] ==> x in xs;
      FilterMonotone(xs[1..], p, q);
    }
  }

  function Reverse<T>(xs: seq<T>): (r: seq<T>)
    ensures |r| == |xs|
    ensures forall i :: 0 <= i < |xs| ==> r[i] == xs[|xs| - 1 - i]
  {
    seq(|xs|, i requires 0 <= i < |xs| => xs[|xs| - 1 - i])
  }

  /** Reversing a list does not change how many elements a filter keeps. */
  lemma {:induction false} FilterReverseSize<T(!new)>(xs: seq<T>, p: T -> bool)
    ensures |Filter(Reverse(xs), p)| == |Filter(xs, p)|
    decreases |xs|
  {
    if xs != [] {
      assert Reverse(xs) == Reverse(xs[1..]) + [xs[0]];
      FilterAppend(Reverse(xs[1..]), [xs[0]], p);
      assert [xs[0]][1..] == [];
      FilterReverseSize(xs[1..], p);
    }
  }

  /** The first `n` elements, or all of them when there are fewer: `xs[:n]`. */
  function Take<T>(xs: seq<T>, n: nat): (r: seq<T>)
    ensures |r| == if |xs| < n then |xs| else n
    ensures forall i :: 0 <= i < |r| ==> r[i] == xs[i]
  {
    if |xs| <= n then xs else xs[..n]
  }
}
