/**
 * Sequences as the front end uses JavaScript arrays: `Array.prototype.filter`
 * with a predicate, counting, and the "order-preserving subsequence" relation
 * that every filter result stands in to its input.
 */
module Seqs {

  /** The elements of `xs` that satisfy `p`, in their original order. */
  function Filter<T(!new)>(xs: seq<T>, p: T -> bool): (r: seq<T>)
    ensures |r| <= |xs|
    ensures forall x :: x in r <==> x in xs && p(x)
  {
    if xs == [] then []
    else
      var rest := Filter(xs[1..], p);
      assert xs == [xs[0]] + xs[1..];
      if p(xs[0]) then [xs[0]] + rest else rest
  }

  /** The number of positions of `xs` whose element satisfies `p`. */
  function Count<T>(xs: seq<T>, p: T -> bool): nat
  {
    if xs == [] then 0
    else (if p(xs[0]) then 1 else 0) + Count(xs[1..], p)
  }

  /** `a` can be obtained from `b` by deleting elements, without reordering. */
  predicate IsSubseq<T(==)>(a: seq<T>, b: seq<T>)
  {
    if a == [] then true
    else if b == [] then false
    else (a[0] == b[0] && IsSubseq(a[1..], b[1..])) || IsSubseq(a, b[1..])
  }

  lemma {:induction false} FilterIsSubseq<T(!new)>(xs: seq<T>, p: T -> bool)
    ensures IsSubseq(Filter(xs, p), xs)
  {
    if xs != [] {
      var rest := Filter(xs[1..], p);
      FilterIsSubseq(xs[1..], p);
      if p(xs[0]) {
        assert Filter(xs, p) == [xs[0]] + rest;
        assert ([xs[0]] + rest)[1..] == rest;
      } else if rest != [] {
        assert IsSubseq(rest, xs[1..]);
      }
    }
  }

  /** Each element keeps its multiplicity when it satisfies `p` and disappears otherwise. */
  lemma {:induction false} FilterMultiset<T(!new)>(xs: seq<T>, p: T -> bool)
    ensures forall x :: multiset(Filter(xs, p))[x] == if p(x) then multiset(xs)[x] else 0
  {
    if xs != [] {
      FilterMultiset(xs[1..], p);
      assert xs == [xs[0]] + xs[1..];
      assert multiset(xs) == multiset{xs[0]} + multiset(xs[1..]);
    }
  }

  lemma {:induction false} FilterLength<T(!new)>(xs: seq<T>, p: T -> bool)
    ensures |Filter(xs, p)| == Count(xs, p)
  {
    if xs != [] {
      FilterLength(xs[1..], p);
    }
  }

  /** A predicate that holds of every element keeps the whole sequence. */
  lemma {:induction false} FilterKeepsAll<T(!new)>(xs: seq<T>, p: T -> bool)
    requires forall i :: 0 <= i < |xs| ==> p(xs[i])
    ensures Filter(xs, p) == xs
  {
    if xs != [] {
      FilterKeepsAll(xs[1..], p);
      assert xs == [xs[0]] + xs[1..];
    }
  }

  /** A predicate that holds of no element leaves nothing. */
  lemma {:induction false} FilterKeepsNone<T(!new)>(xs: seq<T>, p: T -> bool)
    requires forall i :: 0 <= i < |xs| ==> !p(xs[i])
    ensures Filter(xs, p) == []
  {
    FilterLength(xs, p);
    CountZero(xs, p);
  }

  /** Filtering only depends on the values the predicate takes on the elements. */
  lemma {:induction false} FilterCongruent<T(!new)>(xs: seq<T>, p: T -> bool, q: T -> bool)
    requires forall i :: 0 <= i < |xs| ==> p(xs[i]) == q(xs[i])
    ensures Filter(xs, p) == Filter(xs, q)
  {
    if xs != [] {
      FilterCongruent(xs[1..], p, q);
    }
  }

  /** Filtering a filter result again with the same predicate returns it unchanged. */
  lemma {:induction false} FilterIdempotent<T(!new)>(xs: seq<T>, p: T -> bool)
    ensures Filter(Filter(xs, p), p) == Filter(xs, p)
  {
    var r := Filter(xs, p);
    forall i | 0 <= i < |r| ensures p(r[i]) {
      assert r[i] in r;
    }
    FilterKeepsAll(r, p);
  }

  lemma {:induction false} CountAppend<T(!new)>(xs: seq<T>, y: T, p: T -> bool)
    ensures Count(xs + [y], p) == Count(xs, p) + (if p(y) then 1 else 0)
  {
    if xs != [] {
      assert (xs + [y])[1..] == xs[1..] + [y];
      CountAppend(xs[1..], y, p);
    }
  }

  /** No element satisfying `p` is left exactly when the count is zero. */
  lemma {:induction false} CountZero<T(!new)>(xs: seq<T>, p: T -> bool)
    ensures Count(xs, p) == 0 <==> forall i :: 0 <= i < |xs| ==> !p(xs[i])
  {
    if xs != [] {
      CountZero(xs[1..], p);
      assert forall i :: 1 <= i < |xs| ==> xs[i] == xs[1..][i - 1];
    }
  }

  /** Deleting elements never raises a multiplicity. */
  lemma {:induction false} SubseqMultiset<T(!new)>(a: seq<T>, b: seq<T>)
    requires IsSubseq(a, b)
    ensures multiset(a) <= multiset(b)
  {
    if a != [] {
      assert b == [b[0]] + b[1..];
      if a[0] == b[0] && IsSubseq(a[1..], b[1..]) {
        SubseqMultiset(a[1..], b[1..]);
        assert a == [a[0]] + a[1..];
      } else {
        SubseqMultiset(a, b[1..]);
      }
    }
  }

  /**
   * `Filter` is the only order-preserving subsequence that keeps exactly the
   * elements satisfying `p`, each with its multiplicity: the contract of a
   * filter determines its result.
   */
  lemma {:induction false} FilterUnique<T(!new)>(xs: seq<T>, p: T -> bool, r: seq<T>)
    requires IsSubseq(r, xs)
    requires forall x :: multiset(r)[x] == if p(x) then multiset(xs)[x] else 0
    ensures r == Filter(xs, p)
  {
    if xs == [] {
      assert r == [];
    } else {
      var y, ys := xs[0], xs[1..];
      assert xs == [y] + ys;
      if r != [] && r[0] == y && IsSubseq(r[1..], ys) && p(y) {
        assert r == [y] + r[1..];
        FilterUnique(ys, p, r[1..]);
      } else if p(y) {
        // y must be kept, yet r would then be a subsequence of ys, which has one y fewer
        assert r != [] ==> IsSubseq(r, ys);
        SubseqMultiset(r, ys);
        assert false;
      } else {
        if r != [] && r[0] == y {
          assert false;
        }
        assert IsSubseq(r, ys);
        FilterUnique(ys, p, r);
      }
    }
  }
}
