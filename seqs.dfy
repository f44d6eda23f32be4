/** `Array.prototype.filter` and what it promises about order. */
module Seqs {

  /** `a` can be obtained from `b` by deleting elements: an order-preserving subsequence. */
  ghost predicate IsSubsequence<T>(a: seq<T>, b: seq<T>)
    decreases |b|
  {
    a == [] || (b != [] && ((a[0] == b[0] && IsSubsequence(a[1..], b[1..])) || IsSubsequence(a, b[1..])))
  }

  /** `xs.filter(keep)`. */
  function Filter<T>(xs: seq<T>, keep: T -> bool): (r: seq<T>)
    ensures |r| <= |xs|
    ensures forall k :: 0 <= k < |r| ==> keep(r[k])
    ensures (forall k :: 0 <= k < |xs| ==> keep(xs[k])) ==> r == xs
    decreases |xs|
  {
    if xs == [] then []
    else
      var rest := Filter(xs[1..], keep);
      assert xs == [xs[0]] + xs[1..];
      if keep(xs[0]) then [xs[0]] + rest else rest
  }

  /** `xs.filter(keep)` keeps the order of `xs`. */
  lemma {:induction false} FilterSubsequence<T>(xs: seq<T>, keep: T -> bool)
    ensures IsSubsequence(Filter(xs, keep), xs)
    decreases |xs|
  {
    if xs != [] {
      FilterSubsequence(xs[1..], keep);
      if keep(xs[0]) {
        assert ([xs[0]] + Filter(xs[1..], keep))[1..] == Filter(xs[1..], keep);
      }
    }
  }

  /** `xs.filter(keep)` holds exactly the elements of `xs` that pass `keep`. */
  lemma {:induction false} FilterMembers<T>(xs: seq<T>, keep: T -> bool)
    ensures forall k :: 0 <= k < |Filter(xs, keep)| ==> Filter(xs, keep)[k] in xs
    ensures forall k :: 0 <= k < |xs| && keep(xs[k]) ==> xs[k] in Filter(xs, keep)
    decreases |xs|
  {
    if xs != [] {
      FilterMembers(xs[1..], keep);
      assert xs == [xs[0]] + xs[1..];
    }
  }

  /** `xs.filter(keep)` keeps every passing element as often as `xs` holds it, and no other element. */
  lemma {:induction false} FilterMultiset<T(!new)>(xs: seq<T>, keep: T -> bool)
    ensures forall x :: multiset(Filter(xs, keep))[x] == if keep(x) then multiset(xs)[x] else 0
    decreases |xs|
  {
    if xs != [] {
      FilterMultiset(xs[1..], keep);
      assert xs == [xs[0]] + xs[1..];
      assert multiset(xs) == multiset([xs[0]]) + multiset(xs[1..]);
      if keep(xs[0]) {
        assert multiset(Filter(xs, keep)) == multiset([xs[0]]) + multiset(Filter(xs[1..], keep));
      }
    }
  }

  /** Filtering a non-empty list decides its head, then filters the rest. */
  lemma FilterUnfold<T>(xs: seq<T>, keep: T -> bool)
    requires xs != []
    ensures |Filter(xs, keep)| == |Filter(xs[1..], keep)| + (if keep(xs[0]) then 1 else 0)
  {
  }

  /** `xs.filter(p).filter(q)` is still an order-preserving subsequence of `xs`. */
  lemma {:induction false} TwoFiltersSubsequence<T>(xs: seq<T>, p: T -> bool, q: T -> bool)
    ensures IsSubsequence(Filter(Filter(xs, p), q), xs)
    decreases |xs|
  {
    if xs != [] {
      TwoFiltersSubsequence(xs[1..], p, q);
      var inner := Filter(xs[1..], p);
      if p(xs[0]) {
        assert Filter(xs, p) == [xs[0]] + inner;
        assert ([xs[0]] + inner)[1..] == inner;
        if q(xs[0]) {
          assert Filter(Filter(xs, p), q) == [xs[0]] + Filter(inner, q);
        } else {
          assert Filter(Filter(xs, p), q) == Filter(inner, q);
        }
      } else {
        assert Filter(xs, p) == inner;
      }
    }
  }
}
