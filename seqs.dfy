/** Sequence helpers shared by the pipeline: `Array.prototype.filter` and the
    subsequence relation that every filtering stage is stated against. Both are
    defined by peeling off the LAST element, the way a left-to-right loop grows
    its output. */
module Seqs {

  /** `xs.filter(p)`: the elements of `xs` that satisfy `p`, in their original order. */
  function Filter<T>(p: T -> bool, xs: seq<T>): (r: seq<T>)
    ensures |r| <= |xs|
    ensures forall x :: x in r ==> x in xs && p(x)
    ensures forall x :: x in xs && p(x) ==> x in r
  {
    if xs == [] then []
    else
      var init, last := xs[..|xs| - 1], xs[|xs| - 1];
      assert xs == init + [last];
      Filter(p, init) + (if p(last) then [last] else [])
  }

  /** Every kept element is kept as many times as it occurs. */
  lemma {:induction false} FilterMultiplicity<T>(p: T -> bool, xs: seq<T>)
    ensures forall x :: x in xs ==> multiset(Filter(p, xs))[x] == if p(x) then multiset(xs)[x] else 0
  {
    if xs != [] {
      var init, last := xs[..|xs| - 1], xs[|xs| - 1];
      FilterMultiplicity(p, init);
      assert xs == init + [last];
      assert multiset(xs) == multiset(init) + multiset{last};
      forall x | x in xs
        ensures multiset(Filter(p, xs))[x] == if p(x) then multiset(xs)[x] else 0
      {
        if x !in init {
          assert multiset(init)[x] == 0;
          assert multiset(Filter(p, init))[x] == 0;
        }
      }
    }
  }

  /** `a` can be obtained from `b` by deleting elements: an order-preserving subsequence. */
  predicate IsSubsequence<T(==)>(a: seq<T>, b: seq<T>)
    decreases |b|
  {
    if a == [] then true
    else if b == [] then false
    else
      (a[|a| - 1] == b[|b| - 1] && IsSubsequence(a[..|a| - 1], b[..|b| - 1]))
      || IsSubsequence(a, b[..|b| - 1])
  }

  lemma {:induction false} FilterIsSubsequence<T>(p: T -> bool, xs: seq<T>)
    ensures IsSubsequence(Filter(p, xs), xs)
  {
    if xs != [] {
      var init, last := xs[..|xs| - 1], xs[|xs| - 1];
      FilterIsSubsequence(p, init);
      var r := Filter(p, xs);
      if p(last) {
        assert r[..|r| - 1] == Filter(p, init);
      } else {
        assert r == Filter(p, init);
        if r != [] {
          SubsequenceOfInit(r, xs);
        }
      }
    }
  }

  /** A subsequence of a prefix of `b` is a subsequence of `b`. */
  lemma SubsequenceOfInit<T>(a: seq<T>, b: seq<T>)
    requires b != [] && a != [] && IsSubsequence(a, b[..|b| - 1])
    ensures IsSubsequence(a, b)
  {
  }

  /** Two predicates that agree on every element of `xs` filter it identically. */
  lemma {:induction false} FilterCongruent<T>(p: T -> bool, q: T -> bool, xs: seq<T>)
    requires forall x :: x in xs ==> p(x) == q(x)
    ensures Filter(p, xs) == Filter(q, xs)
  {
    if xs != [] {
      var init := xs[..|xs| - 1];
      assert forall x :: x in init ==> x in xs;
      FilterCongruent(p, q, init);
    }
  }

  /** A predicate that every element satisfies keeps the whole sequence. */
  lemma {:induction false} FilterAll<T>(p: T -> bool, xs: seq<T>)
    requires forall x :: x in xs ==> p(x)
    ensures Filter(p, xs) == xs
  {
    if xs != [] {
      var init, last := xs[..|xs| - 1], xs[|xs| - 1];
      forall x | x in init
        ensures p(x)
      {
        var i :| 0 <= i < |init| && init[i] == x;
        assert xs[i] == x;
      }
      FilterAll(p, init);
      assert p(last);
      assert xs == init + [last];
    }
  }

  /** Filtering a sequence grown by one element. */
  lemma FilterSnoc<T>(p: T -> bool, xs: seq<T>, x: T)
    ensures Filter(p, xs + [x]) == Filter(p, xs) + (if p(x) then [x] else [])
  {
    assert (xs + [x])[..|xs|] == xs;
  }

  /** A non-empty sequence holds its first element. */
  lemma HeadIsElement<T>(xs: seq<T>)
    ensures xs != [] ==> xs[0] in xs
  {
  }
}
