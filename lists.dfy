/**
 * The array pipeline steps the adapters use: `filter`, `map` and
 * `filter(p).length`, together with what they preserve.
 */
module Lists {

  /** `a` can be obtained from `b` by deleting elements: `a` is an order-preserving subsequence. */
  predicate IsSubsequence<X(==)>(a: seq<X>, b: seq<X>)
    decreases |b|
  {
    if |a| == 0 then true
    else if |b| == 0 then false
    else if a[|a| - 1] == b[|b| - 1] then IsSubsequence(a[..|a| - 1], b[..|b| - 1])
    else IsSubsequence(a, b[..|b| - 1])
  }

  /** `xs.filter(p).length`. */
  function CountWhere<X>(xs: seq<X>, p: X -> bool): (n: nat)
    ensures n <= |xs|
  {
    if |xs| == 0 then 0 else CountWhere(xs[..|xs| - 1], p) + (if p(xs[|xs| - 1]) then 1 else 0)
  }

  /** `xs.filter(p)`: the elements satisfying `p`, in their order. */
  function Filter<X>(xs: seq<X>, p: X -> bool): (r: seq<X>)
    ensures |r| == CountWhere(xs, p)
    ensures forall i :: 0 <= i < |r| ==> p(r[i])
    ensures forall x :: x in r ==> x in xs
  {
    if |xs| == 0 then []
    else
      var init := Filter(xs[..|xs| - 1], p);
      assert forall x :: x in init ==> x in xs by {
        forall x | x in init ensures x in xs {
          assert x in xs[..|xs| - 1];
        }
      }
      init + if p(xs[|xs| - 1]) then [xs[|xs| - 1]] else []
  }

  /** An element is kept exactly when it is in the input and satisfies `p`. */
  lemma {:induction false} FilterMembers<X>(xs: seq<X>, p: X -> bool, x: X)
    ensures x in Filter(xs, p) <==> x in xs && p(x)
    decreases |xs|
  {
    if |xs| > 0 {
      var init := xs[..|xs| - 1];
      FilterMembers(init, p, x);
      assert xs == init + [xs[|xs| - 1]];
    }
  }

  /** The filtered list is an order-preserving subsequence of the input. */
  lemma {:induction false} FilterIsSubsequence<X>(xs: seq<X>, p: X -> bool)
    ensures IsSubsequence(Filter(xs, p), xs)
    decreases |xs|
  {
    if |xs| > 0 {
      var init := xs[..|xs| - 1];
      var r := Filter(xs, p);
      FilterIsSubsequence(init, p);
      if p(xs[|xs| - 1]) {
        assert r[..|r| - 1] == Filter(init, p);
      } else {
        assert r == Filter(init, p);
        if |r| > 0 {
          assert p(r[|r| - 1]);
        }
      }
    }
  }

  /** `xs.map(f)`. */
  function Map<X, Y>(xs: seq<X>, f: X -> Y): (r: seq<Y>)
    ensures |r| == |xs| && forall i :: 0 <= i < |xs| ==> r[i] == f(xs[i])
  {
    seq(|xs|, i requires 0 <= i < |xs| => f(xs[i]))
  }

  /** Mapping distributes over concatenation. */
  lemma MapAppend<X, Y>(xs: seq<X>, ys: seq<X>, f: X -> Y)
    ensures Map(xs + ys, f) == Map(xs, f) + Map(ys, f)
  {
  }

  /** Counting a mapped list counts the source elements whose image qualifies. */
  lemma {:induction false} CountWhereMap<X, Y>(xs: seq<X>, f: X -> Y, p: Y -> bool, q: X -> bool)
    requires forall x :: q(x) == p(f(x))
    ensures CountWhere(Map(xs, f), p) == CountWhere(xs, q)
    decreases |xs|
  {
    if |xs| > 0 {
      var init := xs[..|xs| - 1];
      assert Map(xs, f)[..|xs| - 1] == Map(init, f);
      CountWhereMap(init, f, p, q);
    }
  }
}
