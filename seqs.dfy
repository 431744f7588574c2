/** Sequence operations shared by the modules: order-keeping filtering and the subsequence relation. */
module Seqs {

  /** `a` is `b` with some elements left out, the others in their order. */
  predicate IsSubsequence<T(==)>(a: seq<T>, b: seq<T>)
    decreases |b|
  {
    || a == []
    || (&& |b| > 0
        && (|| (a[|a| - 1] == b[|b| - 1] && IsSubsequence(a[..|a| - 1], b[..|b| - 1]))
            || IsSubsequence(a, b[..|b| - 1])))
  }

  lemma {:induction false} SubsequenceMembers<T>(a: seq<T>, b: seq<T>, x: T)
    requires IsSubsequence(a, b) && x in a
    ensures x in b
    decreases |b|
  {
    if a[|a| - 1] == b[|b| - 1] && IsSubsequence(a[..|a| - 1], b[..|b| - 1]) {
      if x != a[|a| - 1] {
        assert x in a[..|a| - 1];
        SubsequenceMembers(a[..|a| - 1], b[..|b| - 1], x);
      }
    } else {
      SubsequenceMembers(a, b[..|b| - 1], x);
    }
  }

  /** The elements of `xs` that `keep` accepts, in their order, each unchanged. */
  function Filter<T(!new)>(xs: seq<T>, keep: T -> bool): (kept: seq<T>)
    ensures IsSubsequence(kept, xs)
    ensures forall x :: x in kept ==> keep(x)
    ensures forall i :: 0 <= i < |xs| && keep(xs[i]) ==> xs[i] in kept
    ensures forall y :: multiset(kept)[y] == if keep(y) then multiset(xs)[y] else 0
  {
    if xs == [] then []
    else
      var init := xs[..|xs| - 1];
      var last := xs[|xs| - 1];
      assert forall i :: 0 <= i < |init| ==> init[i] == xs[i];
      assert xs == init + [last];
      if keep(last) then Filter(init, keep) + [last] else Filter(init, keep)
  }

  lemma {:induction false} FilterOfAccepted<T(!new)>(xs: seq<T>, keep: T -> bool)
    requires forall x :: x in xs ==> keep(x)
    ensures Filter(xs, keep) == xs
  {
    if xs != [] {
      assert xs[..|xs| - 1] + [xs[|xs| - 1]] == xs;
      FilterOfAccepted(xs[..|xs| - 1], keep);
    }
  }

  /** Filtering one more element appends it exactly when it is accepted. */
  lemma FilterSnoc<T(!new)>(xs: seq<T>, x: T, keep: T -> bool)
    ensures Filter(xs + [x], keep) == if keep(x) then Filter(xs, keep) + [x] else Filter(xs, keep)
  {
    assert (xs + [x])[..|xs|] == xs;
  }
}
