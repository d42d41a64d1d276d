/** A pigeonhole fact used to bound the number of groups. */
module Counting {

  /** No value occurs twice in `xs`. */
  predicate Distinct(xs: seq<int>) {
    forall i, j :: 0 <= i < j < |xs| ==> xs[i] != xs[j]
  }

  /** Pigeonhole: values without repeats drawn from [0, n) number at most n. */
  lemma {:induction false} DistinctBelow(xs: seq<int>, n: nat)
    requires Distinct(xs)
    requires forall i :: 0 <= i < |xs| ==> 0 <= xs[i] < n
    ensures |xs| <= n
    decreases n
  {
    if xs != [] {
      assert 0 <= xs[0] < n;
      var m := n - 1;
      if k :| 0 <= k < |xs| && xs[k] == m {
        var ys := xs[..k] + xs[k + 1..];
        assert forall i :: 0 <= i < |ys| ==> ys[i] == if i < k then xs[i] else xs[i + 1];
        assert forall i :: 0 <= i < |ys| ==> ys[i] != m;
        DistinctBelow(ys, m);
      } else {
        DistinctBelow(xs, m);
      }
    }
  }
}
