/** Two sequences that make the same steps from the same start are equal. */
module Lockstep {

  /** If the two agree at i, they agree at i + 1. */
  ghost predicate InStep<S(!new)>(a: seq<S>, b: seq<S>, i: nat) {
    i + 1 < |a| && i + 1 < |b| && (a[i] == b[i] ==> a[i + 1] == b[i + 1])
  }

  lemma {:induction false} SameSteps<S(!new)>(a: seq<S>, b: seq<S>, n: nat)
    requires n < |a| == |b| && a[0] == b[0]
    requires forall i: nat :: i < n ==> InStep(a, b, i)
    ensures a[n] == b[n]
  {
    if n > 0 {
      SameSteps(a, b, n - 1);
      assert InStep(a, b, n - 1);
    }
  }
}
