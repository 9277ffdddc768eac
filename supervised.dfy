/** The accuracy metric of supervised models (supervised.go). */
module Supervised {
  import opened Common
  import opened Helpers

  /** How many of the first `n` pairs are Equal under `epsilon`. */
  function Correct(epsilon: real, predictions: seq<real>, targets: seq<real>, n: nat): (c: nat)
    requires n <= |predictions| == |targets|
    ensures c <= n
  {
    if n == 0 then 0
    else Correct(epsilon, predictions, targets, n - 1)
         + (if Equal(epsilon, predictions[n - 1], targets[n - 1]) then 1 else 0)
  }

  /**
   * Accuracy: the percentage of equal pairs. The source panics when the lengths
   * differ. With no pairs it divides 0 by 0, which is NaN in float64; the model
   * returns None there.
   */
  method Accuracy(epsilon: real, predictions: seq<real>, targets: seq<real>) returns (r: Option<real>)
    requires |predictions| == |targets|
    ensures r.None? <==> |predictions| == 0
    ensures r.Some? ==>
      r.value == Correct(epsilon, predictions, targets, |predictions|) as real / |predictions| as real * 100.0
    ensures r.Some? ==> 0.0 <= r.value <= 100.0
  {
    var correct := 0;
    var total := |predictions|;
    for i := 0 to |predictions|
      invariant correct == Correct(epsilon, predictions, targets, i)
    {
      if Equal(epsilon, predictions[i], targets[i]) {
        correct := correct + 1;
      }
    }
    if total == 0 {
      return None;
    }
    r := Some(correct as real / total as real * 100.0);
    PercentBounds(correct, total);
  }

  lemma PercentBounds(correct: nat, total: nat)
    requires 0 < total && correct <= total
    ensures 0.0 <= correct as real / total as real * 100.0 <= 100.0
  {
    assert correct as real / total as real <= 1.0;
  }

  /** When every pair is equal, every pair counts. */
  lemma {:induction false} AllEqualCounted(epsilon: real, predictions: seq<real>, targets: seq<real>, n: nat)
    requires n <= |predictions| == |targets|
    requires forall i | 0 <= i < n :: Equal(epsilon, predictions[i], targets[i])
    ensures Correct(epsilon, predictions, targets, n) == n
  {
    if n > 0 {
      AllEqualCounted(epsilon, predictions, targets, n - 1);
    }
  }

  /** When no pair is equal, none counts. */
  lemma {:induction false} NoneEqualCounted(epsilon: real, predictions: seq<real>, targets: seq<real>, n: nat)
    requires n <= |predictions| == |targets|
    requires forall i | 0 <= i < n :: !Equal(epsilon, predictions[i], targets[i])
    ensures Correct(epsilon, predictions, targets, n) == 0
  {
    if n > 0 {
      NoneEqualCounted(epsilon, predictions, targets, n - 1);
    }
  }

  /** The percentage Accuracy reports, for non-empty input. */
  function Percent(epsilon: real, predictions: seq<real>, targets: seq<real>): real
    requires 0 < |predictions| == |targets|
  {
    Correct(epsilon, predictions, targets, |predictions|) as real / |predictions| as real * 100.0
  }

  lemma AllEqualIsHundred(epsilon: real, predictions: seq<real>, targets: seq<real>)
    requires 0 < |predictions| == |targets|
    requires forall i | 0 <= i < |predictions| :: Equal(epsilon, predictions[i], targets[i])
    ensures Percent(epsilon, predictions, targets) == 100.0
  {
    AllEqualCounted(epsilon, predictions, targets, |predictions|);
    assert |predictions| as real / |predictions| as real == 1.0;
  }

  lemma NoneEqualIsZero(epsilon: real, predictions: seq<real>, targets: seq<real>)
    requires 0 < |predictions| == |targets|
    requires forall i | 0 <= i < |predictions| :: !Equal(epsilon, predictions[i], targets[i])
    ensures Percent(epsilon, predictions, targets) == 0.0
  {
    NoneEqualCounted(epsilon, predictions, targets, |predictions|);
  }

  /** Comparing a sequence with itself scores 100 whenever the tolerance is positive. */
  lemma SelfAccuracy(epsilon: real, values: seq<real>)
    requires epsilon > 0.0 && |values| > 0
    ensures Percent(epsilon, values, values) == 100.0
  {
    AllEqualIsHundred(epsilon, values, values);
  }
}
