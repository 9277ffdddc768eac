/**
 * The weighted vote both kNN models run over the neighbours' labels
 * (knn/knn.go per target component, models/knn.go on the scalar target):
 * a tally per label, a running maximum that starts at 0, and a chosen label
 * that changes only when a tally strictly exceeds that maximum.
 */
module Voting {

  /** The vote's state: the tallies, the running maximum and the chosen label. */
  datatype Tally = Tally(labels: map<real, real>, max: real, chosen: real)

  /** A missing label tallies 0, as a Go map lookup of a missing key does. */
  function Count(labels: map<real, real>, key: real): real
  {
    if key in labels then labels[key] else 0.0
  }

  /** One neighbour's vote: add its weight to its label, and take the label if it is now strictly ahead. */
  function Cast(t: Tally, key: real, weight: real): (r: Tally)
    ensures r.labels == t.labels[key := Count(t.labels, key) + weight]
    ensures r.max >= t.max
    ensures r.chosen == t.chosen || (r.chosen == key && r.max == r.labels[key] > t.max)
  {
    var total := Count(t.labels, key) + weight;
    var labels := t.labels[key := total];
    if total > t.max then Tally(labels, total, key) else Tally(labels, t.max, t.chosen)
  }

  /** The vote after the first `n` neighbours, starting from the label `first` with maximum 0. */
  function Poll(keys: seq<real>, weights: seq<real>, n: nat, first: real): Tally
    requires n <= |keys| == |weights|
  {
    if n == 0 then Tally(map[], 0.0, first)
    else Cast(Poll(keys, weights, n - 1, first), keys[n - 1], weights[n - 1])
  }

  /** The label the whole vote settles on. */
  function Winner(keys: seq<real>, weights: seq<real>, first: real): real
    requires |keys| == |weights|
  {
    Poll(keys, weights, |keys|, first).chosen
  }

  /** No tally is above the maximum, and a positive maximum is the chosen label's tally. */
  predicate Leading(t: Tally)
  {
    && t.max >= 0.0
    && (forall k | k in t.labels :: t.labels[k] <= t.max)
    && (t.max > 0.0 ==> t.chosen in t.labels && t.labels[t.chosen] == t.max)
  }

  /** With no negative weight, the chosen label has the largest tally (once any tally is positive). */
  lemma {:induction false} PluralityWins(keys: seq<real>, weights: seq<real>, n: nat, first: real)
    requires n <= |keys| == |weights|
    requires forall j | 0 <= j < |weights| :: weights[j] >= 0.0
    ensures Leading(Poll(keys, weights, n, first))
  {
    if n > 0 {
      PluralityWins(keys, weights, n - 1, first);
    }
  }

  /** When no tally ever gets above 0 (no positive weight), the vote keeps the starting label. */
  lemma {:induction false} NoPositiveTallyKeepsFirst(keys: seq<real>, weights: seq<real>, n: nat, first: real)
    requires n <= |keys| == |weights|
    requires forall j | 0 <= j < |weights| :: weights[j] <= 0.0
    ensures Poll(keys, weights, n, first).chosen == first
    ensures Poll(keys, weights, n, first).max == 0.0
    ensures forall k | k in Poll(keys, weights, n, first).labels :: Poll(keys, weights, n, first).labels[k] <= 0.0
  {
    if n > 0 {
      NoPositiveTallyKeepsFirst(keys, weights, n - 1, first);
    }
  }

  /** With every weight 1, each label's tally is the number of neighbours carrying it. */
  lemma {:induction false} UnitWeightsCount(keys: seq<real>, weights: seq<real>, n: nat, first: real)
    requires n <= |keys| == |weights|
    requires forall j | 0 <= j < |weights| :: weights[j] == 1.0
    ensures forall k :: Count(Poll(keys, weights, n, first).labels, k) == multiset(keys[..n])[k] as real
  {
    if n > 0 {
      UnitWeightsCount(keys, weights, n - 1, first);
      assert keys[..n] == keys[..n - 1] + [keys[n - 1]];
    }
  }

  /** Majority voting: with weight 1 each, the chosen label is one of the most frequent among the neighbours. */
  lemma MajorityWins(keys: seq<real>, weights: seq<real>, first: real)
    requires 0 < |keys| == |weights|
    requires forall j | 0 <= j < |weights| :: weights[j] == 1.0
    ensures Winner(keys, weights, first) in keys
    ensures forall k :: multiset(keys)[k] <= multiset(keys)[Winner(keys, weights, first)]
  {
    var t := Poll(keys, weights, |keys|, first);
    UnitWeightsCount(keys, weights, |keys|, first);
    PluralityWins(keys, weights, |keys|, first);
    assert keys[..|keys|] == keys;
    assert keys[0] in multiset(keys);
    assert Count(t.labels, keys[0]) >= 1.0;
    forall k
      ensures multiset(keys)[k] <= multiset(keys)[t.chosen]
    {
      assert Count(t.labels, k) <= t.max;
    }
  }
}
