/**
 * k-nearest-neighbours with vector targets (knn/knn.go). The model remembers
 * every training point; a prediction sorts that memory by distance to the
 * query, in place, and lets the K nearest vote on each target component.
 *
 * `floats.Norm(v, p)` is the parameter `lpNorm`, and a weight callback sees the
 * model's Norm, the query and the neighbour's features.
 */
module Knn {
  import opened Common
  import opened Floats
  import opened Sorting
  import opened Voting

  /** A WeightCalculator: the weight of a neighbour's vote. */
  type Weigher = (real, seq<real>, seq<real>) -> real

  /** MajorVoting: every neighbour weighs 1. */
  function MajorVoting(norm: real, current: seq<real>, neighbor: seq<real>): (w: real)
    ensures w == 1.0
  {
    1.0
  }

  /** The weigher Predict uses: the model's, or MajorVoting when it has none. */
  function WeigherOf(weightCalculator: Option<Weigher>): Weigher
  {
    if weightCalculator.Some? then weightCalculator.value else MajorVoting
  }

  /** The distance Predict sorts by: the `norm`-norm of the query minus the point's features. */
  function Gap(features: seq<real>, lpNorm: (seq<real>, real) -> real, norm: real): Sample -> real
  {
    (m: Sample) => if |m.features| == |features| then lpNorm(Minus(features, m.features), norm) else 0.0
  }

  /** Component `i` of the neighbours' targets. */
  function Labels(neighbors: seq<Sample>, i: nat): (keys: seq<real>)
    requires forall j | 0 <= j < |neighbors| :: i < |neighbors[j].target|
    ensures |keys| == |neighbors| && forall j | 0 <= j < |neighbors| :: keys[j] == neighbors[j].target[i]
  {
    seq(|neighbors|, j requires 0 <= j < |neighbors| => neighbors[j].target[i])
  }

  /** The neighbours' weights, each computed once from the query and its features. */
  function Weights(neighbors: seq<Sample>, weigher: Weigher, norm: real, features: seq<real>): (ws: seq<real>)
    ensures |ws| == |neighbors|
    ensures forall j | 0 <= j < |neighbors| :: ws[j] == weigher(norm, features, neighbors[j].features)
  {
    seq(|neighbors|, j requires 0 <= j < |neighbors| => weigher(norm, features, neighbors[j].features))
  }

  /** Every target has the first one's length. */
  predicate SameTargetLength(points: seq<Sample>)
  {
    forall j | 0 <= j < |points| :: |points[j].target| == |points[0].target|
  }

  /** The vote on every component of the first neighbour's target, each starting from that neighbour's value. */
  function Vote(neighbors: seq<Sample>, weights: seq<real>): (chosen: seq<real>)
    requires |neighbors| > 0 && SameTargetLength(neighbors) && |weights| == |neighbors|
    ensures |chosen| == |neighbors[0].target|
  {
    seq(|neighbors[0].target|, i requires 0 <= i < |neighbors[0].target| =>
      Winner(Labels(neighbors, i), weights, neighbors[0].target[i]))
  }

  class Model {
    var memory: seq<Sample>
    const k: int
    const norm: real
    const weightCalculator: Option<Weigher>

    constructor (k: int, norm: real, weightCalculator: Option<Weigher>)
      ensures memory == [] && this.k == k && this.norm == norm && this.weightCalculator == weightCalculator
    {
      memory := [];
      this.k := k;
      this.norm := norm;
      this.weightCalculator := weightCalculator;
    }

    /** Train: ErrDatasetEmpty for no points, which leaves the memory alone; otherwise the points are appended. */
    method Train(dataset: seq<Sample>) returns (err: Outcome)
      modifies this
      ensures |dataset| == 0 ==> err == Fail(DatasetEmpty) && memory == old(memory)
      ensures |dataset| > 0 ==> err == Pass && memory == old(memory) + dataset
    {
      if |dataset| == 0 {
        return Fail(DatasetEmpty);
      }
      for i := 0 to |dataset|
        invariant memory == old(memory) + dataset[..i]
      {
        memory := memory + [dataset[i]];
      }
      return Pass;
    }

    /**
     * What Predict needs once the feature count matches: K within the memory
     * (it slices `memory[:K]` and reads `neighbors[0]`), points whose features
     * the distance can be taken against whenever the sort compares any, and
     * targets of one length.
     */
    predicate Predictable(features: seq<real>)
      reads this
    {
      && 1 <= k <= |memory|
      && (|memory| > 1 ==> forall j | 0 <= j < |memory| :: |memory[j].features| == |features|)
      && SameTargetLength(memory)
    }

    /**
     * Predict: ErrIncompatibleDataAndModel when the query's length differs from
     * the first remembered point's feature count; otherwise the memory is
     * reordered by distance to the query and the first K points vote.
     */
    method Predict(features: seq<real>, lpNorm: (seq<real>, real) -> real) returns (r: Result<seq<real>>)
      requires |memory| > 0
      requires |features| == |memory[0].features| ==> Predictable(features)
      modifies this
      ensures |features| != |old(memory)[0].features| ==>
        r == Err(IncompatibleDataAndModel(|old(memory)[0].features|, |features|)) && memory == old(memory)
      ensures |features| == |old(memory)[0].features| ==>
        && |memory| == |old(memory)|
        && multiset(memory) == multiset(old(memory))
        && SortedBy(memory, Gap(features, lpNorm, norm))
        && SameTargetLength(memory)
        && r == Ok(Vote(memory[..k], Weights(memory[..k], WeigherOf(weightCalculator), norm, features)))
    {
      var featuresCount := |memory[0].features|;
      if featuresCount != |features| {
        return Err(IncompatibleDataAndModel(featuresCount, |features|));
      }
      memory := SortByKey(memory, Gap(features, lpNorm, norm));
      SameTargetLengthReordered(old(memory), memory);
      var neighbors := memory[..k];
      var chosen := neighbors[0].target;
      var weigher: Weigher := if weightCalculator.Some? then weightCalculator.value else MajorVoting;
      ghost var weights := Weights(neighbors, weigher, norm, features);
      var tallies := seq(|chosen|, i requires 0 <= i < |chosen| => Tally(map[], 0.0, chosen[i]));
      for n := 0 to |neighbors|
        invariant |tallies| == |chosen|
        invariant forall i | 0 <= i < |chosen| ::
          tallies[i] == Poll(Labels(neighbors, i), weights, n, chosen[i])
      {
        var neighborTarget := neighbors[n].target;
        var weight := weigher(norm, features, neighbors[n].features);
        for i := 0 to |tallies|
          invariant |tallies| == |chosen|
          invariant forall i' | 0 <= i' < i ::
            tallies[i'] == Poll(Labels(neighbors, i'), weights, n + 1, chosen[i'])
          invariant forall i' | i <= i' < |chosen| ::
            tallies[i'] == Poll(Labels(neighbors, i'), weights, n, chosen[i'])
        {
          assert Labels(neighbors, i)[n] == neighborTarget[i];
          tallies := tallies[i := Cast(tallies[i], neighborTarget[i], weight)];
        }
      }
      var result := seq(|tallies|, i requires 0 <= i < |tallies| => tallies[i].chosen);
      assert result == Vote(neighbors, weights);
      return Ok(result);
    }
  }

  /** Reordering keeps the targets' common length. */
  lemma SameTargetLengthReordered(before: seq<Sample>, after: seq<Sample>)
    requires |before| > 0 && SameTargetLength(before)
    requires multiset(after) == multiset(before)
    ensures |after| == |before| && SameTargetLength(after)
    ensures forall j | 0 <= j < |after| :: |after[j].target| == |before[0].target|
  {
    assert |after| == |multiset(after)| == |multiset(before)| == |before|;
    forall j | 0 <= j < |after|
      ensures |after[j].target| == |before[0].target|
    {
      assert after[j] in multiset(before);
    }
  }

  /** With MajorVoting, each component of the prediction is a most frequent value among the neighbours. */
  lemma MajorVotingPicksMostFrequent(neighbors: seq<Sample>, norm: real, features: seq<real>, i: nat)
    requires |neighbors| > 0 && SameTargetLength(neighbors) && i < |neighbors[0].target|
    ensures
      var chosen := Vote(neighbors, Weights(neighbors, MajorVoting, norm, features))[i];
      && chosen in Labels(neighbors, i)
      && forall v :: multiset(Labels(neighbors, i))[v] <= multiset(Labels(neighbors, i))[chosen]
  {
    MajorityWins(Labels(neighbors, i), Weights(neighbors, MajorVoting, norm, features), neighbors[0].target[i]);
  }

  /**
   * DistanceWeight: a neighbour weighs its `norm`-norm distance from the query, with
   * floats.Norm passed in as `lpNorm`. floats.SubTo panics on a length
   * mismatch; Predict only weighs points whose features match the query's.
   */
  function DistanceWeight(lpNorm: (seq<real>, real) -> real): (weigh: Weigher)
    ensures forall norm: real, current: seq<real>, neighbor: seq<real> | |current| == |neighbor| ::
      weigh(norm, current, neighbor) == lpNorm(Minus(current, neighbor), norm)
    ensures forall norm: real, features: seq<real>, m: Sample ::
      weigh(norm, features, m.features) == Gap(features, lpNorm, norm)(m)
  {
    (norm: real, current: seq<real>, neighbor: seq<real>) =>
      if |current| == |neighbor| then lpNorm(Minus(current, neighbor), norm) else 0.0
  }

  /** Under DistanceWeight the weights follow the sort: no neighbour weighs less than a nearer one. */
  lemma DistanceWeightsAscend(neighbors: seq<Sample>, lpNorm: (seq<real>, real) -> real, norm: real, features: seq<real>)
    requires SortedBy(neighbors, Gap(features, lpNorm, norm))
    ensures var ws := Weights(neighbors, DistanceWeight(lpNorm), norm, features);
      forall i, j | 0 <= i < j < |neighbors| :: ws[i] <= ws[j]
  {
    var ws := Weights(neighbors, DistanceWeight(lpNorm), norm, features);
    assert forall i | 0 <= i < |neighbors| :: ws[i] == Gap(features, lpNorm, norm)(neighbors[i]);
  }
}
