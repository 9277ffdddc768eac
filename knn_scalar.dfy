/**
 * k-nearest-neighbours with one number as the target (models/knn.go): the
 * same memory, sort and strict-maximum vote as `Knn`, on a scalar label.
 */
module ScalarKnn {
  import opened Common
  import opened Floats
  import opened Sorting
  import opened Voting

  /** A data point of this model: features and a scalar target. */
  datatype ScalarSample = ScalarSample(features: seq<real>, target: real)

  /** A KNNWeigher: the weight of a neighbour's vote, from the model's Norm, the query and the neighbour's features. */
  type KnnWeigher = (real, seq<real>, seq<real>) -> real

  /** KNN_MajorVoting: every neighbour weighs 1. */
  function KnnMajorVoting(norm: real, current: seq<real>, neighbor: seq<real>): (w: real)
    ensures w == 1.0
  {
    1.0
  }

  /** The distance Predict sorts by: the `norm`-norm of the query minus the point's features. */
  function Gap(features: seq<real>, lpNorm: (seq<real>, real) -> real, norm: real): ScalarSample -> real
  {
    (m: ScalarSample) => if |m.features| == |features| then lpNorm(Minus(features, m.features), norm) else 0.0
  }

  /** The neighbours' targets, in order. */
  function Targets(neighbors: seq<ScalarSample>): (keys: seq<real>)
    ensures |keys| == |neighbors| && forall j | 0 <= j < |neighbors| :: keys[j] == neighbors[j].target
  {
    seq(|neighbors|, j requires 0 <= j < |neighbors| => neighbors[j].target)
  }

  /** The neighbours' weights, each computed from the query and its features. */
  function Weights(neighbors: seq<ScalarSample>, weigher: KnnWeigher, norm: real, features: seq<real>): (ws: seq<real>)
    ensures |ws| == |neighbors|
    ensures forall j | 0 <= j < |neighbors| :: ws[j] == weigher(norm, features, neighbors[j].features)
  {
    seq(|neighbors|, j requires 0 <= j < |neighbors| => weigher(norm, features, neighbors[j].features))
  }

  class KnnModel {
    var memory: seq<ScalarSample>
    const k: int
    const norm: real
    const weightCalculator: Option<KnnWeigher>

    constructor (k: int, norm: real, weightCalculator: Option<KnnWeigher>)
      ensures memory == [] && this.k == k && this.norm == norm && this.weightCalculator == weightCalculator
    {
      memory := [];
      this.k := k;
      this.norm := norm;
      this.weightCalculator := weightCalculator;
    }

    /** Train: ErrDatasetEmpty for no points, which leaves the memory alone; otherwise the points are appended. */
    method Train(dataset: seq<ScalarSample>) returns (err: Outcome)
      modifies this
      ensures |dataset| == 0 ==> err == Fail(DatasetEmpty) && memory == old(memory)
      ensures |dataset| > 0 ==> err == Pass && memory == old(memory) + dataset
    {
      if |dataset| == 0 {
        return Fail(DatasetEmpty);
      }
      for i := 0 to |dataset|
        invariant memory == old(memory) + dataset[..i]
      {
        memory := memory + [dataset[i]];
      }
      return Pass;
    }

    /** What Predict needs once the feature count matches: K within the memory, and comparable features when the sort compares. */
    predicate Predictable(features: seq<real>)
      reads this
    {
      && 1 <= k <= |memory|
      && (|memory| > 1 ==> forall j | 0 <= j < |memory| :: |memory[j].features| == |features|)
    }

    /**
     * Predict: ErrIncompatibleDataAndModel on a feature-count mismatch with the
     * first remembered point; otherwise the memory is reordered by distance and
     * the first K points vote, starting from the nearest one's target.
     */
    method Predict(features: seq<real>, lpNorm: (seq<real>, real) -> real) returns (r: Result<real>)
      requires |memory| > 0
      requires |features| == |memory[0].features| ==> Predictable(features)
      modifies this
      ensures |features| != |old(memory)[0].features| ==>
        r == Err(IncompatibleDataAndModel(|old(memory)[0].features|, |features|)) && memory == old(memory)
      ensures |features| == |old(memory)[0].features| ==>
        && |memory| == |old(memory)|
        && multiset(memory) == multiset(old(memory))
        && SortedBy(memory, Gap(features, lpNorm, norm))
        && r == Ok(Winner(Targets(memory[..k]), Weights(memory[..k], WeigherOf(weightCalculator), norm, features), memory[0].target))
    {
      var featuresCount := |memory[0].features|;
      if featuresCount != |features| {
        return Err(IncompatibleDataAndModel(featuresCount, |features|));
      }
      memory := SortByKey(memory, Gap(features, lpNorm, norm));
      assert |memory| == |multiset(memory)| == |multiset(old(memory))| == |old(memory)|;
      var neighbors := memory[..k];
      var weigher: KnnWeigher := if weightCalculator.Some? then weightCalculator.value else KnnMajorVoting;
      ghost var keys := Targets(neighbors);
      ghost var weights := Weights(neighbors, weigher, norm, features);
      var tally := Tally(map[], 0.0, neighbors[0].target);
      for n := 0 to |neighbors|
        invariant tally == Poll(keys, weights, n, neighbors[0].target)
      {
        var key := neighbors[n].target;
        tally := Cast(tally, key, weigher(norm, features, neighbors[n].features));
      }
      return Ok(tally.chosen);
    }
  }

  /** The weigher Predict uses: the model's, or KNN_MajorVoting when it has none. */
  function WeigherOf(weightCalculator: Option<KnnWeigher>): KnnWeigher
  {
    if weightCalculator.Some? then weightCalculator.value else KnnMajorVoting
  }

  /** With KNN_MajorVoting the prediction is a most frequent target among the neighbours. */
  lemma MajorVotingPicksMostFrequent(neighbors: seq<ScalarSample>, norm: real, features: seq<real>)
    requires |neighbors| > 0
    ensures
      var chosen := Winner(Targets(neighbors), Weights(neighbors, KnnMajorVoting, norm, features), neighbors[0].target);
      && chosen in Targets(neighbors)
      && forall v :: multiset(Targets(neighbors))[v] <= multiset(Targets(neighbors))[chosen]
  {
    MajorityWins(Targets(neighbors), Weights(neighbors, KnnMajorVoting, norm, features), neighbors[0].target);
  }

  /** When no weight is positive, no tally exceeds 0 and the prediction is the nearest neighbour's target. */
  lemma NoPositiveWeightGivesNearest(neighbors: seq<ScalarSample>, weigher: KnnWeigher, norm: real, features: seq<real>)
    requires |neighbors| > 0
    requires forall j | 0 <= j < |neighbors| :: weigher(norm, features, neighbors[j].features) <= 0.0
    ensures Winner(Targets(neighbors), Weights(neighbors, weigher, norm, features), neighbors[0].target) == neighbors[0].target
  {
    NoPositiveTallyKeepsFirst(Targets(neighbors), Weights(neighbors, weigher, norm, features), |neighbors|, neighbors[0].target);
  }

  /**
   * KNN_DistanceWeight: a neighbour weighs its `norm`-norm distance from the query, with
   * floats.Norm passed in as `lpNorm`. floats.SubTo panics on a length
   * mismatch; Predict only weighs points whose features match the query's.
   */
  function KnnDistanceWeight(lpNorm: (seq<real>, real) -> real): (weigh: KnnWeigher)
    ensures forall norm: real, current: seq<real>, neighbor: seq<real> | |current| == |neighbor| ::
      weigh(norm, current, neighbor) == lpNorm(Minus(current, neighbor), norm)
    ensures forall norm: real, features: seq<real>, m: ScalarSample ::
      weigh(norm, features, m.features) == Gap(features, lpNorm, norm)(m)
  {
    (norm: real, current: seq<real>, neighbor: seq<real>) =>
      if |current| == |neighbor| then lpNorm(Minus(current, neighbor), norm) else 0.0
  }

  /** Under KnnDistanceWeight the weights follow the sort: no neighbour weighs less than a nearer one. */
  lemma DistanceWeightsAscend(neighbors: seq<ScalarSample>, lpNorm: (seq<real>, real) -> real, norm: real, features: seq<real>)
    requires SortedBy(neighbors, Gap(features, lpNorm, norm))
    ensures var ws := Weights(neighbors, KnnDistanceWeight(lpNorm), norm, features);
      forall i, j | 0 <= i < j < |neighbors| :: ws[i] <= ws[j]
  {
    var ws := Weights(neighbors, KnnDistanceWeight(lpNorm), norm, features);
    assert forall i | 0 <= i < |neighbors| :: ws[i] == Gap(features, lpNorm, norm)(neighbors[i]);
  }
}
