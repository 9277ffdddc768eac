# mygoml core, modelled in Dafny

This project models the core of **mygoml**, a small machine-learning toolkit
written in Go, and proves properties of the model. It covers:

- **Gradient descent** (`graddesc/`):
  - the objective `Function` and its `Run`;
  - the three epoch providers (batch, mini-batch and stochastic) with their callbacks;
  - the plain, momentum and Nesterov (NAG) update rules;
  - `Optimizer.Optimize`, the loop of epochs with its zero-gradient probe.
- **k-means clustering** (`kmeans/kmeans.go` and its copy `models/kmeans.go`):
  - clusters as objects whose members and centre change in place;
  - nearest-centre assignment, mean update and the convergence test.
  - The two files are the same apart from names (`Cluster`/`KMeansCluster`, `Model`/`KMeansModel`, a value receiver on `Members` in `models/kmeans.go`) and the distance: gonum's `floats.Distance(_, _, 2)` in one, `distance` (`models/helpers.go`) in the other. Both compute the square root of the sum of squared differences, so one model serves both, and its table rows cite both files.
- **k-nearest neighbours**:
  - `knn/knn.go`, with vector targets;
  - `models/knn.go`, with a scalar target.
  - Both keep a memory, sort it by distance to the query, and let the first K points vote. The vote keeps a running strict maximum.
- **The perceptron** (`perceptron/perceptron.go`): training through the gradient-descent engine, and prediction by the sign of `W^T (features, 1)`.
- **Helpers**:
  - `ConvertSupervisedDataset` (`helpers/conversion.go`);
  - `Equal` with its tolerance (`helpers.go`);
  - `Accuracy` (`supervised.go`).

## How values and effects are modelled

- **Numbers.**
  - `float64` is modelled as `real`.
  - A square root is kept symbolic as `Sqrt(radicand)`. Distances compare by radicand, which orders them exactly as the roots would.
  - `floats.Norm` is a function parameter `lpNorm`.
- **Matrices.** A gonum matrix is the sequence of its rows. `mat.NewDense(r, c, data)` is `Dense`, `m.T()` is `Transpose`, and `mat.Col` is `Col`.
- **State changed in place.** Code that changes state in place is written as Dafny classes and methods with `modifies` clauses:
  - `Cluster`, the kNN models, `Perceptron`;
  - the update rules, and the optimiser working on an `array<real>`.
  - Each method is proved against a function that describes its result.
- **Closures.**
  - The variables that the provider callbacks close over (the perceptron's `W` and `classifiedY`) live in one `Captured` object.
  - A creator closure is a `Creator` value. It is resolved when the source would call it, so it sees what earlier callbacks changed.
- **Randomness.** `rand.Perm` and `rand.Float64` become parameters:
  - the stochastic provider's permutations;
  - k-means' seed permutation;
  - the perceptron's start weights.
- **Errors.**
  - An error return becomes a `Result`/`Outcome` value.
  - A panic becomes a precondition.
  - `Accuracy` on empty input divides 0 by 0, which gives NaN in Go. It returns `None` here.

## Model

The KMeans rows cite kmeans/kmeans.go. The same functions in models/kmeans.go sit two lines earlier (for example, findBestCluster is models/kmeans.go:53-64), and each member models both copies. Likewise, a Voting or Sorting row about knn/knn.go also covers the scalar vote and sort of models/knn.go:54-75. The provider callbacks cited for one provider (OnEpochEnd, AfterUpdate, Funcs) behave the same for the others (graddesc/providers.go:15-20, 43-53, 62-82).

| member | source | states |
|---|---|---|
| Helpers.Equal | helpers.go:11-16 | true exactly when `a` and `b` differ by strictly less than `Epsilon` (1e-5, line 9), in either direction |
| Helpers.EqualReflexive | helpers.go:11-16 | every value is Equal to itself when the tolerance is positive |
| Helpers.EqualSymmetric | helpers.go:11-16 | Equal does not depend on argument order |
| Helpers.EqualBoundary | helpers.go:12 | the comparison is strict: a difference of exactly `Epsilon` is not equal, and a value equals itself only under a positive tolerance |
| Supervised.Accuracy | supervised.go:17-30 | panics on a length mismatch (a precondition); no result (NaN) exactly for empty input; otherwise the Equal count over the length, times 100, which lies in [0, 100] |
| Supervised.PercentBounds | supervised.go:29 | a count over a larger total, times 100, lies in [0, 100] |
| Supervised.AllEqualCounted | supervised.go:22-28 | when every pair is Equal, every pair is counted |
| Supervised.NoneEqualCounted | supervised.go:22-28 | when no pair is Equal, the count is 0 |
| Supervised.AllEqualIsHundred | supervised.go:17-30 | predictions that all match score 100 |
| Supervised.NoneEqualIsZero | supervised.go:17-30 | predictions that all miss score 0 |
| Supervised.SelfAccuracy | supervised.go:17-30 | a non-empty sequence compared with itself scores 100 for a positive tolerance |
| Matrices.Dense | helpers/conversion.go:23-29 | `mat.NewDense(r, c, data)`: r rows of c entries whose row-major flattening is `data` |
| Matrices.FlattenAppend | helpers/conversion.go:16-20 | appending a row to a matrix appends its entries to the flattened data |
| Matrices.DenseOfFlatten | helpers/conversion.go:23-29 | cutting the flattened data of an r×c matrix back into rows gives the matrix: NewDense inverts flattening |
| Matrices.TransposeTwice | helpers/conversion.go:30 | transposing twice gives the matrix back |
| Conversion.ConvertSupervisedDataset | helpers/conversion.go:10-31 | X is features×points and Y is targets×points; each is the transpose of NewDense over the concatenated rows |
| Conversion.DataIsFlattenedRows | helpers/conversion.go:15-21 | the loop's `xdata` and `ydata` are the points' rows and targets back to back |
| Conversion.UniformColumns | helpers/conversion.go:10-31 | when all points have the first point's feature and target counts, the conversion can run; column j of X is point j's features plus the bias; column j of Y is point j's target |
| Distances.Distance | models/helpers.go:5-14 | panics on a length mismatch (a precondition); otherwise the square root of the sum of squared differences, whose radicand is non-negative |
| Distances.DistanceToSelf | models/helpers.go:9-12 | a point is at distance 0 from itself |
| Distances.DistanceSymmetric | models/helpers.go:9-12 | the distance does not depend on argument order |
| KMeans.NearestIsClosestFirst | kmeans/kmeans.go:55-66 | the chosen centre is a closest one, and no earlier centre is as close: ties go to the lowest index |
| KMeans.ClosestFirstUnique | kmeans/kmeans.go:55-66 | at most one centre is closest with no equally close predecessor, so that rule fixes the choice |
| KMeans.AssignedCountStep | kmeans/kmeans.go:68-73 | a point raises the count of the first m clusters exactly when its nearest centre is one of them |
| KMeans.AssignmentPartitions | kmeans/kmeans.go:68-73 | every point goes to exactly one cluster: the cluster sizes add up to the number of points |
| KMeans.ZeroPointsNoMembers | kmeans/kmeans.go:68-73 | with no points, no cluster receives anything |
| KMeans.ColumnSumOfCopies | kmeans/kmeans.go:80-86 | summing n copies of a coordinate gives n times it |
| KMeans.MeanOfCopies | kmeans/kmeans.go:75-92 | the mean of copies of one point is that point |
| KMeans.CloseFrom | kmeans/kmeans.go:115-119 | the loop of sameCenter from coordinate i holds exactly when each later coordinate differs by at most the tolerance 1e-7 |
| KMeans.SameCenter | kmeans/kmeans.go:111-121 | true exactly for equal lengths with every coordinate within 1e-7 |
| KMeans.InsideFrom | kmeans/kmeans.go:123-130 | the scan from position i finds a match exactly when some later centre is the same |
| KMeans.CenterInsideSet | kmeans/kmeans.go:123-130 | true exactly when some centre of the list is the same as the given one |
| KMeans.InsideByWitness | kmeans/kmeans.go:123-130 | one matching centre is enough for centerInsideSet |
| KMeans.AllInsideFrom | kmeans/kmeans.go:136-145 | one loop of sameCenterSet from position i holds exactly when each later centre is inside the other list |
| KMeans.SameCenterSet | kmeans/kmeans.go:132-147 | true exactly for equal lengths where each side's every centre matches one on the other side |
| KMeans.SameCenterSymmetric | kmeans/kmeans.go:111-121 | sameCenter does not depend on argument order |
| KMeans.SameCenterSetSymmetric | kmeans/kmeans.go:132-147 | sameCenterSet does not depend on which list is old and which new |
| KMeans.SameCenterSetReflexive | kmeans/kmeans.go:132-147 | a list of centres matches itself, so unchanged centres stop Clustering |
| KMeans.InsideReordered | kmeans/kmeans.go:123-130 | centerInsideSet depends only on the multiset of centres, not their order |
| KMeans.EveryInsideReordered | kmeans/kmeans.go:132-147 | reordering the centres being checked keeps every one inside |
| KMeans.SameCenterSetReordered | kmeans/kmeans.go:132-147 | reordering either list does not change sameCenterSet's answer |
| KMeans.Cluster.constructor | kmeans/kmeans.go:48-49 | a new cluster has the seed centre and no members |
| KMeans.Cluster.Add | kmeans/kmeans.go:22-24 | appends the point to the members and leaves the centre alone |
| KMeans.Cluster.Reset | kmeans/kmeans.go:26-28 | empties the members and leaves the centre alone |
| KMeans.Cluster.Members | kmeans/kmeans.go:30-36 | the copy holds exactly the members, in order |
| KMeans.Centers | kmeans/kmeans.go:103-109 | getCenters: the clusters' centres, one per cluster, in order |
| KMeans.AssignedListsCount | kmeans/kmeans.go:68-73 | lists that are the assignment hold every point exactly once in total |
| KMeans.FindBestCluster | kmeans/kmeans.go:55-66 | returns the cluster at the index of the strict-minimum scan over the centres |
| KMeans.AddToBest | kmeans/kmeans.go:69-72 | one pass of the loop: the point joins the cluster of its nearest centre and no other; centres unchanged |
| KMeans.AddMembersToClusters | kmeans/kmeans.go:68-73 | centres unchanged; each cluster's members grow by exactly the points whose nearest centre is its own, in dataset order |
| KMeans.CalculateNewCenter | kmeans/kmeans.go:75-92 | nil exactly for no members; otherwise the componentwise mean, summed into a copy of the first member's coordinates |
| KMeans.UpdateClustersCenters | kmeans/kmeans.go:94-101 | members unchanged; a cluster with members moves to their mean, an empty one keeps its centre |
| KMeans.ResetClusters | kmeans/kmeans.go:149-153 | every cluster loses its members; centres unchanged |
| KMeans.CreateRandomClusters | kmeans/kmeans.go:42-53 | clusterCount fresh, pairwise distinct clusters, with no members, seeded with the features of the points the permutation's first entries name |
| KMeans.SeedsDistinct | kmeans/kmeans.go:46 | the seed points are pairwise different data points |
| KMeans.Iterate | kmeans/kmeans.go:161-175 | one pass of the loop: members are the assignment to the old centres, each centre moves to its new mean (or stays), and the answer is sameCenterSet(new, old) |
| KMeans.SettledHoldsEveryPoint | kmeans/kmeans.go:160-176 | after a pass, the clusters' members together hold every point exactly once |
| KMeans.Step | kmeans/kmeans.go:164-170 | one pass moves every centre, and only centres: the list keeps its length and the data's dimension |
| KMeans.Moved | kmeans/kmeans.go:94-101 | where one pass moves a centre keeps the data's dimension |
| KMeans.Iter | kmeans/kmeans.go:160-176 | any number of passes keeps the number of centres and their dimension |
| KMeans.IterLast | kmeans/kmeans.go:160-176 | `n + 1` passes are one pass after `n` passes |
| KMeans.NoPasses | kmeans/kmeans.go:158-160 | before the loop the centres are the seeds and the loop has not stopped |
| KMeans.SettledCenters | kmeans/kmeans.go:161-170 | clusters settled by a pass sit exactly at the centres that pass computes from the old ones |
| KMeans.StoppedNext | kmeans/kmeans.go:171-174 | a loop still running after `n` passes stops after pass `n + 1` exactly when that pass leaves the centre set the same |
| KMeans.PassAdvances | kmeans/kmeans.go:160-176 | after one more pass the clusters sit at the centres after `n + 1` passes, and the loop stops there exactly when sameCenterSet(new, old) holds |
| KMeans.UnmovedConverges | kmeans/kmeans.go:171-174 | a pass that does not move the centres ends a loop still running |
| KMeans.ConvergedPassUnique | kmeans/kmeans.go:160-176 | the loop can stop on convergence after one number of passes only |
| KMeans.Pass | kmeans/kmeans.go:161-175 | the loop body: the clusters go from the centres after `n` passes to those after `n + 1`, settled from the former, and the answer says whether the loop stops at the first converging pass |
| KMeans.Converge | kmeans/kmeans.go:160-176 | the centres on exit are those after `passes` passes from the centres on entry; no earlier pass converged, and `converged` says whether the last did; the loop ends early only on convergence, otherwise when the fuel runs out; after a pass, each cluster's members are the points nearest the centre the last pass started from, and its centre is their mean, or that centre when it has none |
| KMeans.Seeds | kmeans/kmeans.go:42-53 | the seed centres are `clusterCount` of the points, those the permutation's first entries name |
| KMeans.Clustering | kmeans/kmeans.go:155-183 | accepts any cluster count up to the number of points, and zero clusters for no points; returns that many distinct fresh clusters; their centres are those after `passes` passes from the seeds the permutation picks; no earlier pass converged, and the loop ends early only on convergence, otherwise when the fuel runs out; after a pass, members are the assignment to the previous centres, centres are their means, and the members hold every point exactly once |
| Sorting.SortByKey | knn/knn.go:52-56 | `sort.Slice` by distance: a reordering of the memory with non-decreasing distances |
| Voting.Cast | knn/knn.go:69-80 | one vote adds the weight to the label's tally; the label is chosen only if its tally is now strictly above the maximum, which never decreases |
| Voting.PluralityWins | knn/knn.go:60-80 | with non-negative weights, once any tally is positive the chosen label has the largest tally |
| Voting.NoPositiveTallyKeepsFirst | knn/knn.go:59-64 | with no positive weight, the vote keeps the nearest neighbour's label and a maximum of 0 |
| Voting.UnitWeightsCount | knn/knn.go:69-80 | with unit weights, a label's tally is the number of neighbours that carry it |
| Voting.MajorityWins | knn/knn.go:60-80 | with unit weights, the winner is one of the neighbours' labels and among the most frequent |
| Knn.MajorVoting | knn/knn.go:11-13 | every neighbour weighs 1 |
| Knn.DistanceWeight | knn/knn.go:15-19 | for a neighbour whose features match the query's length, the weight is the `Norm`-norm of their difference, the same key Predict sorts the memory by |
| Knn.DistanceWeightsAscend | knn/knn.go:15-19 | because the neighbours are sorted by that same distance, their DistanceWeight weights never decrease: farther neighbours weigh at least as much |
| Knn.Model.constructor | knn/knn.go:21-26 | an empty memory with the given K, Norm and weigher |
| Knn.Model.Train | knn/knn.go:28-38 | ErrDatasetEmpty with the memory untouched when there are no points; otherwise the points are appended in order |
| Knn.Model.Predict | knn/knn.go:40-83 | ErrIncompatibleDataAndModel(expected, got) on a feature-count mismatch with the first remembered point, memory untouched; otherwise the memory is reordered by distance, and the result is the per-component vote of the first K points, starting from the nearest one's target |
| Knn.SameTargetLengthReordered | knn/knn.go:52-56 | reordering the memory keeps every target of one length |
| Knn.MajorVotingPicksMostFrequent | knn/knn.go:11-13 | under MajorVoting, each predicted component is a most frequent value among the neighbours |
| ScalarKnn.KnnMajorVoting | models/knn.go:13-15 | every neighbour weighs 1 |
| ScalarKnn.KnnDistanceWeight | models/knn.go:17-21 | for a neighbour whose features match the query's length, the weight is the `Norm`-norm of their difference, the same key Predict sorts the memory by |
| ScalarKnn.DistanceWeightsAscend | models/knn.go:17-21 | sorted neighbours' distance weights never decrease |
| ScalarKnn.KnnModel.constructor | models/knn.go:23-28 | an empty memory with the given K, Norm and weigher |
| ScalarKnn.KnnModel.Train | models/knn.go:30-40 | ErrDatasetEmpty with the memory untouched for no points; otherwise the points are appended |
| ScalarKnn.KnnModel.Predict | models/knn.go:42-78 | ErrIncompatibleDataAndModel on a feature-count mismatch, memory untouched; otherwise the memory is reordered by distance and the result is the vote of the first K targets, starting from the nearest one's |
| ScalarKnn.MajorVotingPicksMostFrequent | models/knn.go:13-15 | under KNN_MajorVoting the prediction is one of the most frequent targets among the neighbours |
| ScalarKnn.NoPositiveWeightGivesNearest | models/knn.go:61-75 | when no weight is positive, the prediction is the nearest neighbour's target |
| GradDesc.Run | graddesc/gradient_descent.go:20-26 | panics on a wrong input size (a precondition); otherwise the mapper's output |
| Updaters.Apply | graddesc/momentum_updater.go:11-20 | one Update of any rule on values: the point keeps its length; the rule's kind, gamma and start velocity are kept; a momentum or NAG velocity exists afterwards and has the point's length |
| Updaters.ResetState | graddesc/momentum_updater.go:22-25 | Reset: the velocity becomes the start velocity; gamma and the start velocity are kept |
| Updaters.CopyOf | graddesc/momentum_updater.go:23-24 | `make` and `copy`: a fresh array with the same entries |
| Updaters.ScaleInPlace | graddesc/momentum_updater.go:17 | `floats.Scale` in place: every entry multiplied by the factor |
| Updaters.AddThenSubtract | graddesc/momentum_updater.go:18-19 | the velocity gains the scaled gradient, then the point loses the new velocity |
| Updaters.BaseUpdater.Reset | graddesc/base_updater.go:13 | Reset changes nothing: the plain rule keeps no state |
| Updaters.BaseUpdater.Update | graddesc/base_updater.go:7-11 | the point becomes point minus learning rate times the gradient at the old point |
| Updaters.MomentumUpdater.constructor | graddesc/momentum_updater.go:5-9 | a zero-valued updater with a nil velocity |
| Updaters.MomentumUpdater.Update | graddesc/momentum_updater.go:11-20 | a nil velocity becomes zeros; velocity := gamma·v + rate·grad(x); x := x − velocity |
| Updaters.MomentumUpdater.Reset | graddesc/momentum_updater.go:22-25 | the velocity becomes a fresh copy of the start velocity |
| Updaters.NagUpdater.constructor | graddesc/nag_updater.go:5-9 | a zero-valued updater with a nil velocity |
| Updaters.NagUpdater.Update | graddesc/nag_updater.go:11-21 | velocity := gamma·v, gradient at x − velocity, velocity += rate·grad, x := x − velocity |
| Updaters.NagUpdater.Reset | graddesc/nag_updater.go:23-26 | the velocity becomes a fresh copy of the start velocity |
| Updaters.PlainStepAtZeroRate | graddesc/base_updater.go:7-11 | a learning rate of 0 leaves the point where it is |
| Updaters.ApplyAtZeroRate | graddesc/nag_updater.go:11-21 | with rate 0 and a velocity at rest, no rule moves the point, and the velocity stays at rest |
| Updaters.MomentumWithoutGamma | graddesc/momentum_updater.go:11-20 | with gamma 0, momentum moves the point exactly as the plain rule does |
| Updaters.NagWithoutGamma | graddesc/nag_updater.go:11-21 | with gamma 0, NAG looks ahead to the point itself and moves it as the plain rule does |
| Providers.Captured.constructor | perceptron/perceptron.go:64-67 | the captured variables start with the given value |
| Providers.IndexSlice.constructor | graddesc/providers.go:32 | the shared `indices` variable starts empty |
| Providers.BatchFuncs | graddesc/providers.go:15-17 | one creator, which yields the wrapped Function |
| Providers.EmitCountBeforeLast | graddesc/providers.go:34 | before the last position, a creator is appended at every positive multiple of the batch size |
| Providers.MiniBatchCreatorCount | graddesc/providers.go:30-41 | the number of creators: one per positive multiple of the batch size below TotalSize−1, plus one for the last position |
| Providers.MiniBatchFuncs | graddesc/providers.go:30-41 | that many creators, all closing over the same fresh `indices` variable, which ends holding [TotalSize−1] |
| Providers.StochasticFuncs | graddesc/providers.go:62-70 | TotalSize creators; creator k samples index k, whatever the permutation was |
| Providers.Yields | graddesc/providers.go:35 | a creator whose captured `indices` read as Funcs leaves them is the k-th step's objective, for every captured state |
| Providers.Funcs | graddesc/providers.go:15-17 | the dispatched Funcs: StepCount creators, the k-th yielding step k's objective |
| Providers.OnEpochEnd | graddesc/providers.go:43-47 | the captured variables change exactly as EpochEndFunc says; a nil callback changes nothing |
| Providers.AfterUpdate | graddesc/providers.go:49-53 | the captured variables change exactly as AfterUpdateFunc says; a nil callback changes nothing |
| Optimization.CanUpdateWhenShaped | graddesc/gradient_descent.go:72 | a gradient and velocity of the point's length let every rule update without a length mismatch |
| Optimization.StepOnce | graddesc/gradient_descent.go:68-74 | one step keeps the point's length and the rule's kind |
| Optimization.EpochSteps | graddesc/gradient_descent.go:67-75 | the first k steps of an epoch update at most k times |
| Optimization.EpochsFrom | graddesc/gradient_descent.go:65-81 | the epoch count never passes MaxStep once the loop has run |
| Optimization.Interval | graddesc/gradient_descent.go:54-56 | a non-positive check interval becomes 1; a positive one is kept |
| Optimization.Optimized | graddesc/gradient_descent.go:49-84 | the returned point has the start point's length; at most MaxStep epochs; MaxStep ≤ 0 returns the start point with no callback; the rule ends reset |
| Optimization.IdleSteps | graddesc/gradient_descent.go:67-75 | an epoch's first k steps update nothing exactly when the probe is on and all their gradients at the starting point are within 1e-7 of zero |
| Optimization.FirstEpochDecides | graddesc/gradient_descent.go:62-78 | with MaxStep > 0, Optimize completes no epoch exactly when the first epoch's gradients at the start point are all within 1e-7 of zero; it then returns the start point and runs no callback |
| Optimization.UnprobedEpochUpdates | graddesc/gradient_descent.go:69-74 | an epoch that does not probe updates at every step |
| Optimization.UnprobedEpochContinues | graddesc/gradient_descent.go:65-81 | the run never stops after an epoch that does not probe |
| Optimization.StepInStep | graddesc/gradient_descent.go:68-74 | a gamma-free momentum or NAG step moves the point as the plain step does |
| Optimization.EpochInStep | graddesc/gradient_descent.go:67-75 | the same holds for a whole epoch |
| Optimization.EpochsInStep | graddesc/gradient_descent.go:65-81 | the same holds for the loop of epochs |
| Optimization.GammaFreeRunsLikePlain | graddesc/gradient_descent.go:49-84 | momentum and NAG with gamma 0 optimise exactly as the plain rule: same point, captured variables and epoch count |
| Optimization.UpdateWith | graddesc/gradient_descent.go:72 | the dispatched Update changes the point and the rule's state as Apply says |
| Optimization.ResetWith | graddesc/gradient_descent.go:51 | the dispatched Reset leaves the rule in ResetState |
| Optimization.Resolve | graddesc/gradient_descent.go:68 | calling a creator reads the captured variables as they are now |
| Optimization.NotifyUpdate | graddesc/gradient_descent.go:73 | AfterUpdate changes only the captured variables, as the callback says |
| Optimization.UpdateAndNotify | graddesc/gradient_descent.go:72-73 | Update, then AfterUpdate with the new point |
| Optimization.RunStep | graddesc/gradient_descent.go:68-74 | one step of the inner loop agrees with StepOnce |
| Optimization.RunEpoch | graddesc/gradient_descent.go:66-75 | the inner loop agrees with Epoch, and `done` holds exactly when no step updated |
| Optimization.EndEpoch | graddesc/gradient_descent.go:79 | OnEpochEnd changes only the captured variables, as the callback says |
| Optimization.RunOuterStep | graddesc/gradient_descent.go:66-80 | one pass of the outer loop: fresh Funcs, the epoch, and OnEpochEnd unless nothing updated |
| Optimization.RunEpochs | graddesc/gradient_descent.go:65-81 | the outer loop agrees with EpochsFrom |
| Optimization.Prepare | graddesc/gradient_descent.go:51-63 | Reset, copy the start point into a fresh array, and size the zero vector by the first creator's gradient |
| Optimization.OptimizeWith | graddesc/gradient_descent.go:49-84 | the whole run agrees with Optimized |
| Optimization.Optimizer.constructor | graddesc/gradient_descent.go:36-42 | the optimiser's fields hold the given values |
| Optimization.Optimizer.Optimize | graddesc/gradient_descent.go:49-84 | the start point is copied, never written; a non-positive CheckInterval is set to 1 on the optimiser; the result, captured variables and rule state are Optimized's |
| Perceptron.ColumnMajor | perceptron/perceptron.go:19-29 | an r×c matrix read column by column has r·c entries, and cutting them into c rows of r gives the transpose |
| Perceptron.ToFloatSlice | perceptron/perceptron.go:19-29 | the loop over `m.T()` lists the matrix column by column |
| Perceptron.ColumnMajorOfOneColumn | perceptron/perceptron.go:19-29 | for a single column, column order and row order agree |
| Perceptron.OneColumnFlatten | perceptron/perceptron.go:19-29 | a one-column matrix flattens to its column |
| Perceptron.Gradient | perceptron/perceptron.go:41-58 | the closure ignores the weights it is given: it returns the same gradient for every `w`, of `len(xi)` entries when the signs agree and wr·wc otherwise |
| Perceptron.GradientAt | perceptron/perceptron.go:42-57 | `len(xi)` zeros when the sample is already classified with the right signs; otherwise wr·wc entries |
| Perceptron.CorrectionColumns | perceptron/perceptron.go:51-55 | column i of wMatrix is −trueyi[i]·xi, and the columns past trueyi are zero |
| Perceptron.GradientBlocks | perceptron/perceptron.go:42-57 | a misclassified sample's gradient, cut into blocks of wr, holds −trueyi[i]·xi in block i; a correctly classified one's is wr zeros |
| Perceptron.PerceptronRule | perceptron/perceptron.go:41-58 | with one target value and rate 1, a plain update adds trueyi·xi to the weights for a misclassified sample and leaves them alone otherwise: the perceptron rule |
| Perceptron.TransposeTimes | perceptron/perceptron.go:67 | `Mul(W.T(), X)`: entry (i, j) is column i of W dotted with column j of X |
| Perceptron.SignsAgree | perceptron/perceptron.go:108-114 | each prediction is 1 exactly for a positive score, −1 exactly for a negative one, and 0 exactly for a zero score |
| Perceptron.SignsIdempotent | perceptron/perceptron.go:108-114 | mapping predictions again changes nothing |
| Perceptron.ColumnDotPrefix | perceptron/perceptron.go:104-106 | entries past the summed rows do not change a column product |
| Perceptron.BiasIsLastRow | perceptron/perceptron.go:104-106 | the appended 1 makes the last weight row a bias: score i is the features' product plus W[last][i] |
| Perceptron.TrainingReady | perceptron/perceptron.go:68-91 | with one target value, every gradient has the weights' length, so Optimize can run on Train's provider |
| Perceptron.EpochGen | perceptron/perceptron.go:70-79 | objective `i` takes wr·wc inputs, has no mapper, and its gradient is built from column `i` of X, of classifiedY in the captured state at the call, and of Y |
| Perceptron.Resync | perceptron/perceptron.go:80-83 | for a point of wr·wc entries, W becomes that point cut into rows of `wc` (flattening it gives the point back) and classifiedY becomes WᵀX; a point of another length, which NewDense would reject, leaves the state as it was |
| Perceptron.TrainingGradient | perceptron/perceptron.go:70-78 | step k's objective is the gradient of sample k: column k of X, of classifiedY as it is now, and of Y |
| Perceptron.Perceptron.constructor | perceptron/perceptron.go:15-17 | a perceptron with no weights yet |
| Perceptron.Perceptron.Train | perceptron/perceptron.go:37-96 | returns nil; the weights are NewDense(wr, wc) over what Optimize returns with rate 1, 100 epochs and the plain rule, starting from the given weights, with classifiedY kept in step by AfterUpdateFunc |
| Perceptron.Perceptron.Predict | perceptron/perceptron.go:98-116 | ErrIncompatibleDataAndModel(r−1, len) unless there is one feature fewer than weight rows; otherwise the signs of W^T (features, 1) |

## Left out

- Reading data sets from files, the `cmd/` programs, printing and plotting are not modelled. They are I/O and callers of the core.
- Softmax regression, logistic regression and linear regression are not modelled. They are outside the core.
- `DeepEqual` and `FloatEqual` in `helpers.go` are not modelled. They are test helpers that report through `testing.T`.
- The `Epsilon` package variable is a parameter `epsilon` of `Equal` and `Accuracy`; `Helpers.DefaultEpsilon` holds its initial value. Reassigning the global is not modelled.
- Floating-point rounding, NaN and infinities are not modelled: numbers are exact reals.
  - `Supervised.Accuracy`: the NaN of an empty input is modelled as `None`.
- `math.Sqrt` is kept symbolic as `Sqrt(radicand)`. `floats.Norm` is a parameter, so no property of a particular p-norm is proved.
- Randomness is supplied by the caller:
  - `rand.Perm` in the stochastic provider and in `createRandomClusters`;
  - `rand.Float64` in the perceptron's start weights;
  - the time-based seeding in `init`.
  - `randomVector` (`graddesc/gradient_descent.go:28-34`) is not modelled: it is never called from the core.
- Data points are values. In the source, `Features()`/`Target()` may return a slice that the point itself holds; the `cmd/` implementations return fresh slices. The effects of a point returning its own slice are not modelled:
  - `calculateNewCenter` sums into the first member's slice in place, which would change that point;
  - kNN's `chosen[i] = key` writes into the nearest neighbour's target, which would change that point;
  - the perceptron's `append(features, 1)` may write into the caller's array.
- `KMeans.Clustering` and `KMeans.Converge`: the source loops until the centres stop moving, with no bound. The model takes a `fuel` bound on the number of passes and returns the number of passes made. It states which centres the run reaches and that it stops at the first converging pass, or when the fuel runs out. It does not state that convergence comes within any bound.
- `Sorting.SortByKey`: `sort.Slice` is not stable, and the source does not fix its order among equal distances. The model promises only a reordering with non-decreasing distances, so Predict's result is stated for the order the sort produced.
- `Knn.Model.Predict`: requires every remembered target to have the first target's length. The source indexes each neighbour's target by the first one's positions, and panics only when a shorter one is among the first K.
- `Knn.Model.Predict` and `ScalarKnn.KnnModel.Predict`: require every remembered point to have the query's feature count when there is more than one, and `1 <= K <= len(memory)`. The source panics otherwise, and only when the mismatched point is actually compared or weighed.
- `K`, `Norm` and `WeightCalculator` of the kNN models are fixed at construction. The source's exported fields could be reassigned between calls.
- The Optimizer's fields other than `CheckInterval` are fixed at construction. `Optimize` writes only `CheckInterval`.
- `Knn.Model.Predict` and `ScalarKnn.KnnModel.Predict`: the source hands the weight function the whole model (`knn/knn.go:25`, `models/knn.go:11`), so a user's weight function could read `K` or the memory (already sorted at that point). The model passes it only `Norm`; the two weight functions the repository defines read nothing else.
- `Updaters.BaseUpdater.Update`, `Updaters.MomentumUpdater.Update`, `Providers.AfterUpdate` and `Providers.OnEpochEnd`: two aliasings are not modelled. No caller in the repository writes through either alias, so the modelled runs are unaffected.
  - The plain and momentum rules scale the slice `f.Gradient` returned in place (`graddesc/base_updater.go:9`, `graddesc/momentum_updater.go:16`). Here the gradient is a value, so a gradient function that returns a slice it keeps would see it scaled in the source but not in the model.
  - `AfterUpdate` and `OnEpochEnd` receive the live point `x` (`graddesc/gradient_descent.go:73,79`), which a callback could write or keep. The perceptron's `AfterUpdateFunc` keeps `W` aliasing `x` (`perceptron/perceptron.go:81`). Here the callbacks receive a copy of the point's contents.
- `Perceptron.Perceptron.Train`: requires every target to have one value. With more than one target value, the source behaves inconsistently:
  - a correctly classified sample's gradient has `wr` entries, while a misclassified one's has `wr*wc`, so not every gradient has the weights' length, as `Optimization.Optimizer.Optimize` requires;
  - the zero vector of the probe is sized by sample 0's gradient at the start point (`graddesc/gradient_descent.go:62-63`), and the probe runs every epoch, since the check interval defaults to 1;
  - so when sample 0 starts correctly classified, correct samples are skipped and nothing panics; when it starts misclassified, a later correctly classified sample fails the probe and `floats.Sub` panics on the length mismatch;
  - the gradient lists the correction column by column, while `W` is rebuilt row by row.
  - Both agree when there is one target value (`Perceptron.TrainingReady`, `Perceptron.ColumnMajorOfOneColumn`).
- `Perceptron.Perceptron.Train`: requires the dataset to be convertible, that is, non-empty, with a non-empty target and features and targets of consistent sizes. Points with no features are accepted, as in the source, because the bias row keeps X's height positive. The source panics otherwise.
- The fallback branches of the perceptron's closures are never taken in a run:
  - an out-of-range column index reads as zeros;
  - `AfterUpdateFunc` ignores a point of the wrong length.
  - They exist only because Dafny function values are total.
- Go's `Cluster`/`SupervisedDataSet` interfaces and the conversion of clusters to `[]mygoml.Cluster` at the end of `Clustering` are not modelled. They only change the static type.
