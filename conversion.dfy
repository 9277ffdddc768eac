/** Turning a supervised dataset into the matrices the solvers use (helpers/conversion.go). */
module Conversion {
  import opened Common
  import opened Matrices

  /** What a data point contributes to X's data: its features, then `1.0` for the bias when `x0`. */
  function Row(dp: Sample, x0: bool): (row: seq<real>)
    ensures |row| == |dp.features| + (if x0 then 1 else 0)
  {
    dp.features + (if x0 then [1.0] else [])
  }

  /** The data X is built from, for the first `n` points. */
  function XData(dps: seq<Sample>, x0: bool, n: nat): seq<real>
    requires n <= |dps|
  {
    if n == 0 then [] else XData(dps, x0, n - 1) + Row(dps[n - 1], x0)
  }

  /** The data Y is built from, for the first `n` points. */
  function YData(dps: seq<Sample>, n: nat): seq<real>
    requires n <= |dps|
  {
    if n == 0 then [] else YData(dps, n - 1) + dps[n - 1].target
  }

  /** X's number of rows: the first point's feature count, plus one for the bias. */
  function Width(dps: seq<Sample>, x0: bool): nat
    requires |dps| > 0
  {
    |dps[0].features| + (if x0 then 1 else 0)
  }

  /**
   * ConvertSupervisedDataset can run: `dps[0]` exists, and mat.NewDense gets
   * positive dimensions and exactly rows × columns entries for both matrices.
   */
  predicate Convertible(dps: seq<Sample>, x0: bool)
  {
    && |dps| > 0
    && Width(dps, x0) > 0 && |dps[0].target| > 0
    && |XData(dps, x0, |dps|)| == |dps| * Width(dps, x0)
    && |YData(dps, |dps|)| == |dps| * |dps[0].target|
  }

  /** Every point has the first point's feature and target counts. */
  predicate Uniform(dps: seq<Sample>)
  {
    forall j | 0 <= j < |dps| ::
      |dps[j].features| == |dps[0].features| && |dps[j].target| == |dps[0].target|
  }

  /**
   * ConvertSupervisedDataset: the data of all points, laid out one point per
   * row and then transposed, so that each point becomes a column.
   */
  method ConvertSupervisedDataset(dps: seq<Sample>, x0: bool) returns (x: Matrix, y: Matrix)
    requires Convertible(dps, x0)
    ensures IsMatrix(x, Width(dps, x0), |dps|)
    ensures IsMatrix(y, |dps[0].target|, |dps|)
    ensures x == Transpose(Dense(|dps|, Width(dps, x0), XData(dps, x0, |dps|)), |dps|, Width(dps, x0))
    ensures y == Transpose(Dense(|dps|, |dps[0].target|, YData(dps, |dps|)), |dps|, |dps[0].target|)
  {
    var xdata: seq<real> := [];
    var ydata: seq<real> := [];
    var featuresCount := |dps[0].features|;
    var targetCount := |dps[0].target|;
    for j := 0 to |dps|
      invariant xdata == XData(dps, x0, j)
      invariant ydata == YData(dps, j)
    {
      xdata := xdata + dps[j].features;
      if x0 {
        xdata := xdata + [1.0];
      }
      ydata := ydata + dps[j].target;
    }
    var width := if x0 then featuresCount + 1 else featuresCount;
    var xMatrix := Dense(|dps|, width, xdata);
    var yMatrix := Dense(|dps|, targetCount, ydata);
    x := Transpose(xMatrix, |dps|, width);
    y := Transpose(yMatrix, |dps|, targetCount);
  }

  /** One row per point: its features and the bias. */
  function Rows(dps: seq<Sample>, x0: bool): (rows: Matrix)
    ensures |rows| == |dps| && forall j | 0 <= j < |dps| :: rows[j] == Row(dps[j], x0)
  {
    seq(|dps|, j requires 0 <= j < |dps| => Row(dps[j], x0))
  }

  /** One row per point: its target. */
  function Targets(dps: seq<Sample>): (rows: Matrix)
    ensures |rows| == |dps| && forall j | 0 <= j < |dps| :: rows[j] == dps[j].target
  {
    seq(|dps|, j requires 0 <= j < |dps| => dps[j].target)
  }

  /** The loop's data is the rows of the points seen so far, back to back. */
  lemma {:induction false} DataIsFlattenedRows(dps: seq<Sample>, x0: bool, n: nat)
    requires n <= |dps|
    ensures XData(dps, x0, n) == Flatten(Rows(dps, x0)[..n])
    ensures YData(dps, n) == Flatten(Targets(dps)[..n])
  {
    if n > 0 {
      DataIsFlattenedRows(dps, x0, n - 1);
      assert Rows(dps, x0)[..n] == Rows(dps, x0)[..n - 1] + [Row(dps[n - 1], x0)];
      assert Targets(dps)[..n] == Targets(dps)[..n - 1] + [dps[n - 1].target];
      FlattenAppend(Rows(dps, x0)[..n - 1], Row(dps[n - 1], x0));
      FlattenAppend(Targets(dps)[..n - 1], dps[n - 1].target);
    }
  }

  /**
   * A dataset of uniform points with a positive row count and targets converts,
   * and column `j` of X is point `j`'s features (then the bias) and column `j`
   * of Y its target.
   */
  lemma UniformColumns(dps: seq<Sample>, x0: bool)
    requires 0 < |dps| && Uniform(dps)
    requires Width(dps, x0) > 0 && |dps[0].target| > 0
    ensures Convertible(dps, x0)
    ensures forall j, r | 0 <= j < |dps| && 0 <= r < Width(dps, x0) ::
      Transpose(Dense(|dps|, Width(dps, x0), XData(dps, x0, |dps|)), |dps|, Width(dps, x0))[r][j] == Row(dps[j], x0)[r]
    ensures forall j, r | 0 <= j < |dps| && 0 <= r < |dps[0].target| ::
      Transpose(Dense(|dps|, |dps[0].target|, YData(dps, |dps|)), |dps|, |dps[0].target|)[r][j] == dps[j].target[r]
  {
    DataIsFlattenedRows(dps, x0, |dps|);
    assert Rows(dps, x0)[..|dps|] == Rows(dps, x0);
    assert Targets(dps)[..|dps|] == Targets(dps);
    DenseOfFlatten(Rows(dps, x0), |dps|, Width(dps, x0));
    DenseOfFlatten(Targets(dps), |dps|, |dps[0].target|);
  }
}
