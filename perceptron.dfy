/**
 * The perceptron (perceptron/perceptron.go): a weight matrix with one row per
 * feature plus one for the bias and one column per target value, trained by
 * the gradient-descent engine with a stochastic provider and the plain update
 * rule, and a prediction that maps each score to its sign.
 */
module Perceptron {
  import opened Common
  import opened Floats
  import opened Matrices
  import opened Conversion
  import opened GradDesc
  import opened Updaters
  import opened Providers
  import opened Optimization

  // ---------------------------------------------------------------------------
  // toFloatSlice
  // ---------------------------------------------------------------------------

  /** The entries of an `r` by `c` matrix column after column: the rows of its transpose back to back. */
  function ColumnMajor(m: Matrix, r: nat, c: nat): (data: seq<real>)
    requires IsMatrix(m, r, c)
    ensures |data| == r * c
    ensures Dense(c, r, data) == Transpose(m, r, c)
  {
    DenseOfFlatten(Transpose(m, r, c), c, r);
    Flatten(Transpose(m, r, c))
  }

  /** toFloatSlice: reads `m.T()` row by row, which is `m` column by column. */
  method ToFloatSlice(m: Matrix, r: nat, c: nat) returns (data: seq<real>)
    requires IsMatrix(m, r, c)
    ensures data == ColumnMajor(m, r, c)
    ensures |data| == r * c
  {
    var mt := Transpose(m, r, c);
    data := [];
    for i := 0 to c
      invariant data == Flatten(mt[..i])
    {
      for j := 0 to r
        invariant data == Flatten(mt[..i]) + mt[i][..j]
      {
        data := data + [mt[i][j]];
      }
      assert mt[i][..r] == mt[i];
      FlattenAppend(mt[..i], mt[i]);
      assert mt[..i + 1] == mt[..i] + [mt[i]];
    }
    assert mt[..c] == mt;
  }

  /** For a single column, column order and row order agree. */
  lemma {:induction false} ColumnMajorOfOneColumn(m: Matrix, r: nat)
    requires IsMatrix(m, r, 1)
    ensures ColumnMajor(m, r, 1) == Flatten(m)
  {
    var t := Transpose(m, r, 1);
    assert Flatten(t) == t[0] + Flatten(t[1..]);
    assert t[1..] == [];
    OneColumnFlatten(m, r);
  }

  /** Flattening a one-column matrix lists its column. */
  lemma {:induction false} OneColumnFlatten(m: Matrix, r: nat)
    requires IsMatrix(m, r, 1)
    ensures Flatten(m) == seq(r, i requires 0 <= i < r => m[i][0])
  {
    if r > 0 {
      OneColumnFlatten(m[1..], r - 1);
      assert m[0] == [m[0][0]];
    }
  }

  // ---------------------------------------------------------------------------
  // The gradient closure
  // ---------------------------------------------------------------------------

  /** floats.EqualFunc with `a*b > 0`: false on a length mismatch, otherwise every pair has the same strict sign. */
  predicate SameSign(yi: seq<real>, trueyi: seq<real>)
  {
    |yi| == |trueyi| && forall i | 0 <= i < |yi| :: yi[i] * trueyi[i] > 0.0
  }

  /** wMatrix after the SetCol loop: column `i` is `-trueyi[i]` times `xi`, the remaining columns zero. */
  function Correction(wr: nat, wc: nat, xi: seq<real>, trueyi: seq<real>): (w: Matrix)
    requires |xi| == wr && |trueyi| <= wc
    ensures IsMatrix(w, wr, wc)
  {
    seq(wr, r requires 0 <= r < wr =>
      seq(wc, i requires 0 <= i < wc => if i < |trueyi| then -trueyi[i] * xi[r] else 0.0))
  }

  /**
   * The gradient the closure returns, whatever point it is given: a slice of
   * `len(xi)` zeros when the current classification `yi` already has the
   * sign of the truth `trueyi`, otherwise the correction matrix column by
   * column. SetCol panics unless `xi` has `wr` entries and `trueyi` at most
   * `wc`, so those are demanded here.
   */
  function GradientAt(wr: nat, wc: nat, xi: seq<real>, yi: seq<real>, trueyi: seq<real>): (g: seq<real>)
    requires |xi| == wr && |trueyi| <= wc
    ensures |g| == if SameSign(yi, trueyi) then wr else wr * wc
  {
    if SameSign(yi, trueyi) then Zeros(|xi|) else ColumnMajor(Correction(wr, wc, xi, trueyi), wr, wc)
  }

  /** The closure `gradient(xi, yi, trueyi)` builds; it never looks at the weights it is given. */
  function Gradient(wr: nat, wc: nat, xi: seq<real>, yi: seq<real>, trueyi: seq<real>): (g: seq<real> -> seq<real>)
    requires |xi| == wr && |trueyi| <= wc
    ensures forall w: seq<real>, w': seq<real> :: g(w) == g(w')
    ensures forall w: seq<real> :: |g(w)| == if SameSign(yi, trueyi) then wr else wr * wc
  {
    w => GradientAt(wr, wc, xi, yi, trueyi)
  }

  /** Block `i` of a misclassified sample's gradient: `-trueyi[i]` times the sample, or zeros past `trueyi`. */
  function Block(wr: nat, xi: seq<real>, trueyi: seq<real>, i: nat): seq<real>
    requires |xi| == wr
  {
    if i < |trueyi| then Scaled(-trueyi[i], xi) else Zeros(wr)
  }

  /** The columns of the correction matrix are the blocks. */
  lemma CorrectionColumns(wr: nat, wc: nat, xi: seq<real>, trueyi: seq<real>, i: nat)
    requires |xi| == wr && |trueyi| <= wc && i < wc
    ensures Transpose(Correction(wr, wc, xi, trueyi), wr, wc)[i] == Block(wr, xi, trueyi, i)
  {
    var t := Transpose(Correction(wr, wc, xi, trueyi), wr, wc);
    assert |t[i]| == wr;
    assert forall r | 0 <= r < wr :: t[i][r] == Block(wr, xi, trueyi, i)[r];
  }

  /**
   * A misclassified sample's gradient, cut into `wc` blocks of `wr`, holds
   * block `i` in place `i`; a correctly classified one's is `wr` zeros,
   * whatever `wc` is.
   */
  lemma GradientBlocks(wr: nat, wc: nat, xi: seq<real>, yi: seq<real>, trueyi: seq<real>, i: nat)
    requires |xi| == wr && |trueyi| <= wc && i < wc
    ensures SameSign(yi, trueyi) ==> GradientAt(wr, wc, xi, yi, trueyi) == Zeros(wr)
    ensures !SameSign(yi, trueyi) ==> Dense(wc, wr, GradientAt(wr, wc, xi, yi, trueyi))[i] == Block(wr, xi, trueyi, i)
  {
    CorrectionColumns(wr, wc, xi, trueyi, i);
  }

  /**
   * With one target value and learning rate 1, the plain update along this
   * gradient is the perceptron rule: a misclassified sample adds `trueyi[0]`
   * times itself to the weights, a correctly classified one leaves them alone.
   */
  lemma PerceptronRule(wr: nat, xi: seq<real>, yi: seq<real>, trueyi: seq<real>, w: seq<real>)
    requires |xi| == wr && |trueyi| == 1 && |w| == wr
    ensures SameSign(yi, trueyi) ==> PlainStep(w, GradientAt(wr, 1, xi, yi, trueyi), 1.0) == w
    ensures !SameSign(yi, trueyi) ==> PlainStep(w, GradientAt(wr, 1, xi, yi, trueyi), 1.0) == Plus(w, Scaled(trueyi[0], xi))
  {
    var g := GradientAt(wr, 1, xi, yi, trueyi);
    if !SameSign(yi, trueyi) {
      var c := Correction(wr, 1, xi, trueyi);
      ColumnMajorOfOneColumn(c, wr);
      OneColumnFlatten(c, wr);
      assert forall r | 0 <= r < wr :: g[r] == -trueyi[0] * xi[r];
    }
    assert |g| == wr;
    var n := PlainStep(w, g, 1.0);
    if SameSign(yi, trueyi) {
      assert forall r | 0 <= r < wr :: n[r] == w[r];
    } else {
      assert forall r | 0 <= r < wr :: n[r] == Plus(w, Scaled(trueyi[0], xi))[r];
    }
  }

  // ---------------------------------------------------------------------------
  // Products
  // ---------------------------------------------------------------------------

  /** `a.Mul(m.T(), b)` for an `r` by `c` matrix `m` and an `r` by `n` matrix `b`. */
  function TransposeTimes(m: Matrix, r: nat, c: nat, b: Matrix, n: nat): (p: Matrix)
    requires IsMatrix(m, r, c) && IsMatrix(b, r, n)
    ensures IsMatrix(p, c, n)
    ensures forall i, j | 0 <= i < c && 0 <= j < n :: p[i][j] == ColumnDot(m, i, Col(b, r, j), r)
  {
    seq(c, i requires 0 <= i < c => seq(n, j requires 0 <= j < n => ColumnDot(m, i, Col(b, r, j), r)))
  }

  /** Column `j` of `m`, read as zero where a row is too short: `mat.Col` where it is defined. */
  function Column(m: Matrix, j: int): (v: seq<real>)
    ensures |v| == |m|
  {
    seq(|m|, i requires 0 <= i < |m| => if 0 <= j < |m[i]| then m[i][j] else 0.0)
  }

  // ---------------------------------------------------------------------------
  // Prediction
  // ---------------------------------------------------------------------------

  /** The learnt weights and their dimensions. */
  datatype Weights = Weights(m: Matrix, rows: nat, cols: nat)
  {
    predicate Valid()
    {
      IsMatrix(m, rows, cols)
    }
  }

  /** `W^T` times a vector of `rows` entries: one score per target value. */
  function Scores(w: Weights, v: seq<real>): (s: seq<real>)
    requires w.Valid() && |v| == w.rows
    ensures |s| == w.cols
  {
    seq(w.cols, i requires 0 <= i < w.cols => ColumnDot(w.m, i, v, w.rows))
  }

  /** Predict's mapping of one score: positive to 1, negative to -1, zero unchanged. */
  function Sign(x: real): real
  {
    if x > 0.0 then 1.0 else if x < 0.0 then -1.0 else x
  }

  function Signs(v: seq<real>): (s: seq<real>)
    ensures |s| == |v|
  {
    seq(|v|, i requires 0 <= i < |v| => Sign(v[i]))
  }

  /** Every prediction is -1, 0 or 1, agrees in sign with its score, and is 0 exactly for a zero score. */
  lemma SignsAgree(v: seq<real>)
    ensures forall i | 0 <= i < |v| ::
      && (Signs(v)[i] == 1.0 <==> v[i] > 0.0)
      && (Signs(v)[i] == -1.0 <==> v[i] < 0.0)
      && (Signs(v)[i] == 0.0 <==> v[i] == 0.0)
  {
  }

  /** Mapping predictions to signs again changes nothing. */
  lemma SignsIdempotent(v: seq<real>)
    ensures Signs(Signs(v)) == Signs(v)
  {
  }

  /** Appending a vector entry past the `n` summed leaves the column product unchanged. */
  lemma {:induction false} ColumnDotPrefix(m: Matrix, i: nat, v: seq<real>, extra: seq<real>, n: nat)
    requires n <= |m| && n <= |v| && forall k | 0 <= k < n :: i < |m[k]|
    ensures ColumnDot(m, i, v + extra, n) == ColumnDot(m, i, v, n)
  {
    if n > 0 {
      ColumnDotPrefix(m, i, v, extra, n - 1);
    }
  }

  /** The appended 1 makes the last weight row a bias: score `i` is the features' product plus `W[last][i]`. */
  lemma BiasIsLastRow(w: Weights, features: seq<real>, i: nat)
    requires w.Valid() && w.rows > 0 && |features| == w.rows - 1 && i < w.cols
    ensures Scores(w, features + [1.0])[i] == ColumnDot(w.m, i, features, w.rows - 1) + w.m[w.rows - 1][i]
  {
    ColumnDotPrefix(w.m, i, features, [1.0], w.rows - 1);
  }

  // ---------------------------------------------------------------------------
  // Training
  // ---------------------------------------------------------------------------

  /** The variables Train's callbacks close over: the weight matrix W and classifiedY = W^T X. */
  datatype Fit = Fit(w: Matrix, classified: Matrix)

  /** X as ConvertSupervisedDataset builds it with the bias row: one column per data point. */
  function Inputs(dps: seq<Sample>): (x: Matrix)
    requires Convertible(dps, true)
    ensures IsMatrix(x, Width(dps, true), |dps|)
  {
    Transpose(Dense(|dps|, Width(dps, true), XData(dps, true, |dps|)), |dps|, Width(dps, true))
  }

  /** Y as ConvertSupervisedDataset builds it: one column per data point. */
  function Truths(dps: seq<Sample>): (y: Matrix)
    requires Convertible(dps, true)
    ensures IsMatrix(y, |dps[0].target|, |dps|)
  {
    Transpose(Dense(|dps|, |dps[0].target|, YData(dps, |dps|)), |dps|, |dps[0].target|)
  }

  /** The captured variables once W is `w`: classifiedY recomputed as `W^T X`. */
  function Refit(x: Matrix, wr: nat, wc: nat, xcount: nat, w: Matrix): (s: Fit)
    requires IsMatrix(x, wr, xcount) && IsMatrix(w, wr, wc)
    ensures IsMatrix(s.classified, wc, xcount)
  {
    Fit(w, TransposeTimes(w, wr, wc, x, xcount))
  }

  /**
   * EpochGen: the objective of sample `i` has `wr*wc` inputs and the gradient
   * built from column `i` of X, of classifiedY as it stands when the creator
   * is called, and of Y.
   */
  function EpochGen(x: Matrix, y: Matrix, wr: nat, wc: nat): (gen: (Fit, int) -> Function)
    requires |x| == wr && |y| == wc
    ensures forall s: Fit, i: int :: gen(s, i).inputSize == wr * wc && gen(s, i).mapper.None?
    ensures forall s: Fit, i: int, w: seq<real> ::
      gen(s, i).gradient(w) == GradientAt(wr, wc, Column(x, i), Column(s.classified, i), Column(y, i))
  {
    (s: Fit, i: int) => Function(wr * wc, None, Gradient(wr, wc, Column(x, i), Column(s.classified, i), Column(y, i)))
  }

  /**
   * AfterUpdateFunc: W becomes the new point cut into rows of `wc`, and
   * classifiedY follows. mat.NewDense panics unless the point has `wr*wc`
   * entries; the optimiser only passes points of the start point's length.
   */
  function Resync(x: Matrix, wr: nat, wc: nat, xcount: nat): (hook: Hook<Fit>)
    requires IsMatrix(x, wr, xcount)
    ensures forall s: Fit, w: seq<real> | |w| == wr * wc ::
      && IsMatrix(hook(s, w).w, wr, wc) && Flatten(hook(s, w).w) == w
      && hook(s, w).classified == TransposeTimes(hook(s, w).w, wr, wc, x, xcount)
    ensures forall s: Fit, w: seq<real> | |w| != wr * wc :: hook(s, w) == s
  {
    (s: Fit, w: seq<real>) => if |w| == wr * wc then Refit(x, wr, wc, xcount, Dense(wr, wc, w)) else s
  }

  /** The stochastic provider Train builds, around the captured variables `env`. */
  function TrainingProvider(dps: seq<Sample>, env: Captured<Fit>): EpochProvider<Fit>
    requires Convertible(dps, true)
  {
    Stochastic(StochasticProvider(
      |dps|,
      EpochGen(Inputs(dps), Truths(dps), Width(dps, true), |dps[0].target|),
      None,
      Some(Resync(Inputs(dps), Width(dps, true), |dps[0].target|, |dps|)),
      env))
  }

  /**
   * With one target value every gradient has the weights' length, so the
   * optimiser can run on Train's provider; with more, a correctly classified
   * sample's gradient is too short.
   */
  lemma TrainingReady(dps: seq<Sample>, env: Captured<Fit>)
    requires Convertible(dps, true) && |dps[0].target| == 1
    ensures Ready(TrainingProvider(dps, env), BaseState, Width(dps, true))
  {
    var p := TrainingProvider(dps, env);
    var wr := Width(dps, true);
    forall k: nat, s: Fit | k < StepCount(p)
      ensures Shaped(StepFunction(p, k, s), wr)
    {
      var x, y := Inputs(dps), Truths(dps);
      var xi, yi, trueyi := Column(x, k), Column(s.classified, k), Column(y, k);
      assert StepFunction(p, k, s).gradient == Gradient(wr, 1, xi, yi, trueyi);
      forall v: seq<real> | |v| == wr
        ensures |StepFunction(p, k, s).gradient(v)| == wr
      {
        assert |GradientAt(wr, 1, xi, yi, trueyi)| == wr;
      }
    }
  }

  /** The objective of a data point is the whole gradient of its sample, at every point. */
  lemma TrainingGradient(dps: seq<Sample>, env: Captured<Fit>, s: Fit, k: nat, v: seq<real>)
    requires Convertible(dps, true) && k < |dps|
    ensures var x, y := Inputs(dps), Truths(dps);
      StepFunction(TrainingProvider(dps, env), k, s).gradient(v) ==
        GradientAt(Width(dps, true), |dps[0].target|, Col(x, Width(dps, true), k), Column(s.classified, k), Col(y, |dps[0].target|, k))
  {
    var x, y := Inputs(dps), Truths(dps);
    assert Column(x, k) == Col(x, Width(dps, true), k);
    assert Column(y, k) == Col(y, |dps[0].target|, k);
  }

  class Perceptron {
    /** The weights; None until Train has run (the source's nil matrix). */
    var weights: Option<Weights>

    constructor ()
      ensures weights.None?
    {
      weights := None;
    }

    /**
     * Train: converts the dataset with the bias row, starts from `start` (the
     * source draws each weight from [0.1, 0.11)), runs the plain update rule
     * with learning rate 1 and at most 100 epochs over a stochastic provider
     * whose AfterUpdateFunc keeps classifiedY in step, and keeps the result as
     * a `wr` by `wc` matrix. `shuffle` stands for rand.Perm.
     */
    method Train(dataset: seq<Sample>, start: seq<real>, shuffle: nat -> seq<int>)
      returns (err: Outcome, ghost provider: EpochProvider<Fit>)
      requires Convertible(dataset, true)
      requires |dataset[0].target| == 1
      requires |start| == Width(dataset, true) * |dataset[0].target|
      requires forall i | 0 <= i < |start| :: 0.1 <= start[i] < 0.11
      requires forall c: nat :: IsPermutation(shuffle(c), |dataset|)
      modifies this
      ensures err == Pass
      ensures provider.Stochastic? && provider == TrainingProvider(dataset, provider.stochastic.env)
      ensures Ready(provider, BaseState, |start|)
      ensures var wr, wc := Width(dataset, true), |dataset[0].target|;
        var first := Refit(Inputs(dataset), wr, wc, |dataset|, Dense(wr, wc, start));
        weights == Some(Weights(Dense(wr, wc, Optimized(provider, 1.0, 100, 0, BaseState, first, start).x), wr, wc))
    {
      var x, y := ConvertSupervisedDataset(dataset, true);
      var wr, xcount := |x|, |dataset|;
      var wc := |y|;
      var w := Dense(wr, wc, start);
      var env := new Captured(Refit(x, wr, wc, xcount, w));
      var p := Stochastic(StochasticProvider(xcount, EpochGen(x, y, wr, wc), None, Some(Resync(x, wr, wc, xcount)), env));
      provider := p;
      assert p == TrainingProvider(dataset, env);
      TrainingReady(dataset, env);
      var base := new BaseUpdater();
      var op := new Optimizer(p, 1.0, 100, 0, Base(base));
      var startPoint := new real[|start|](i requires 0 <= i < |start| => start[i]);
      assert startPoint[..] == start;
      var trained, epochs := op.Optimize(startPoint, shuffle);
      weights := Some(Weights(Dense(wr, wc, trained[..]), wr, wc));
      return Pass, p;
    }

    /**
     * Predict: ErrIncompatibleDataAndModel unless there is one feature fewer
     * than weight rows; otherwise the signs of `W^T (features, 1)`.
     */
    method Predict(features: seq<real>) returns (r: Result<seq<real>>)
      requires weights.Some? && weights.value.Valid()
      ensures |features| != weights.value.rows - 1 ==>
                r == Err(IncompatibleDataAndModel(weights.value.rows - 1, |features|))
      ensures |features| == weights.value.rows - 1 ==>
                r == Ok(Signs(Scores(weights.value, features + [1.0])))
    {
      var w := weights.value;
      if |features| != w.rows - 1 {
        return Err(IncompatibleDataAndModel(w.rows - 1, |features|));
      }
      var featureVector := features + [1.0];
      var result := Scores(w, featureVector);
      var predicted := new real[|result|](i requires 0 <= i < |result| => result[i]);
      for i := 0 to predicted.Length
        invariant forall j | 0 <= j < i :: predicted[j] == Sign(result[j])
        invariant forall j | i <= j < predicted.Length :: predicted[j] == result[j]
      {
        if predicted[i] > 0.0 {
          predicted[i] := 1.0;
        } else if predicted[i] < 0.0 {
          predicted[i] := -1.0;
        }
      }
      assert predicted[..] == Signs(result);
      return Ok(predicted[..]);
    }
  }
}
