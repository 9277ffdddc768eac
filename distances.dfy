/**
 * Euclidean distance between feature vectors (models/helpers.go `distance`, and
 * gonum's `floats.Distance(a, b, 2)` that kmeans/kmeans.go calls instead).
 *
 * The square root is not computed: a distance is the value `Sqrt(r)` standing
 * for the root of its radicand `r`. The root is strictly increasing on the
 * non-negative reals, so comparing two distances is comparing their radicands.
 */
module Distances {

  datatype Root = Sqrt(radicand: real)

  /** `d < e` between two distances. */
  predicate Below(d: Root, e: Root)
  {
    d.radicand < e.radicand
  }

  function Square(x: real): real
  {
    x * x
  }

  /** Sum of the squared coordinate differences over the first `n` coordinates. */
  function SumSquares(a: seq<real>, b: seq<real>, n: nat): (s: real)
    requires n <= |a| == |b|
    ensures s >= 0.0
  {
    if n == 0 then 0.0
    else SumSquares(a, b, n - 1) + Square(a[n - 1] - b[n - 1])
  }

  function SquaredDistance(a: seq<real>, b: seq<real>): real
    requires |a| == |b|
  {
    SumSquares(a, b, |a|)
  }

  /**
   * distance: panics when the lengths differ; otherwise the root of the sum of
   * squared differences, accumulated in coordinate order.
   */
  method Distance(a: seq<real>, b: seq<real>) returns (d: Root)
    requires |a| == |b|
    ensures d == Sqrt(SquaredDistance(a, b))
    ensures d.radicand >= 0.0
  {
    var sum := 0.0;
    for i := 0 to |a|
      invariant sum == SumSquares(a, b, i)
    {
      sum := sum + Square(a[i] - b[i]);
    }
    return Sqrt(sum);
  }

  /** A point is at distance 0 from itself. */
  lemma {:induction false} DistanceToSelf(a: seq<real>, n: nat)
    requires n <= |a|
    ensures SumSquares(a, a, n) == 0.0
  {
    if n > 0 {
      DistanceToSelf(a, n - 1);
    }
  }

  /** The distance does not depend on the order of its arguments. */
  lemma {:induction false} DistanceSymmetric(a: seq<real>, b: seq<real>, n: nat)
    requires n <= |a| == |b|
    ensures SumSquares(a, b, n) == SumSquares(b, a, n)
  {
    if n > 0 {
      DistanceSymmetric(a, b, n - 1);
      assert Square(a[n - 1] - b[n - 1]) == Square(b[n - 1] - a[n - 1]);
    }
  }
}
