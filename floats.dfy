/** The vector operations of gonum's `floats` package that the toolkit calls, on values. */
module Floats {

  /** What `make([]float64, n)` holds. */
  function Zeros(n: nat): (z: seq<real>)
    ensures |z| == n && forall i | 0 <= i < n :: z[i] == 0.0
  {
    seq(n, _ => 0.0)
  }

  /** `floats.Scale(c, v)`: every element multiplied by `c`. */
  function Scaled(c: real, v: seq<real>): (r: seq<real>)
    ensures |r| == |v| && forall i | 0 <= i < |v| :: r[i] == c * v[i]
  {
    seq(|v|, i requires 0 <= i < |v| => c * v[i])
  }

  /** `floats.Add(a, b)` (the source panics when the lengths differ). */
  function Plus(a: seq<real>, b: seq<real>): (r: seq<real>)
    requires |a| == |b|
    ensures |r| == |a| && forall i | 0 <= i < |a| :: r[i] == a[i] + b[i]
  {
    seq(|a|, i requires 0 <= i < |a| => a[i] + b[i])
  }

  /** `floats.Sub(a, b)` and `floats.SubTo(dst, a, b)`. */
  function Minus(a: seq<real>, b: seq<real>): (r: seq<real>)
    requires |a| == |b|
    ensures |r| == |a| && forall i | 0 <= i < |a| :: r[i] == a[i] - b[i]
  {
    seq(|a|, i requires 0 <= i < |a| => a[i] - b[i])
  }

  function Abs(a: real): (r: real)
    ensures r >= 0.0 && (r == a || r == -a)
  {
    if a < 0.0 then -a else a
  }

  /**
   * `floats.EqualApprox(g, zeros, tol)` with `zeros` all 0.0 and of length `n`:
   * false on a length mismatch, otherwise every element is within `tol` of 0.
   * (gonum also accepts a relative error of `tol`; against 0.0 that relative
   * error is 1 for every non-zero element, so for `tol < 1` it adds nothing.)
   */
  predicate ApproxZero(g: seq<real>, n: nat, tol: real)
  {
    |g| == n && forall i | 0 <= i < |g| :: Abs(g[i]) <= tol
  }
}
