/** The package-level float comparison (helpers.go). */
module Helpers {
  import opened Floats

  /** The initial value of the package variable `Epsilon`. */
  const DefaultEpsilon: real := 0.00001

  /**
   * Equal: `a` and `b` are closer than `epsilon`, strictly. The source reads the
   * mutable package variable `Epsilon` on every call; here its current value is
   * the first argument.
   */
  function Equal(epsilon: real, a: real, b: real): (r: bool)
    ensures r <==> a - b < epsilon && b - a < epsilon
  {
    Abs(a - b) < epsilon
  }

  lemma EqualReflexive(epsilon: real, a: real)
    requires epsilon > 0.0
    ensures Equal(epsilon, a, a)
  {
  }

  lemma EqualSymmetric(epsilon: real, a: real, b: real)
    ensures Equal(epsilon, a, b) == Equal(epsilon, b, a)
  {
  }

  /** A difference of exactly `epsilon` is not equal, and a positive tolerance is needed for equality at all. */
  lemma EqualBoundary(epsilon: real, a: real)
    ensures !Equal(epsilon, a, a + epsilon)
    ensures Equal(epsilon, a, a) <==> epsilon > 0.0
  {
  }
}
