/** Error values, the wrappers the models use for error returns, and what rand.Perm returns. */
module Common {

  datatype Option<+T> = None | Some(value: T)

  /** The toolkit's recoverable errors (its package-level error values). */
  datatype Error =
    | DatasetEmpty
    | IncompatibleDataAndModel(expected: int, got: int)

  /** A value or an error, for functions that return `(T, error)`. */
  datatype Result<+T> = Ok(value: T) | Err(error: Error)

  /** An `error` return with no value: nil or an error. */
  datatype Outcome = Pass | Fail(error: Error)

  /** What `rand.Perm(n)` returns: every index of `[0, n)` exactly once. */
  predicate IsPermutation(perm: seq<int>, n: int)
  {
    && |perm| == n
    && (forall i | 0 <= i < |perm| :: 0 <= perm[i] < n)
    && (forall i, j | 0 <= i < j < |perm| :: perm[i] != perm[j])
  }

  /** A supervised data point: its features and its target vector. */
  datatype Sample = Sample(features: seq<real>, target: seq<real>)
}
