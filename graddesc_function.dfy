/** The objective of the gradient-descent engine (graddesc.Function). */
module GradDesc {
  import opened Common

  /**
   * An objective: the point size it expects, its forward map and its gradient.
   * `mapper` is optional because callers may leave it unset (the perceptron does).
   */
  datatype Function = Function(
    inputSize: int,
    mapper: Option<seq<real> -> seq<real>>,
    gradient: seq<real> -> seq<real>)

  /**
   * Function.Run: the forward map at `x`. The source panics when `x` does not
   * have `inputSize` elements, and calling an unset mapper panics too, so both
   * are demands on the caller.
   */
  function Run(f: Function, x: seq<real>): (out: seq<real>)
    requires |x| == f.inputSize
    requires f.mapper.Some?
    ensures out == f.mapper.value(x)
  {
    f.mapper.value(x)
  }

  /** `f`'s gradient keeps the length `n` of any point of that length. */
  ghost predicate Shaped(f: Function, n: nat)
  {
    forall y: seq<real> | |y| == n :: |f.gradient(y)| == n
  }
}
