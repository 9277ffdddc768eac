/**
 * The three update rules of the gradient-descent engine (base_updater.go,
 * momentum_updater.go, nag_updater.go). Each rule is a class that changes the
 * parameter array in place; the functions at the top say, on values, what one
 * update computes, and the lemmas at the bottom relate the rules.
 */
module Updaters {
  import opened Common
  import opened Floats
  import opened GradDesc

  // ---------------------------------------------------------------------------
  // What one update computes, on values
  // ---------------------------------------------------------------------------

  /** The plain rule: `x - learningRate * grad`. */
  function PlainStep(x: seq<real>, grad: seq<real>, learningRate: real): seq<real>
    requires |grad| == |x|
  {
    Minus(x, Scaled(learningRate, grad))
  }

  /** The velocity a momentum or NAG update starts from: a nil velocity becomes zeros. */
  function StartingVelocity(velocity: Option<seq<real>>, n: nat): seq<real>
  {
    if velocity.None? then Zeros(n) else velocity.value
  }

  /** Momentum: `v := gamma*v + learningRate*grad(x)`, then `x := x - v`; returns (v, x). */
  function MomentumStep(gamma: real, v: seq<real>, x: seq<real>, grad: seq<real>, learningRate: real)
    : (seq<real>, seq<real>)
    requires |v| == |x| == |grad|
  {
    var v' := Plus(Scaled(gamma, v), Scaled(learningRate, grad));
    (v', Minus(x, v'))
  }

  /** The point at which NAG evaluates the gradient: `x - gamma*v`. */
  function Lookahead(gamma: real, v: seq<real>, x: seq<real>): seq<real>
    requires |v| == |x|
  {
    Minus(x, Scaled(gamma, v))
  }

  /** NAG: `v := gamma*v`, gradient at `x - v`, `v := v + learningRate*grad`, `x := x - v`. */
  function NagStep(gamma: real, v: seq<real>, x: seq<real>, f: Function, learningRate: real)
    : (seq<real>, seq<real>)
    requires |v| == |x|
    requires |f.gradient(Lookahead(gamma, v, x))| == |x|
  {
    var scaled := Scaled(gamma, v);
    var grad := f.gradient(Minus(x, scaled));
    var v' := Plus(scaled, Scaled(learningRate, grad));
    (v', Minus(x, v'))
  }

  /** An update rule's state as a value (`velocity` None is a nil slice). */
  datatype UpdaterState =
    | BaseState
    | MomentumState(gamma: real, startVelocity: seq<real>, velocity: Option<seq<real>>)
    | NagState(gamma: real, startVelocity: seq<real>, velocity: Option<seq<real>>)

  /** The rule can update a point of `|x|` elements along `f` without a length mismatch. */
  predicate CanUpdate(u: UpdaterState, x: seq<real>, f: Function)
  {
    match u
    case BaseState => |f.gradient(x)| == |x|
    case MomentumState(_, _, velocity) =>
      |f.gradient(x)| == |x| && (velocity.Some? ==> |velocity.value| == |x|)
    case NagState(gamma, _, velocity) =>
      (velocity.Some? ==> |velocity.value| == |x|) &&
      |f.gradient(Lookahead(gamma, StartingVelocity(velocity, |x|), x))| == |x|
  }

  /** One `Update(x, f, learningRate)` on values: the new state and the new point. */
  function Apply(u: UpdaterState, x: seq<real>, f: Function, learningRate: real): (r: (UpdaterState, seq<real>))
    requires CanUpdate(u, x, f)
    ensures |r.1| == |x|
    ensures r.0.BaseState? == u.BaseState? && r.0.MomentumState? == u.MomentumState?
    ensures !u.BaseState? ==> r.0.gamma == u.gamma && r.0.startVelocity == u.startVelocity
    ensures !u.BaseState? ==> r.0.velocity.Some? && |r.0.velocity.value| == |x|
  {
    match u
    case BaseState => (BaseState, PlainStep(x, f.gradient(x), learningRate))
    case MomentumState(gamma, start, velocity) =>
      var (v, x') := MomentumStep(gamma, StartingVelocity(velocity, |x|), x, f.gradient(x), learningRate);
      (MomentumState(gamma, start, Some(v)), x')
    case NagState(gamma, start, velocity) =>
      var (v, x') := NagStep(gamma, StartingVelocity(velocity, |x|), x, f, learningRate);
      (NagState(gamma, start, Some(v)), x')
  }

  /** `Reset()` on values: the velocity becomes a copy of the start velocity. */
  function ResetState(u: UpdaterState): (r: UpdaterState)
    ensures r.BaseState? == u.BaseState? && r.MomentumState? == u.MomentumState?
    ensures !u.BaseState? ==> r.gamma == u.gamma && r.startVelocity == u.startVelocity
    ensures !u.BaseState? ==> r.velocity == Some(u.startVelocity)
  {
    match u
    case BaseState => BaseState
    case MomentumState(gamma, start, _) => MomentumState(gamma, start, Some(start))
    case NagState(gamma, start, _) => NagState(gamma, start, Some(start))
  }

  // ---------------------------------------------------------------------------
  // The rules as classes that update the point in place
  // ---------------------------------------------------------------------------

  /** `make([]float64, len(a))` followed by `copy`: a fresh array with `a`'s elements. */
  method CopyOf(a: array<real>) returns (b: array<real>)
    ensures fresh(b) && b[..] == a[..]
  {
    b := new real[a.Length];
    for i := 0 to a.Length
      invariant forall j | 0 <= j < i :: b[j] == a[j]
    {
      b[i] := a[i];
    }
  }

  /** `floats.Scale(c, v)` on the array itself. */
  method ScaleInPlace(v: array<real>, c: real)
    modifies v
    ensures v[..] == Scaled(c, old(v[..]))
  {
    ghost var v0 := v[..];
    for i := 0 to v.Length
      invariant forall j | 0 <= j < i :: v[j] == c * v0[j]
      invariant forall j | i <= j < v.Length :: v[j] == v0[j]
    {
      v[i] := c * v[i];
    }
    assert forall j | 0 <= j < v.Length :: v[..][j] == Scaled(c, v0)[j];
  }

  /**
   * `v := v + c*grad` and then `x := x - v`, the closing passes of both momentum
   * rules (Add or AddScaled into `v`, then Sub from `x`), fused: each pass
   * treats every index on its own.
   */
  method AddThenSubtract(v: array<real>, x: array<real>, grad: seq<real>, c: real)
    requires v != x && v.Length == x.Length == |grad|
    modifies v, x
    ensures v[..] == Plus(old(v[..]), Scaled(c, grad))
    ensures x[..] == Minus(old(x[..]), v[..])
  {
    ghost var x0, v0 := x[..], v[..];
    for i := 0 to x.Length
      invariant forall j | 0 <= j < i :: v[j] == v0[j] + c * grad[j]
      invariant forall j | 0 <= j < i :: x[j] == x0[j] - v[j]
      invariant forall j | i <= j < x.Length :: v[j] == v0[j] && x[j] == x0[j]
    {
      v[i] := v[i] + c * grad[i];
      x[i] := x[i] - v[i];
    }
    assert forall j | 0 <= j < x.Length :: v[..][j] == Plus(v0, Scaled(c, grad))[j];
    assert forall j | 0 <= j < x.Length :: x[..][j] == Minus(x0, v[..])[j];
  }

  /** BaseUpdater: stateless. */
  class BaseUpdater {
    constructor ()
    {
    }

    /**
     * `x[i] := x[i] - learningRate*grad[i]` with the gradient taken at the old
     * `x`; the source panics when the gradient's length differs from `x`'s.
     */
    method Update(x: array<real>, f: Function, learningRate: real)
      requires |f.gradient(x[..])| == x.Length
      modifies x
      ensures x[..] == PlainStep(old(x[..]), f.gradient(old(x[..])), learningRate)
    {
      var grad := f.gradient(x[..]);
      ghost var x0 := x[..];
      for i := 0 to x.Length
        invariant forall j | 0 <= j < i :: x[j] == x0[j] - learningRate * grad[j]
        invariant forall j | i <= j < x.Length :: x[j] == x0[j]
      {
        x[i] := x[i] - learningRate * grad[i];
      }
      assert forall j | 0 <= j < x.Length :: x[..][j] == PlainStep(x0, grad, learningRate)[j];
    }

    /** Reset has nothing to reset. */
    method Reset()
      ensures unchanged(this)
    {
    }
  }

  /** MomentumUpdater: a velocity that persists between updates until the next Reset. */
  class MomentumUpdater {
    var gamma: real
    var startVelocity: array<real>
    var currentVelocity: array?<real>

    /** The velocity is never the caller's start velocity itself. */
    ghost predicate Valid()
      reads this
    {
      currentVelocity != startVelocity
    }

    ghost function Velocity(): Option<seq<real>>
      reads this, currentVelocity
    {
      if currentVelocity == null then None else Some(currentVelocity[..])
    }

    ghost function State(): UpdaterState
      reads this, startVelocity, currentVelocity
    {
      MomentumState(gamma, startVelocity[..], Velocity())
    }

    /** A zero-valued updater: the velocity is nil until the first Update or Reset. */
    constructor (gamma: real, startVelocity: array<real>)
      ensures Valid() && this.gamma == gamma && this.startVelocity == startVelocity
      ensures currentVelocity == null
    {
      this.gamma := gamma;
      this.startVelocity := startVelocity;
      currentVelocity := null;
    }

    method Update(x: array<real>, f: Function, learningRate: real)
      requires Valid() && x != startVelocity && x != currentVelocity
      requires CanUpdate(State(), x[..], f)
      modifies this, currentVelocity, x
      ensures Valid() && gamma == old(gamma) && startVelocity == old(startVelocity)
      ensures currentVelocity != null && currentVelocity != x
      ensures old(currentVelocity) == null ==> fresh(currentVelocity)
      ensures old(currentVelocity) != null ==> currentVelocity == old(currentVelocity)
      ensures (State(), x[..]) == Apply(old(State()), old(x[..]), f, learningRate)
    {
      var grad := f.gradient(x[..]);
      if currentVelocity == null {
        currentVelocity := new real[x.Length](_ => 0.0);
      }
      assert currentVelocity[..] == StartingVelocity(old(Velocity()), x.Length);
      // Scale(learningRate, grad); Scale(gamma, v); Add(v, grad); Sub(x, v)
      ScaleInPlace(currentVelocity, gamma);
      AddThenSubtract(currentVelocity, x, grad, learningRate);
    }

    /** The velocity becomes a fresh copy of the start velocity. */
    method Reset()
      modifies this
      ensures Valid() && gamma == old(gamma) && startVelocity == old(startVelocity)
      ensures fresh(currentVelocity)
      ensures State() == ResetState(old(State()))
    {
      currentVelocity := CopyOf(startVelocity);
    }
  }

  /** NAGUpdater: momentum with the gradient taken at the look-ahead point. */
  class NagUpdater {
    var gamma: real
    var startVelocity: array<real>
    var currentVelocity: array?<real>

    ghost predicate Valid()
      reads this
    {
      currentVelocity != startVelocity
    }

    ghost function Velocity(): Option<seq<real>>
      reads this, currentVelocity
    {
      if currentVelocity == null then None else Some(currentVelocity[..])
    }

    ghost function State(): UpdaterState
      reads this, startVelocity, currentVelocity
    {
      NagState(gamma, startVelocity[..], Velocity())
    }

    constructor (gamma: real, startVelocity: array<real>)
      ensures Valid() && this.gamma == gamma && this.startVelocity == startVelocity
      ensures currentVelocity == null
    {
      this.gamma := gamma;
      this.startVelocity := startVelocity;
      currentVelocity := null;
    }

    method Update(x: array<real>, f: Function, learningRate: real)
      requires Valid() && x != startVelocity && x != currentVelocity
      requires CanUpdate(State(), x[..], f)
      modifies this, currentVelocity, x
      ensures Valid() && gamma == old(gamma) && startVelocity == old(startVelocity)
      ensures currentVelocity != null && currentVelocity != x
      ensures old(currentVelocity) == null ==> fresh(currentVelocity)
      ensures old(currentVelocity) != null ==> currentVelocity == old(currentVelocity)
      ensures (State(), x[..]) == Apply(old(State()), old(x[..]), f, learningRate)
    {
      if currentVelocity == null {
        currentVelocity := new real[x.Length](_ => 0.0);
      }
      assert currentVelocity[..] == StartingVelocity(old(Velocity()), x.Length);
      // Scale(gamma, v); SubTo(lookahead, x, v); AddScaled(v, learningRate, grad); Sub(x, v)
      ScaleInPlace(currentVelocity, gamma);
      var lookahead := Minus(x[..], currentVelocity[..]);
      var grad := f.gradient(lookahead);
      AddThenSubtract(currentVelocity, x, grad, learningRate);
    }

    method Reset()
      modifies this
      ensures Valid() && gamma == old(gamma) && startVelocity == old(startVelocity)
      ensures fresh(currentVelocity)
      ensures State() == ResetState(old(State()))
    {
      currentVelocity := CopyOf(startVelocity);
    }
  }

  // ---------------------------------------------------------------------------
  // How the rules relate
  // ---------------------------------------------------------------------------

  /** Every element is 0. */
  predicate AllZero(v: seq<real>)
  {
    forall i | 0 <= i < |v| :: v[i] == 0.0
  }

  /** A learning rate of 0 leaves the point where it is under the plain rule. */
  lemma PlainStepAtZeroRate(x: seq<real>, grad: seq<real>)
    requires |grad| == |x|
    ensures PlainStep(x, grad, 0.0) == x
  {
    var r := PlainStep(x, grad, 0.0);
    assert forall i | 0 <= i < |x| :: r[i] == x[i];
  }

  /**
   * A learning rate of 0 leaves the point where it is under every rule, as long
   * as a momentum or NAG velocity is at rest; the velocity then stays at rest.
   */
  lemma ApplyAtZeroRate(u: UpdaterState, x: seq<real>, f: Function)
    requires CanUpdate(u, x, f)
    requires !u.BaseState? ==> AllZero(StartingVelocity(u.velocity, |x|))
    ensures Apply(u, x, f, 0.0).1 == x
    ensures !u.BaseState? ==> AllZero(Apply(u, x, f, 0.0).0.velocity.value)
  {
    var r := Apply(u, x, f, 0.0);
    match u
    case BaseState =>
      PlainStepAtZeroRate(x, f.gradient(x));
    case MomentumState(gamma, _, velocity) =>
      var v := StartingVelocity(velocity, |x|);
      var next := MomentumStep(gamma, v, x, f.gradient(x), 0.0);
      assert forall i | 0 <= i < |x| :: next.0[i] == 0.0;
      assert forall i | 0 <= i < |x| :: next.1[i] == x[i];
    case NagState(gamma, _, velocity) =>
      var v := StartingVelocity(velocity, |x|);
      var next := NagStep(gamma, v, x, f, 0.0);
      assert forall i | 0 <= i < |x| :: next.0[i] == 0.0;
      assert forall i | 0 <= i < |x| :: next.1[i] == x[i];
  }

  /** With `gamma == 0` the momentum rule moves the point exactly as the plain rule does. */
  lemma MomentumWithoutGamma(start: seq<real>, velocity: Option<seq<real>>, x: seq<real>, f: Function, learningRate: real)
    requires CanUpdate(MomentumState(0.0, start, velocity), x, f)
    ensures Apply(MomentumState(0.0, start, velocity), x, f, learningRate).1 == PlainStep(x, f.gradient(x), learningRate)
  {
    var grad := f.gradient(x);
    var next := MomentumStep(0.0, StartingVelocity(velocity, |x|), x, grad, learningRate);
    var plain := PlainStep(x, grad, learningRate);
    assert forall i | 0 <= i < |x| :: next.1[i] == plain[i];
  }

  /** With `gamma == 0` NAG looks ahead to the point itself and so moves it as the plain rule does. */
  lemma NagWithoutGamma(start: seq<real>, velocity: Option<seq<real>>, x: seq<real>, f: Function, learningRate: real)
    requires CanUpdate(NagState(0.0, start, velocity), x, f)
    ensures CanUpdate(BaseState, x, f)
    ensures Apply(NagState(0.0, start, velocity), x, f, learningRate).1 == PlainStep(x, f.gradient(x), learningRate)
  {
    var v := StartingVelocity(velocity, |x|);
    var ahead := Lookahead(0.0, v, x);
    assert forall i | 0 <= i < |x| :: ahead[i] == x[i];
    assert ahead == x;
    var next := NagStep(0.0, v, x, f, learningRate);
    var plain := PlainStep(x, f.gradient(x), learningRate);
    assert forall i | 0 <= i < |x| :: next.1[i] == plain[i];
  }
}
