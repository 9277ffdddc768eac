/**
 * The optimisation loop of the gradient-descent engine (gradient_descent.go):
 * Optimizer.Optimize, proved against `Optimized`, a description of the whole
 * run on values, about which the lemmas at the bottom are stated.
 */
module Optimization {
  import opened Common
  import opened Floats
  import opened GradDesc
  import opened Updaters
  import opened Providers

  /** The tolerance of the zero-gradient probe. */
  const ZeroTolerance: real := 0.0000001

  // ---------------------------------------------------------------------------
  // The run on values
  // ---------------------------------------------------------------------------

  /** What the loop carries from step to step: the point, the captured variables, the update rule's state. */
  datatype Progress<S> = Progress(x: seq<real>, env: S, updater: UpdaterState)

  /** What Optimize leaves behind: the point it returns, the captured variables, the rule, the epochs completed. */
  datatype Finished<S> = Finished(x: seq<real>, env: S, updater: UpdaterState, epochs: nat)

  /** A momentum or NAG velocity, when there is one, has the point's length. */
  predicate Fits(u: UpdaterState, n: nat)
  {
    !u.BaseState? ==> u.velocity.None? || |u.velocity.value| == n
  }

  /** Every objective `p` can yield, whatever the captured variables hold, keeps the point's length `n`. */
  ghost predicate ShapedSteps<S(!new)>(p: EpochProvider<S>, n: nat)
    requires FuncsDefined(p)
  {
    forall k: nat, s: S | k < StepCount(p) :: Shaped(StepFunction(p, k, s), n)
  }

  /**
   * What Optimize demands of its caller for a start point of `n` elements:
   * `Funcs()` can run and returns at least one creator (the source indexes
   * `Funcs()[0]`), every gradient has the point's length and, after Reset, so
   * has the velocity (otherwise the vector operations panic).
   */
  ghost predicate Ready<S(!new)>(p: EpochProvider<S>, u: UpdaterState, n: nat)
  {
    && FuncsDefined(p)
    && StepCount(p) > 0
    && ShapedSteps(p, n)
    && (!u.BaseState? ==> |u.startVelocity| == n)
  }

  lemma CanUpdateWhenShaped(u: UpdaterState, x: seq<real>, f: Function)
    requires Fits(u, |x|) && Shaped(f, |x|)
    ensures CanUpdate(u, x, f)
  {
    if u.NagState? {
      var y := Lookahead(u.gamma, StartingVelocity(u.velocity, |x|), x);
      assert |y| == |x|;
    }
  }

  /**
   * One step: skipped — no Update, no AfterUpdate — when the probe is on and
   * the gradient is within the tolerance of zero; otherwise Update followed by
   * AfterUpdate. The flag says whether the step updated.
   */
  ghost function StepOnce<S(!new)>(p: EpochProvider<S>, learningRate: real, check: bool, zeros: nat,
                             f: Function, st: Progress<S>): (r: (Progress<S>, bool))
    requires Fits(st.updater, |st.x|) && Shaped(f, |st.x|)
    ensures |r.0.x| == |st.x| && Fits(r.0.updater, |st.x|)
    ensures r.0.updater.BaseState? == st.updater.BaseState?
  {
    if check && ApproxZero(f.gradient(st.x), zeros, ZeroTolerance) then (st, false)
    else
      CanUpdateWhenShaped(st.updater, st.x, f);
      var next := Apply(st.updater, st.x, f, learningRate);
      (Progress(next.1, AfterStep(p, st.env, next.1), next.0), true)
  }

  /** The first `k` steps of one epoch; the count is how many of them updated. */
  ghost function EpochSteps<S(!new)>(p: EpochProvider<S>, learningRate: real, check: bool, zeros: nat,
                                     k: nat, st: Progress<S>): (r: (Progress<S>, nat))
    requires FuncsDefined(p) && k <= StepCount(p)
    requires ShapedSteps(p, |st.x|) && Fits(st.updater, |st.x|)
    ensures |r.0.x| == |st.x| && Fits(r.0.updater, |st.x|)
    ensures r.0.updater.BaseState? == st.updater.BaseState?
    ensures r.1 <= k
  {
    if k == 0 then (st, 0)
    else
      var prev := EpochSteps(p, learningRate, check, zeros, k - 1, st);
      var step := StepOnce(p, learningRate, check, zeros, StepFunction(p, k - 1, prev.0.env), prev.0);
      (step.0, prev.1 + if step.1 then 1 else 0)
  }

  /** One whole epoch: every creator `Funcs()` returns, in order. */
  ghost function Epoch<S(!new)>(p: EpochProvider<S>, learningRate: real, check: bool, zeros: nat,
                                st: Progress<S>): (r: (Progress<S>, nat))
    requires FuncsDefined(p)
    requires ShapedSteps(p, |st.x|) && Fits(st.updater, |st.x|)
  {
    EpochSteps(p, learningRate, check, zeros, StepCount(p), st)
  }

  /**
   * Epochs `count ..` until `maxStep` epochs are complete: an epoch in which
   * no step updated ends the run at once, without OnEpochEnd and without
   * counting; any other epoch is followed by OnEpochEnd and counts.
   */
  ghost function EpochsFrom<S(!new)>(p: EpochProvider<S>, learningRate: real, maxStep: int, checkInterval: int,
                               zeros: nat, count: nat, st: Progress<S>): (r: (Progress<S>, nat))
    requires checkInterval > 0 && FuncsDefined(p)
    requires ShapedSteps(p, |st.x|) && Fits(st.updater, |st.x|)
    ensures |r.0.x| == |st.x| && Fits(r.0.updater, |st.x|)
    ensures r.0.updater.BaseState? == st.updater.BaseState?
    ensures count <= r.1 && (r.1 == count || r.1 <= maxStep)
    decreases maxStep - count
  {
    if count >= maxStep then (st, count)
    else
      var epoch := Epoch(p, learningRate, count % checkInterval == 0, zeros, st);
      if epoch.1 == 0 then (epoch.0, count)
      else EpochsFrom(p, learningRate, maxStep, checkInterval, zeros, count + 1,
                      epoch.0.(env := EpochEnd(p, epoch.0.env, epoch.0.x)))
  }

  /** The check interval in force: one that is not positive is replaced by 1. */
  function Interval(checkInterval: int): (r: int)
    ensures checkInterval > 0 ==> r == checkInterval
    ensures checkInterval <= 0 ==> r == 1
    ensures r > 0
  {
    if checkInterval <= 0 then 1 else checkInterval
  }

  /**
   * A whole Optimize call on values: Reset, the zero vector sized by the first
   * creator's gradient at the start point, the epochs, Reset again.
   */
  ghost function Optimized<S(!new)>(p: EpochProvider<S>, learningRate: real, maxStep: int, checkInterval: int,
                              u: UpdaterState, env: S, start: seq<real>): (r: Finished<S>)
    requires Ready(p, u, |start|)
    ensures |r.x| == |start|
    ensures r.epochs <= if maxStep > 0 then maxStep else 0
    ensures maxStep <= 0 ==> r.x == start && r.env == env
    ensures r.updater == ResetState(r.updater)
  {
    var zeros := |StepFunction(p, 0, env).gradient(start)|;
    var run := EpochsFrom(p, learningRate, maxStep, Interval(checkInterval), zeros, 0,
                          Progress(start, env, ResetState(u)));
    Finished(run.0.x, run.0.env, ResetState(run.0.updater), run.1)
  }

  // ---------------------------------------------------------------------------
  // Properties of the run
  // ---------------------------------------------------------------------------

  /** Objectives `0 .. k-1` of an epoch all have their gradient at `x` within the tolerance of zero. */
  ghost predicate FlatAt<S>(p: EpochProvider<S>, zeros: nat, k: nat, env: S, x: seq<real>)
  {
    forall j: nat | j < k :: ApproxZero(StepFunction(p, j, env).gradient(x), zeros, ZeroTolerance)
  }

  /**
   * The first `k` steps of an epoch update nothing exactly when there are none,
   * or when the epoch probes and every one of their gradients at the starting
   * point is within the tolerance of zero; the point and the captured
   * variables are then untouched.
   */
  lemma {:induction false} IdleSteps<S(!new)>(p: EpochProvider<S>, learningRate: real, check: bool, zeros: nat,
                                              k: nat, st: Progress<S>)
    requires FuncsDefined(p) && k <= StepCount(p)
    requires ShapedSteps(p, |st.x|) && Fits(st.updater, |st.x|)
    ensures var r := EpochSteps(p, learningRate, check, zeros, k, st);
            && (r.1 == 0 <==> k == 0 || (check && FlatAt(p, zeros, k, st.env, st.x)))
            && (r.1 == 0 ==> r.0 == st)
  {
    if k > 0 {
      IdleSteps(p, learningRate, check, zeros, k - 1, st);
      var prev := EpochSteps(p, learningRate, check, zeros, k - 1, st);
      if prev.1 == 0 {
        var f := StepFunction(p, k - 1, st.env);
        if check && ApproxZero(f.gradient(st.x), zeros, ZeroTolerance) {
          assert StepOnce(p, learningRate, check, zeros, f, st) == (st, false);
        } else {
          assert !FlatAt(p, zeros, k, st.env, st.x) || !check;
        }
      } else {
        assert !FlatAt(p, zeros, k - 1, st.env, st.x) || !check;
      }
    }
  }

  /**
   * With at least one epoch allowed, Optimize completes no epoch exactly when
   * every objective of the first epoch has its gradient at the start point
   * within the tolerance of zero; it then returns the start point and runs no
   * hook.
   */
  lemma FirstEpochDecides<S(!new)>(p: EpochProvider<S>, learningRate: real, maxStep: int, checkInterval: int,
                                   u: UpdaterState, env: S, start: seq<real>)
    requires Ready(p, u, |start|) && maxStep > 0
    ensures var r := Optimized(p, learningRate, maxStep, checkInterval, u, env, start);
            && (r.epochs == 0 <==> FlatAt(p, |start|, StepCount(p), env, start))
            && (r.epochs == 0 ==> r == Finished(start, env, ResetState(ResetState(u)), 0))
  {
    var st := Progress(start, env, ResetState(u));
    var zeros := |StepFunction(p, 0, env).gradient(start)|;
    assert zeros == |start|;
    IdleSteps(p, learningRate, true, zeros, StepCount(p), st);
  }

  /** On an epoch that does not probe, every step updates. */
  lemma {:induction false} UnprobedEpochUpdates<S(!new)>(p: EpochProvider<S>, learningRate: real, zeros: nat,
                                                         k: nat, st: Progress<S>)
    requires FuncsDefined(p) && k <= StepCount(p)
    requires ShapedSteps(p, |st.x|) && Fits(st.updater, |st.x|)
    ensures EpochSteps(p, learningRate, false, zeros, k, st).1 == k
  {
    if k > 0 {
      UnprobedEpochUpdates(p, learningRate, zeros, k - 1, st);
    }
  }

  /** The run never stops after an epoch that does not probe: it goes on to the next epoch or to `maxStep`. */
  lemma UnprobedEpochContinues<S(!new)>(p: EpochProvider<S>, learningRate: real, maxStep: int, checkInterval: int,
                                        zeros: nat, count: nat, st: Progress<S>)
    requires checkInterval > 0 && FuncsDefined(p) && StepCount(p) > 0
    requires ShapedSteps(p, |st.x|) && Fits(st.updater, |st.x|)
    requires count < maxStep && count % checkInterval != 0
    ensures EpochsFrom(p, learningRate, maxStep, checkInterval, zeros, count, st).1 > count
  {
    UnprobedEpochUpdates(p, learningRate, zeros, StepCount(p), st);
  }

  /** The plain rule, or momentum or NAG with `gamma == 0`. */
  predicate GammaFree(u: UpdaterState)
  {
    u.BaseState? || u.gamma == 0.0
  }

  /** `a` runs the plain rule, `b` a gamma-free rule, and they agree on everything else. */
  ghost predicate InStep<S>(a: Progress<S>, b: Progress<S>)
  {
    a.x == b.x && a.env == b.env && a.updater == BaseState && GammaFree(b.updater)
  }

  lemma StepInStep<S(!new)>(p: EpochProvider<S>, learningRate: real, check: bool, zeros: nat,
                            f: Function, a: Progress<S>, b: Progress<S>)
    requires InStep(a, b) && Fits(b.updater, |b.x|) && Shaped(f, |a.x|)
    ensures Fits(a.updater, |a.x|)
    ensures var ra := StepOnce(p, learningRate, check, zeros, f, a);
            var rb := StepOnce(p, learningRate, check, zeros, f, b);
            InStep(ra.0, rb.0) && ra.1 == rb.1
  {
    if !(check && ApproxZero(f.gradient(a.x), zeros, ZeroTolerance)) {
      CanUpdateWhenShaped(b.updater, b.x, f);
      match b.updater
      case BaseState =>
      case MomentumState(_, start, velocity) =>
        MomentumWithoutGamma(start, velocity, b.x, f, learningRate);
      case NagState(_, start, velocity) =>
        NagWithoutGamma(start, velocity, b.x, f, learningRate);
    }
  }

  lemma {:induction false} EpochInStep<S(!new)>(p: EpochProvider<S>, learningRate: real, check: bool, zeros: nat,
                                                k: nat, a: Progress<S>, b: Progress<S>)
    requires FuncsDefined(p) && k <= StepCount(p)
    requires InStep(a, b) && ShapedSteps(p, |a.x|) && Fits(b.updater, |b.x|)
    ensures Fits(a.updater, |a.x|)
    ensures var ra := EpochSteps(p, learningRate, check, zeros, k, a);
            var rb := EpochSteps(p, learningRate, check, zeros, k, b);
            InStep(ra.0, rb.0) && ra.1 == rb.1
  {
    if k > 0 {
      EpochInStep(p, learningRate, check, zeros, k - 1, a, b);
      var pa := EpochSteps(p, learningRate, check, zeros, k - 1, a).0;
      var pb := EpochSteps(p, learningRate, check, zeros, k - 1, b).0;
      StepInStep(p, learningRate, check, zeros, StepFunction(p, k - 1, pa.env), pa, pb);
    }
  }

  lemma {:induction false} EpochsInStep<S(!new)>(p: EpochProvider<S>, learningRate: real, maxStep: int,
                                                 checkInterval: int, zeros: nat, count: nat,
                                                 a: Progress<S>, b: Progress<S>)
    requires checkInterval > 0 && FuncsDefined(p)
    requires InStep(a, b) && ShapedSteps(p, |a.x|) && Fits(b.updater, |b.x|)
    ensures Fits(a.updater, |a.x|)
    ensures var ra := EpochsFrom(p, learningRate, maxStep, checkInterval, zeros, count, a);
            var rb := EpochsFrom(p, learningRate, maxStep, checkInterval, zeros, count, b);
            InStep(ra.0, rb.0) && ra.1 == rb.1
    decreases maxStep - count
  {
    if count < maxStep {
      var check := count % checkInterval == 0;
      EpochInStep(p, learningRate, check, zeros, StepCount(p), a, b);
      var ea := Epoch(p, learningRate, check, zeros, a);
      var eb := Epoch(p, learningRate, check, zeros, b);
      if ea.1 != 0 {
        EpochsInStep(p, learningRate, maxStep, checkInterval, zeros, count + 1,
                     ea.0.(env := EpochEnd(p, ea.0.env, ea.0.x)), eb.0.(env := EpochEnd(p, eb.0.env, eb.0.x)));
      }
    }
  }

  /**
   * Momentum and NAG with `gamma == 0` optimise exactly as the plain rule does:
   * the same point, the same captured variables, the same number of epochs.
   */
  lemma GammaFreeRunsLikePlain<S(!new)>(p: EpochProvider<S>, learningRate: real, maxStep: int, checkInterval: int,
                                        u: UpdaterState, env: S, start: seq<real>)
    requires Ready(p, u, |start|) && GammaFree(u)
    ensures Ready(p, BaseState, |start|)
    ensures var plain := Optimized(p, learningRate, maxStep, checkInterval, BaseState, env, start);
            var other := Optimized(p, learningRate, maxStep, checkInterval, u, env, start);
            plain.x == other.x && plain.env == other.env && plain.epochs == other.epochs
  {
    var zeros := |StepFunction(p, 0, env).gradient(start)|;
    EpochsInStep(p, learningRate, maxStep, Interval(checkInterval), zeros, 0,
                 Progress(start, env, BaseState), Progress(start, env, ResetState(u)));
  }

  // ---------------------------------------------------------------------------
  // The Updater interface, dispatched over the three rules
  // ---------------------------------------------------------------------------

  datatype Updater = Base(base: BaseUpdater) | Momentum(momentum: MomentumUpdater) | Nag(nag: NagUpdater)
  {
    /** The updater object itself. */
    ghost function Owner(): set<object>
    {
      match this
      case Base(b) => {b}
      case Momentum(m) => {m}
      case Nag(g) => {g}
    }

    ghost function Repr(): set<object>
      reads Owner()
    {
      match this
      case Base(b) => {b}
      case Momentum(m) => {m, m.startVelocity} + (if m.currentVelocity == null then {} else {m.currentVelocity as object})
      case Nag(g) => {g, g.startVelocity} + (if g.currentVelocity == null then {} else {g.currentVelocity as object})
    }

    ghost predicate Valid()
      reads Owner()
    {
      match this
      case Base(_) => true
      case Momentum(m) => m.Valid()
      case Nag(g) => g.Valid()
    }

    /** The velocity, if the rule has one, exists: true from the first Reset or Update on. */
    ghost predicate Primed()
      reads Owner()
    {
      match this
      case Base(_) => true
      case Momentum(m) => m.currentVelocity != null
      case Nag(g) => g.currentVelocity != null
    }

    /** Ready for the loop: consistent, velocity allocated, and not sharing storage with the point `x`. */
    ghost predicate Apart(x: array<real>)
      reads Owner()
    {
      Valid() && Primed() && x !in Repr()
    }

    ghost function State(): UpdaterState
      reads Repr(), if Base? then {} else if Momentum? then {momentum} else {nag}
    {
      match this
      case Base(_) => BaseState
      case Momentum(m) => m.State()
      case Nag(g) => g.State()
    }
  }

  method UpdateWith(u: Updater, x: array<real>, f: Function, learningRate: real)
    requires u.Valid() && x !in u.Repr()
    requires CanUpdate(u.State(), x[..], f)
    modifies u.Repr(), x
    ensures u.Valid() && x !in u.Repr() && fresh(u.Repr() - old(u.Repr()))
    ensures u.Primed() && (old(u.Primed()) ==> u.Repr() == old(u.Repr()))
    ensures (u.State(), x[..]) == Apply(old(u.State()), old(x[..]), f, learningRate)
  {
    match u
    case Base(b) => b.Update(x, f, learningRate);
    case Momentum(m) => m.Update(x, f, learningRate);
    case Nag(g) => g.Update(x, f, learningRate);
  }

  method ResetWith(u: Updater)
    modifies u.Owner()
    ensures u.Valid() && u.Primed() && fresh(u.Repr() - old(u.Repr()))
    ensures u.State() == ResetState(old(u.State()))
  {
    match u
    case Base(b) => b.Reset();
    case Momentum(m) => m.Reset();
    case Nag(g) => g.Reset();
  }

  // ---------------------------------------------------------------------------
  // The loop
  // ---------------------------------------------------------------------------

  /** The captured variables' current value; a batch provider captures nothing, so any value stands for it. */
  ghost function EnvOf<S(00,!new)>(p: EpochProvider<S>): S
    reads p.Env()
  {
    match p
    case Batch(_) => var s: S :| true; s
    case MiniBatch(m) => m.env.value
    case Stochastic(q) => q.env.value
  }

  /** Calls creator `c`: the closure reads the captured variables as they are now. */
  method Resolve<S(00,!new)>(p: EpochProvider<S>, c: Creator) returns (f: Function)
    requires Produces(p, c)
    ensures f == Call(p, c, EnvOf(p))
  {
    match c
    case Whole => f := p.objective;
    case Window(shared) => f := p.mini.epochGen(p.mini.env.value, shared.indices);
    case Single(k) => f := p.stochastic.epochGen(p.stochastic.env.value, k);
  }

  /** AfterUpdate after a step that updated: only the captured variables change. */
  method NotifyUpdate<S(00,!new)>(p: EpochProvider<S>, u: Updater, x: array<real>)
    requires u.Apart(x)
    modifies p.Env()
    ensures u.Apart(x) && u.Repr() == old(u.Repr()) && u.State() == old(u.State()) && x[..] == old(x[..])
    ensures EnvOf(p) == AfterStep(p, old(EnvOf(p)), x[..])
  {
    AfterUpdate(p, x[..]);
  }

  /** The update branch of a step: Update, then AfterUpdate with the new point. */
  method UpdateAndNotify<S(00,!new)>(p: EpochProvider<S>, u: Updater, x: array<real>, f: Function, learningRate: real)
    requires u.Apart(x)
    requires CanUpdate(u.State(), x[..], f)
    modifies u.Repr(), x, p.Env()
    ensures u.Apart(x) && u.Repr() == old(u.Repr())
    ensures var next := Apply(old(u.State()), old(x[..]), f, learningRate);
            u.State() == next.0 && x[..] == next.1 && EnvOf(p) == AfterStep(p, old(EnvOf(p)), next.1)
  {
    UpdateWith(u, x, f, learningRate);
    NotifyUpdate(p, u, x);
  }

  /** Step `k` of the inner loop of Optimize, over the epoch's creators `fs`. */
  method RunStep<S(00,!new)>(p: EpochProvider<S>, u: Updater, x: array<real>, learningRate: real,
                             check: bool, zeros: nat, fs: seq<Creator>, k: nat) returns (updated: bool)
    requires FuncsDefined(p) && k < |fs| == StepCount(p)
    requires forall j | 0 <= j < |fs| :: Yields(p, fs[j], j)
    requires u.Apart(x)
    requires ShapedSteps(p, x.Length) && Fits(u.State(), x.Length)
    modifies u.Repr(), x, p.Env()
    ensures u.Apart(x) && u.Repr() == old(u.Repr())
    ensures forall j | 0 <= j < |fs| :: Yields(p, fs[j], j)
    ensures (Progress(x[..], EnvOf(p), u.State()), updated)
         == StepOnce(p, learningRate, check, zeros, StepFunction(p, k, old(EnvOf(p))),
                     old(Progress(x[..], EnvOf(p), u.State())))
  {
    var loss := Resolve(p, fs[k]);
    var grad := loss.gradient(x[..]);
    if check && |grad| == zeros && forall i | 0 <= i < |grad| :: Abs(grad[i]) <= ZeroTolerance {
      return false;
    }
    CanUpdateWhenShaped(u.State(), x[..], loss);
    UpdateAndNotify(p, u, x, loss, learningRate);
    updated := true;
  }

  /** The inner loop of Optimize over the creators `fs` of one epoch. */
  method RunEpoch<S(00,!new)>(p: EpochProvider<S>, u: Updater, x: array<real>, learningRate: real,
                              check: bool, zeros: nat, fs: seq<Creator>) returns (done: bool, ghost updates: nat)
    requires FuncsDefined(p) && |fs| == StepCount(p)
    requires u.Apart(x)
    requires ShapedSteps(p, x.Length) && Fits(u.State(), x.Length)
    requires forall k | 0 <= k < |fs| :: Yields(p, fs[k], k)
    modifies u.Repr(), x, p.Env()
    ensures u.Apart(x) && u.Repr() == old(u.Repr())
    ensures (Progress(x[..], EnvOf(p), u.State()), updates)
         == Epoch(p, learningRate, check, zeros, old(Progress(x[..], EnvOf(p), u.State())))
    ensures done <==> updates == 0
  {
    ghost var start := Progress(x[..], EnvOf(p), u.State());
    done := true;
    updates := 0;
    for k := 0 to |fs|
      invariant u.Apart(x) && u.Repr() == old(u.Repr())
      invariant Fits(u.State(), x.Length)
      invariant forall j | 0 <= j < |fs| :: Yields(p, fs[j], j)
      invariant (Progress(x[..], EnvOf(p), u.State()), updates) == EpochSteps(p, learningRate, check, zeros, k, start)
      invariant done <==> updates == 0
    {
      var updated := RunStep(p, u, x, learningRate, check, zeros, fs, k);
      if updated {
        done := false;
        updates := updates + 1;
      }
    }
  }

  /** OnEpochEnd at the end of an epoch that updated: only the captured variables change. */
  method EndEpoch<S(00,!new)>(p: EpochProvider<S>, u: Updater, x: array<real>)
    requires u.Apart(x)
    modifies p.Env()
    ensures u.Apart(x) && u.Repr() == old(u.Repr()) && u.State() == old(u.State()) && x[..] == old(x[..])
    ensures EnvOf(p) == EpochEnd(p, old(EnvOf(p)), x[..])
  {
    OnEpochEnd(p, x[..]);
  }

  /**
   * One pass of the outer loop of Optimize: a fresh `Funcs()`, the epoch over
   * it, and OnEpochEnd unless no step updated (`done`).
   */
  method RunOuterStep<S(00,!new)>(p: EpochProvider<S>, u: Updater, x: array<real>, learningRate: real,
                                  check: bool, zeros: nat, shuffles: seq<int>) returns (done: bool)
    requires FuncsDefined(p)
    requires p.Stochastic? ==> IsPermutation(shuffles, p.stochastic.totalSize)
    requires u.Apart(x)
    requires ShapedSteps(p, x.Length) && Fits(u.State(), x.Length)
    modifies u.Repr(), x, p.Env()
    ensures u.Apart(x) && u.Repr() == old(u.Repr())
    ensures var r := Epoch(p, learningRate, check, zeros, old(Progress(x[..], EnvOf(p), u.State())));
            && done == (r.1 == 0)
            && Progress(x[..], EnvOf(p), u.State()) == if done then r.0 else r.0.(env := EpochEnd(p, r.0.env, r.0.x))
  {
    var fs := Funcs(p, shuffles);
    ghost var updates;
    done, updates := RunEpoch(p, u, x, learningRate, check, zeros, fs);
    if !done {
      EndEpoch(p, u, x);
    }
  }

  /**
   * The outer loop of Optimize: epochs until `maxStep` are complete or one
   * epoch updates nothing. `shuffle(c)` is the permutation the `c`-th call of
   * Funcs draws; call 0 is the one Optimize makes before the loop.
   */
  method RunEpochs<S(00,!new)>(p: EpochProvider<S>, u: Updater, x: array<real>, learningRate: real,
                               maxStep: int, checkInterval: int, zeros: nat, shuffle: nat -> seq<int>)
      returns (count: nat)
    requires FuncsDefined(p) && checkInterval > 0
    requires p.Stochastic? ==> forall c: nat :: IsPermutation(shuffle(c), p.stochastic.totalSize)
    requires u.Apart(x)
    requires ShapedSteps(p, x.Length) && Fits(u.State(), x.Length)
    modifies u.Repr(), x, p.Env()
    ensures u.Apart(x) && u.Repr() == old(u.Repr())
    ensures (Progress(x[..], EnvOf(p), u.State()), count)
         == EpochsFrom(p, learningRate, maxStep, checkInterval, zeros, 0, old(Progress(x[..], EnvOf(p), u.State())))
  {
    ghost var target := EpochsFrom(p, learningRate, maxStep, checkInterval, zeros, 0, Progress(x[..], EnvOf(p), u.State()));
    count := 0;
    while count < maxStep
      invariant u.Apart(x) && u.Repr() == old(u.Repr()) && Fits(u.State(), x.Length)
      invariant EpochsFrom(p, learningRate, maxStep, checkInterval, zeros, count,
                           Progress(x[..], EnvOf(p), u.State())) == target
      decreases maxStep - count
    {
      var done := RunOuterStep(p, u, x, learningRate, count % checkInterval == 0, zeros, shuffle(count + 1));
      if done {
        return;
      }
      count := count + 1;
    }
  }

  /**
   * What Optimize does before its loop: Reset, copy the start point, and size
   * the zero vector by the first creator's gradient there.
   */
  method Prepare<S(00,!new)>(p: EpochProvider<S>, u: Updater, startPoint: array<real>, shuffles: seq<int>)
      returns (x: array<real>, zeros: nat)
    requires u.Valid() && Ready(p, u.State(), startPoint.Length)
    requires p.Stochastic? ==> IsPermutation(shuffles, p.stochastic.totalSize)
    modifies u.Owner()
    ensures fresh(x) && u.Apart(x) && fresh(u.Repr() - old(u.Repr()))
    ensures x[..] == old(startPoint[..]) && EnvOf(p) == old(EnvOf(p))
    ensures u.State() == ResetState(old(u.State())) && Fits(u.State(), x.Length)
    ensures zeros == |StepFunction(p, 0, EnvOf(p)).gradient(x[..])|
  {
    ResetWith(u);
    x := CopyOf(startPoint);
    var first := Funcs(p, shuffles);
    var objective := Resolve(p, first[0]);
    var output := objective.gradient(x[..]);
    zeros := |output|;
  }

  /** The body of Optimize once the check interval in force is known. */
  method OptimizeWith<S(00,!new)>(p: EpochProvider<S>, u: Updater, learningRate: real, maxStep: int,
                                  checkInterval: int, startPoint: array<real>, shuffle: nat -> seq<int>)
      returns (x: array<real>, epochs: nat)
    requires u.Valid() && checkInterval > 0
    requires Ready(p, u.State(), startPoint.Length)
    requires p.Stochastic? ==> forall c: nat :: IsPermutation(shuffle(c), p.stochastic.totalSize)
    modifies u.Repr(), p.Env()
    ensures fresh(x) && u.Valid()
    ensures var r := Optimized(p, learningRate, maxStep, checkInterval, old(u.State()), old(EnvOf(p)), old(startPoint[..]));
            x[..] == r.x && EnvOf(p) == r.env && u.State() == r.updater && epochs == r.epochs
  {
    var zeros;
    x, zeros := Prepare(p, u, startPoint, shuffle(0));
    epochs := RunEpochs(p, u, x, learningRate, maxStep, checkInterval, zeros, shuffle);
    ResetWith(u);
  }

  class Optimizer<S(00,!new)> {
    const epochProvider: EpochProvider<S>
    const learningRate: real
    const maxStep: int
    var checkInterval: int
    const updater: Updater

    constructor (epochProvider: EpochProvider<S>, learningRate: real, maxStep: int, checkInterval: int, updater: Updater)
      ensures this.epochProvider == epochProvider && this.learningRate == learningRate
      ensures this.maxStep == maxStep && this.checkInterval == checkInterval && this.updater == updater
    {
      this.epochProvider := epochProvider;
      this.learningRate := learningRate;
      this.maxStep := maxStep;
      this.checkInterval := checkInterval;
      this.updater := updater;
    }

    /**
     * Optimizer.Optimize. `shuffle(c)` is the permutation rand.Perm returns on
     * the c-th call of a stochastic provider's Funcs. The start point is copied,
     * never written; a check interval that is not positive is replaced by 1 on
     * the optimiser itself.
     */
    method Optimize(startPoint: array<real>, shuffle: nat -> seq<int>) returns (x: array<real>, ghost epochs: nat)
      requires updater.Valid()
      requires Ready(epochProvider, updater.State(), startPoint.Length)
      requires epochProvider.Stochastic? ==>
                 forall c: nat :: IsPermutation(shuffle(c), epochProvider.stochastic.totalSize)
      modifies this, updater.Repr(), epochProvider.Env()
      ensures fresh(x) && x.Length == startPoint.Length
      ensures checkInterval == Interval(old(checkInterval))
      ensures updater.Valid()
      ensures var r := Optimized(epochProvider, learningRate, maxStep, checkInterval,
                                 old(updater.State()), old(EnvOf(epochProvider)), old(startPoint[..]));
              x[..] == r.x && EnvOf(epochProvider) == r.env && updater.State() == r.updater && epochs == r.epochs
    {
      if checkInterval <= 0 {
        checkInterval := 1;
      }
      x, epochs := OptimizeWith(epochProvider, updater, learningRate, maxStep, checkInterval, startPoint, shuffle);
    }
  }
}
