/**
 * The epoch providers of the gradient-descent engine (providers.go): each turns
 * a data size into the ordered list of per-step objectives of one epoch, built
 * lazily, and passes the optimiser's lifecycle callbacks on.
 *
 * A creator in the source is a closure. Here it is a `Creator` value that the
 * optimiser resolves with `Call` at the moment it would call the closure, so
 * that a creator resolved after a callback ran sees that callback's effect.
 * What callbacks and generators close over is the `S` value held in a
 * `Captured<S>` object; callbacks are functions from the old captured value
 * (and the current point) to the new one.
 */
module Providers {
  import opened Common
  import opened GradDesc

  /** The variables a provider's callbacks and generator close over. */
  class Captured<S> {
    var value: S

    constructor (value: S)
      ensures this.value == value
    {
      this.value := value;
    }
  }

  /** The `indices` slice variable of one MiniBatchProvider.Funcs call. */
  class IndexSlice {
    var indices: seq<int>

    constructor ()
      ensures indices == []
    {
      indices := [];
    }
  }

  /** A user callback `func([]float64)`. */
  type Hook<!S> = (S, seq<real>) -> S

  datatype MiniBatchProvider<!S> = MiniBatchProvider(
    batchSize: int,
    totalSize: int,
    epochGen: (S, seq<int>) -> Function,
    epochEndFunc: Option<Hook<S>>,
    afterUpdateFunc: Option<Hook<S>>,
    env: Captured<S>)

  datatype StochasticProvider<!S> = StochasticProvider(
    totalSize: int,
    epochGen: (S, int) -> Function,
    epochEndFunc: Option<Hook<S>>,
    afterUpdateFunc: Option<Hook<S>>,
    env: Captured<S>)

  /** The EpochProvider interface's three implementations; a BatchProvider is a Function. */
  datatype EpochProvider<!S> =
    | Batch(objective: Function)
    | MiniBatch(mini: MiniBatchProvider<S>)
    | Stochastic(stochastic: StochasticProvider<S>)
  {
    /** The objects the provider's callbacks may change. */
    ghost function Env(): set<object>
    {
      match this
      case Batch(_) => {}
      case MiniBatch(m) => {m.env}
      case Stochastic(q) => {q.env}
    }
  }

  /** A creator closure: the batch objective, a mini-batch reading the shared indices, or one sample. */
  datatype Creator = Whole | Window(shared: IndexSlice) | Single(k: int)

  /** Whether `c` is a closure `p.Funcs()` can return. */
  predicate Produces<S>(p: EpochProvider<S>, c: Creator)
  {
    match c
    case Whole => p.Batch?
    case Window(_) => p.MiniBatch?
    case Single(_) => p.Stochastic?
  }

  /** Calling creator `c` of `p` while the captured variables hold `s`. */
  function Call<S>(p: EpochProvider<S>, c: Creator, s: S): Function
    requires Produces(p, c)
    reads if c.Window? then {c.shared} else {}
  {
    match c
    case Whole => p.objective
    case Window(shared) => p.mini.epochGen(s, shared.indices)
    case Single(k) => p.stochastic.epochGen(s, k)
  }

  // ---------------------------------------------------------------------------
  // BatchProvider
  // ---------------------------------------------------------------------------

  /** One creator, which yields the wrapped Function unchanged. */
  method BatchFuncs<S>(f: Function) returns (fs: seq<Creator>)
    ensures fs == [Whole]
    ensures forall s: S :: Call(Batch(f), fs[0], s) == f
  {
    fs := [Whole];
  }

  // ---------------------------------------------------------------------------
  // MiniBatchProvider
  // ---------------------------------------------------------------------------

  /** Whether loop position `i` of Funcs appends a creator; `%` is only reached for `i > 0`. */
  predicate Emits(i: int, totalSize: int, batchSize: int)
    requires i <= 0 || batchSize != 0
  {
    (i > 0 && i % batchSize == 0) || i == totalSize - 1
  }

  /** A batch size the modulo in Funcs can use for every position it reaches. */
  predicate BatchSizeUsable(totalSize: int, batchSize: int)
  {
    batchSize != 0 || totalSize <= 1
  }

  /** How many of the positions `0 .. n-1` emit a creator. */
  function EmitCount(n: int, totalSize: int, batchSize: int): (c: nat)
    requires n <= 1 || batchSize != 0
    ensures c <= if n < 0 then 0 else n
    decreases n
  {
    if n <= 0 then 0
    else EmitCount(n - 1, totalSize, batchSize) + (if Emits(n - 1, totalSize, batchSize) then 1 else 0)
  }

  lemma {:induction false} MulAtLeast(d: int, b: int)
    requires d >= 1 && b > 0
    ensures d * b >= b
    decreases d
  {
    if d > 1 {
      MulAtLeast(d - 1, b);
      assert d * b == (d - 1) * b + b;
    }
  }

  /** Quotient and remainder by a positive `b` are the only ones with `0 <= r < b`. */
  lemma DivUnique(a: int, b: int, q: int, r: int)
    requires b > 0 && 0 <= r < b && a == q * b + r
    ensures a / b == q && a % b == r
  {
    var q', r' := a / b, a % b;
    assert a == q' * b + r' && 0 <= r' < b;
    assert (q - q') * b == r' - r;
    if q > q' {
      MulAtLeast(q - q', b);
    } else if q < q' {
      MulAtLeast(q' - q, b);
    }
  }

  /** Division by a positive `b` moves up by one exactly at the multiples of `b`. */
  lemma DivisionStep(m: nat, b: int)
    requires b > 0
    ensures (m + 1) / b == m / b + (if (m + 1) % b == 0 then 1 else 0)
  {
    var q, r := m / b, m % b;
    if r + 1 == b {
      DivUnique(m + 1, b, q + 1, 0);
    } else {
      DivUnique(m + 1, b, q, r + 1);
    }
  }

  /** Before the last position, a creator is appended at every positive multiple of the batch size. */
  lemma {:induction false} EmitCountBeforeLast(n: int, totalSize: int, batchSize: int)
    requires batchSize > 0 && 1 <= n < totalSize
    ensures EmitCount(n, totalSize, batchSize) == (n - 1) / batchSize
  {
    if n > 1 {
      EmitCountBeforeLast(n - 1, totalSize, batchSize);
      DivisionStep(n - 2, batchSize);
    }
  }

  /**
   * MiniBatchProvider.Funcs returns one creator per positive multiple of the
   * batch size below `totalSize - 1`, plus one for the last position: 3 for 10
   * data points in batches of 3, and none for an empty data set.
   */
  lemma MiniBatchCreatorCount(totalSize: int, batchSize: int)
    requires batchSize > 0
    ensures EmitCount(totalSize, totalSize, batchSize)
         == if totalSize <= 0 then 0 else if totalSize == 1 then 1 else (totalSize - 2) / batchSize + 1
  {
    if totalSize > 1 {
      EmitCountBeforeLast(totalSize - 1, totalSize, batchSize);
    }
  }

  /**
   * MiniBatchProvider.Funcs. Every creator closes over the same `indices`
   * variable, which the loop keeps reassigning; once Funcs returns it holds
   * `[totalSize-1]`, so every creator asks the generator for that one window.
   */
  method MiniBatchFuncs<S>(p: MiniBatchProvider<S>) returns (fs: seq<Creator>)
    requires BatchSizeUsable(p.totalSize, p.batchSize)
    ensures |fs| == EmitCount(p.totalSize, p.totalSize, p.batchSize)
    ensures forall k | 0 <= k < |fs| :: fs[k].Window? && fresh(fs[k].shared)
    ensures forall k, j | 0 <= k < j < |fs| :: fs[k] == fs[j]
    ensures forall k | 0 <= k < |fs| :: fs[k].shared.indices == [p.totalSize - 1]
  {
    var indices := new IndexSlice();
    fs := [];
    var i := 0;
    while i < p.totalSize
      invariant 0 <= i <= if p.totalSize < 0 then 0 else p.totalSize
      invariant |fs| == EmitCount(i, p.totalSize, p.batchSize)
      invariant forall k | 0 <= k < |fs| :: fs[k] == Window(indices)
      invariant i > 0 && Emits(i - 1, p.totalSize, p.batchSize) ==> indices.indices == [i - 1]
    {
      if (i > 0 && i % p.batchSize == 0) || i == p.totalSize - 1 {
        fs := fs + [Window(indices)];
        indices.indices := [];
      }
      indices.indices := indices.indices + [i];
      i := i + 1;
    }
  }

  // ---------------------------------------------------------------------------
  // StochasticProvider
  // ---------------------------------------------------------------------------

  /**
   * StochasticProvider.Funcs with `shuffles` the permutation it draws. The loop
   * keeps the position `i` of each entry and drops the entry itself, so
   * creator `k` samples index `k` whatever the permutation was.
   */
  method StochasticFuncs<S>(p: StochasticProvider<S>, shuffles: seq<int>) returns (fs: seq<Creator>)
    requires p.totalSize >= 0
    requires IsPermutation(shuffles, p.totalSize)
    ensures |fs| == p.totalSize
    ensures forall k | 0 <= k < |fs| :: fs[k] == Single(k)
  {
    fs := [];
    for i := 0 to |shuffles|
      invariant |fs| == i
      invariant forall k | 0 <= k < i :: fs[k] == Single(k)
    {
      var k := i;
      fs := fs + [Single(k)];
    }
  }

  // ---------------------------------------------------------------------------
  // The interface, dispatched
  // ---------------------------------------------------------------------------

  /** `p.Funcs()` can run: the modulo has a non-zero divisor and rand.Perm a non-negative size. */
  predicate FuncsDefined<S>(p: EpochProvider<S>)
  {
    match p
    case Batch(_) => true
    case MiniBatch(m) => BatchSizeUsable(m.totalSize, m.batchSize)
    case Stochastic(q) => q.totalSize >= 0
  }

  /** The number of creators `p.Funcs()` returns. */
  function StepCount<S>(p: EpochProvider<S>): nat
    requires FuncsDefined(p)
  {
    match p
    case Batch(_) => 1
    case MiniBatch(m) => EmitCount(m.totalSize, m.totalSize, m.batchSize)
    case Stochastic(q) => q.totalSize
  }

  /** The objective creator `k` of `p.Funcs()` yields when called with the captured variables at `s`. */
  function StepFunction<S>(p: EpochProvider<S>, k: nat, s: S): Function
  {
    match p
    case Batch(f) => f
    case MiniBatch(m) => m.epochGen(s, [m.totalSize - 1])
    case Stochastic(q) => q.epochGen(s, k)
  }

  /**
   * Creator `c`, as its captured cell reads now, is the `k`-th creator of an
   * epoch of `p`: called, it yields StepFunction(p, k, s) for every `s`.
   */
  predicate Yields<S(!new)>(p: EpochProvider<S>, c: Creator, k: nat)
    reads if c.Window? then {c.shared} else {}
    ensures Yields(p, c, k) ==> Produces(p, c) && forall s :: Call(p, c, s) == StepFunction(p, k, s)
  {
    match c
    case Whole => p.Batch?
    case Window(shared) => p.MiniBatch? && shared.indices == [p.mini.totalSize - 1]
    case Single(j) => p.Stochastic? && j == k
  }

  method Funcs<S(!new)>(p: EpochProvider<S>, shuffles: seq<int>) returns (fs: seq<Creator>)
    requires FuncsDefined(p)
    requires p.Stochastic? ==> IsPermutation(shuffles, p.stochastic.totalSize)
    ensures |fs| == StepCount(p)
    ensures forall k | 0 <= k < |fs| :: Yields(p, fs[k], k)
  {
    match p
    case Batch(f) =>
      fs := BatchFuncs<S>(f);
    case MiniBatch(m) =>
      fs := MiniBatchFuncs(m);
    case Stochastic(q) =>
      fs := StochasticFuncs(q, shuffles);
  }

  /** The value a callback leaves in the captured variables: a nil callback does nothing. */
  function Invoke<S>(hook: Option<Hook<S>>, s: S, x: seq<real>): S
  {
    if hook.Some? then hook.value(s, x) else s
  }

  /** OnEpochEnd on values: the batch provider does nothing, the others call EpochEndFunc if set. */
  function EpochEnd<S>(p: EpochProvider<S>, s: S, x: seq<real>): S
  {
    match p
    case Batch(_) => s
    case MiniBatch(m) => Invoke(m.epochEndFunc, s, x)
    case Stochastic(q) => Invoke(q.epochEndFunc, s, x)
  }

  /** AfterUpdate on values: the batch provider does nothing, the others call AfterUpdateFunc if set. */
  function AfterStep<S>(p: EpochProvider<S>, s: S, x: seq<real>): S
  {
    match p
    case Batch(_) => s
    case MiniBatch(m) => Invoke(m.afterUpdateFunc, s, x)
    case Stochastic(q) => Invoke(q.afterUpdateFunc, s, x)
  }

  method OnEpochEnd<S>(p: EpochProvider<S>, x: seq<real>)
    modifies p.Env()
    ensures p.MiniBatch? ==> p.mini.env.value == Invoke(p.mini.epochEndFunc, old(p.mini.env.value), x)
    ensures p.Stochastic? ==> p.stochastic.env.value == Invoke(p.stochastic.epochEndFunc, old(p.stochastic.env.value), x)
  {
    match p
    case Batch(_) =>
    case MiniBatch(m) =>
      if m.epochEndFunc.Some? {
        m.env.value := m.epochEndFunc.value(m.env.value, x);
      }
    case Stochastic(q) =>
      if q.epochEndFunc.Some? {
        q.env.value := q.epochEndFunc.value(q.env.value, x);
      }
  }

  method AfterUpdate<S>(p: EpochProvider<S>, x: seq<real>)
    modifies p.Env()
    ensures p.MiniBatch? ==> p.mini.env.value == Invoke(p.mini.afterUpdateFunc, old(p.mini.env.value), x)
    ensures p.Stochastic? ==> p.stochastic.env.value == Invoke(p.stochastic.afterUpdateFunc, old(p.stochastic.env.value), x)
  {
    match p
    case Batch(_) =>
    case MiniBatch(m) =>
      if m.afterUpdateFunc.Some? {
        m.env.value := m.afterUpdateFunc.value(m.env.value, x);
      }
    case Stochastic(q) =>
      if q.afterUpdateFunc.Some? {
        q.env.value := q.afterUpdateFunc.value(q.env.value, x);
      }
  }
}
