/**
 * Functional specification of the cross-partition aggregator that
 * `GraphAggregation.getAggregator` builds: one step per `flatMap` call, the
 * run of a whole sequence of calls, and the properties of that run.
 */
module AggregatorSpec {
  import opened Options

  const INT_MIN: int := -0x8000_0000
  const INT_MAX: int := 0x7FFF_FFFF
  const TWO_TO_32: int := 0x1_0000_0000

  /** A Java `int`. */
  type Int32 = x: int | INT_MIN <= x <= INT_MAX

  /** Java's `x--` on an `int`: two's-complement wrap-around at the lower bound. */
  function Dec32(x: Int32): Int32 {
    if x == INT_MIN then INT_MAX else x - 1
  }

  /**
   * What the aggregator fixes when it is created: the combine function
   * (`None` where the source holds `null`), the parallelism read from the
   * edge stream, the initial value and the transient flag.
   */
  datatype Setup<!S> = Setup(combineFun: Option<(S, S) -> S>, numTasks: Int32, initialVal: S, transientState: bool)

  /** The aggregator's two mutable fields. */
  datatype State<S> = State(currentState: S, toAggregate: Int32)

  /** A state together with the values handed to the collector. */
  datatype Trace<S> = Trace(state: State<S>, emitted: seq<S>)

  /** The state a fresh aggregator starts in. */
  function Init<S>(cfg: Setup<S>): State<S> {
    State(cfg.initialVal, cfg.numTasks)
  }

  /** One `flatMap(s, collector)` call: the new state and what it collects. */
  function Step<S>(cfg: Setup<S>, st: State<S>, s: S): (r: Trace<S>)
    // at most one value per call
    ensures |r.emitted| <= 1
    // no combine function: pass the contribution through, touch nothing
    ensures cfg.combineFun.None? ==> r == Trace(st, [s])
    // combine function: emit exactly when the decremented counter is 0, and
    // emit the freshly combined state, taken before any transient reset
    ensures cfg.combineFun.Some? ==>
      var combined := cfg.combineFun.value(st.currentState, s);
      (r.emitted != [] <==> Dec32(st.toAggregate) == 0) &&
      (r.emitted != [] ==> r.emitted == [combined] && r.state.toAggregate == cfg.numTasks) &&
      (r.emitted == [] ==> r.state.toAggregate == Dec32(st.toAggregate)) &&
      r.state.currentState == (if cfg.transientState then cfg.initialVal else combined)
    // with at least one task, the counter stays within 1..numTasks and the
    // round closes on the call that finds it at 1
    ensures cfg.combineFun.Some? && 1 <= st.toAggregate <= cfg.numTasks ==>
      1 <= r.state.toAggregate <= cfg.numTasks &&
      (r.emitted != [] <==> st.toAggregate == 1) &&
      (r.emitted == [] ==> r.state.toAggregate == st.toAggregate - 1)
  {
    match cfg.combineFun
    case None => Trace(st, [s])
    case Some(combine) =>
      var combined := combine(st.currentState, s);
      var remaining := Dec32(st.toAggregate);
      var counter := if remaining == 0 then cfg.numTasks else remaining;
      var current := if cfg.transientState then cfg.initialVal else combined;
      Trace(State(current, counter), if remaining == 0 then [combined] else [])
  }

  /** The calls `flatMap(xs[0])`, ..., `flatMap(xs[|xs| - 1])` on a fresh aggregator. */
  function Run<S>(cfg: Setup<S>, xs: seq<S>): (r: Trace<S>)
    ensures |r.emitted| <= |xs|
    decreases |xs|
  {
    if xs == [] then Trace(Init(cfg), [])
    else
      var prev := Run(cfg, xs[..|xs| - 1]);
      var next := Step(cfg, prev.state, xs[|xs| - 1]);
      Trace(next.state, prev.emitted + next.emitted)
  }

  /** `f(...f(f(a, xs[0]), xs[1])..., xs[|xs| - 1])`. */
  function FoldLeft<S>(f: (S, S) -> S, a: S, xs: seq<S>): S
    decreases |xs|
  {
    if xs == [] then a else f(FoldLeft(f, a, xs[..|xs| - 1]), xs[|xs| - 1])
  }

  // ---------------------------------------------------------------------
  // Pass-through mode
  // ---------------------------------------------------------------------

  /** Without a combine function every contribution is forwarded, in order, and the state never moves. */
  lemma {:induction false} PassThrough<S>(cfg: Setup<S>, xs: seq<S>)
    requires cfg.combineFun.None?
    ensures Run(cfg, xs) == Trace(Init(cfg), xs)
  {
    if xs != [] {
      PassThrough(cfg, xs[..|xs| - 1]);
      assert xs[..|xs| - 1] + [xs[|xs| - 1]] == xs;
    }
  }

  // ---------------------------------------------------------------------
  // The barrier counter
  // ---------------------------------------------------------------------

  lemma DivModUnique(n: int, d: int, q: int, r: int)
    requires d > 0 && 0 <= r < d && n == q * d + r
    ensures n / d == q && n % d == r
  {
    var q', r' := n / d, n % d;
    assert n == q' * d + r';
    assert (q - q') * d == r' - r;
    if q - q' >= 1 {
      assert false;
    } else if q - q' <= -1 {
      assert false;
    }
  }

  lemma DivModSucc(n: nat, d: int)
    requires d > 0
    ensures n % d == d - 1 ==> (n + 1) / d == n / d + 1 && (n + 1) % d == 0
    ensures n % d != d - 1 ==> (n + 1) / d == n / d && (n + 1) % d == n % d + 1
  {
    if n % d == d - 1 {
      DivModUnique(n + 1, d, n / d + 1, 0);
    } else {
      DivModUnique(n + 1, d, n / d, n % d + 1);
    }
  }

  /**
   * With `numTasks >= 1`, after `n` contributions the aggregator has emitted
   * `n / numTasks` values and its counter is `numTasks - n % numTasks`, so
   * it always lies in `1..numTasks`.
   */
  lemma {:induction false} RoundCount<S>(cfg: Setup<S>, xs: seq<S>)
    requires cfg.combineFun.Some? && cfg.numTasks >= 1
    ensures |Run(cfg, xs).emitted| == |xs| / cfg.numTasks
    ensures Run(cfg, xs).state.toAggregate == cfg.numTasks - |xs| % cfg.numTasks
    ensures 1 <= Run(cfg, xs).state.toAggregate <= cfg.numTasks
  {
    if xs != [] {
      RoundCount(cfg, xs[..|xs| - 1]);
      DivModSucc(|xs| - 1, cfg.numTasks);
    }
  }

  /** A round is closed by the call whose contribution makes the count a multiple of `numTasks`. */
  lemma RoundClosing<S>(cfg: Setup<S>, xs: seq<S>)
    requires cfg.combineFun.Some? && cfg.numTasks >= 1 && xs != []
    ensures var prev := Run(cfg, xs[..|xs| - 1]).emitted;
      var now := Run(cfg, xs).emitted;
      if |xs| % cfg.numTasks == 0 then |now| == |prev| + 1 && now[..|prev|] == prev
      else now == prev
  {
    RoundCount(cfg, xs[..|xs| - 1]);
    DivModSucc(|xs| - 1, cfg.numTasks);
  }

  /** A call never takes back what earlier calls emitted. */
  lemma RunExtends<S>(cfg: Setup<S>, xs: seq<S>)
    requires xs != []
    ensures Run(cfg, xs[..|xs| - 1]).emitted <= Run(cfg, xs).emitted
  {
  }

  /**
   * The call that completes round `k` (from 0) finds `k` values emitted
   * and emits the combination of the state it finds with its contribution.
   */
  lemma ClosingCall<S>(cfg: Setup<S>, xs: seq<S>, k: nat)
    requires cfg.combineFun.Some? && cfg.numTasks >= 1 && xs != [] && |xs| == (k + 1) * cfg.numTasks
    ensures var pre := Run(cfg, xs[..|xs| - 1]);
      |pre.emitted| == k &&
      Run(cfg, xs).emitted == pre.emitted + [cfg.combineFun.value(pre.state.currentState, xs[|xs| - 1])]
  {
    var pre := xs[..|xs| - 1];
    assert |pre| == k * cfg.numTasks + (cfg.numTasks - 1);
    DivModUnique(|pre|, cfg.numTasks, k, cfg.numTasks - 1);
    RoundCount(cfg, pre);
  }

  /**
   * With `numTasks <= 0` the counter starts at or below 0 and only reaches 0
   * again after wrapping around: no value is emitted during the first
   * `numTasks + 2^32 - 1` calls.
   */
  lemma {:induction false} NoRoundBeforeWrap<S>(cfg: Setup<S>, xs: seq<S>)
    requires cfg.combineFun.Some? && cfg.numTasks <= 0 && |xs| < cfg.numTasks + TWO_TO_32
    ensures Run(cfg, xs).emitted == []
    ensures Run(cfg, xs).state.toAggregate ==
      if cfg.numTasks - |xs| >= INT_MIN then cfg.numTasks - |xs| else cfg.numTasks - |xs| + TWO_TO_32
  {
    if xs != [] {
      NoRoundBeforeWrap(cfg, xs[..|xs| - 1]);
    }
  }

  /** ... and call number `numTasks + 2^32` emits once and restores the counter to `numTasks`. */
  lemma FirstRoundAfterWrap<S>(cfg: Setup<S>, xs: seq<S>)
    requires cfg.combineFun.Some? && cfg.numTasks <= 0 && |xs| == cfg.numTasks + TWO_TO_32
    ensures |Run(cfg, xs).emitted| == 1
    ensures Run(cfg, xs).state.toAggregate == cfg.numTasks
  {
    NoRoundBeforeWrap(cfg, xs[..|xs| - 1]);
  }

  // ---------------------------------------------------------------------
  // Retained state: running totals
  // ---------------------------------------------------------------------

  /** Without the transient flag the state is never reset: it is the left fold of all contributions. */
  lemma {:induction false} RetainedState<S>(cfg: Setup<S>, xs: seq<S>)
    requires cfg.combineFun.Some? && !cfg.transientState
    ensures Run(cfg, xs).state.currentState == FoldLeft(cfg.combineFun.value, cfg.initialVal, xs)
  {
    if xs != [] {
      RetainedState(cfg, xs[..|xs| - 1]);
    }
  }

  /** The `k`-th emitted value (from 0) is the fold of the first `k + 1` rounds of contributions. */
  lemma {:induction false} RetainedEmission<S>(cfg: Setup<S>, xs: seq<S>, k: nat)
    requires cfg.combineFun.Some? && !cfg.transientState && cfg.numTasks >= 1
    requires 0 < (k + 1) * cfg.numTasks <= |xs|
    ensures k < |Run(cfg, xs).emitted|
    ensures Run(cfg, xs).emitted[k] == FoldLeft(cfg.combineFun.value, cfg.initialVal, xs[..(k + 1) * cfg.numTasks])
  {
    var n, m := |xs| - 1, (k + 1) * cfg.numTasks;
    var pre := xs[..n];
    if m <= n {
      RetainedEmission(cfg, pre, k);
      RunExtends(cfg, xs);
      assert pre[..m] == xs[..m];
    } else {
      ClosingCall(cfg, xs, k);
      RetainedState(cfg, pre);
      assert xs[..m] == xs;
    }
  }

  /** Folding over a concatenation folds the second part from the result of the first. */
  lemma {:induction false} FoldLeftAppend<S>(f: (S, S) -> S, a: S, xs: seq<S>, ys: seq<S>)
    ensures FoldLeft(f, a, xs + ys) == FoldLeft(f, FoldLeft(f, a, xs), ys)
  {
    if ys == [] {
      assert xs + ys == xs;
    } else {
      FoldLeftAppend(f, a, xs, ys[..|ys| - 1]);
      assert (xs + ys)[..|xs + ys| - 1] == xs + ys[..|ys| - 1];
    }
  }

  /** Each emission after the first continues from the previous one: emissions are running totals across rounds. */
  lemma RunningTotals<S>(cfg: Setup<S>, xs: seq<S>, k: nat)
    requires cfg.combineFun.Some? && !cfg.transientState && cfg.numTasks >= 1
    requires 0 < (k + 1) * cfg.numTasks < (k + 2) * cfg.numTasks <= |xs|
    ensures k + 1 < |Run(cfg, xs).emitted|
    ensures Run(cfg, xs).emitted[k + 1] ==
      FoldLeft(cfg.combineFun.value, Run(cfg, xs).emitted[k], xs[(k + 1) * cfg.numTasks..(k + 2) * cfg.numTasks])
  {
    var m, m' := (k + 1) * cfg.numTasks, (k + 2) * cfg.numTasks;
    RetainedEmission(cfg, xs, k);
    RetainedEmission(cfg, xs, k + 1);
    assert xs[..m'] == xs[..m] + xs[m..m'];
    FoldLeftAppend(cfg.combineFun.value, cfg.initialVal, xs[..m], xs[m..m']);
  }

  // ---------------------------------------------------------------------
  // Transient state: reset after every contribution
  // ---------------------------------------------------------------------

  /** With the transient flag the state is back at the initial value after every call, emitting or not. */
  lemma TransientReset<S>(cfg: Setup<S>, xs: seq<S>)
    requires cfg.combineFun.Some? && cfg.transientState
    ensures Run(cfg, xs).state.currentState == cfg.initialVal
  {
  }

  /**
   * Hence the `k`-th emitted value combines the initial value with the last
   * contribution of its round only; the round's other contributions are lost.
   */
  lemma {:induction false} TransientEmission<S>(cfg: Setup<S>, xs: seq<S>, k: nat)
    requires cfg.combineFun.Some? && cfg.transientState && cfg.numTasks >= 1
    requires 0 < (k + 1) * cfg.numTasks <= |xs|
    ensures k < |Run(cfg, xs).emitted|
    ensures Run(cfg, xs).emitted[k] == cfg.combineFun.value(cfg.initialVal, xs[(k + 1) * cfg.numTasks - 1])
  {
    var n, m := |xs| - 1, (k + 1) * cfg.numTasks;
    var pre := xs[..n];
    if m <= n {
      TransientEmission(cfg, pre, k);
      RunExtends(cfg, xs);
    } else {
      ClosingCall(cfg, xs, k);
      TransientReset(cfg, pre);
    }
  }
}
