# Cross-partition graph aggregation (gelly-streaming `GraphAggregation`)

This project models the aggregation core of gelly-streaming's
`GraphAggregation` in Dafny and proves properties of it.

`GraphAggregation` describes the aggregation of a graph property over an edge
stream that runs on several parallel partitions. Its configuration is
immutable. It holds a per-partition fold function (`updateFun`), an optional
combine function (`combineFun`), an optional merge function (`mergeFun`), an
initial value and a `transientState` flag. `getAggregator` builds the
cross-partition aggregator. This is a single sequential consumer of partition
states with two mutable fields: `currentState` and the barrier countdown
`toAggretate` (spelled `toAggregate` here). On every `flatMap(s, collector)`
call it does one of two things:

- with no combine function, it forwards `s` unchanged;
- otherwise it combines `s` into `currentState` and decrements the counter.
  When the counter reaches 0 it emits the combined state and re-arms the
  counter to the parallelism `numTasks`. When `transientState` is set it then
  resets `currentState` to the initial value. This reset happens after EVERY
  call, not only after the call that emits.

Layout:

- `Options.dfy`: the `Option` type, which stands for a reference that may be `null`.
- `AggregatorSpec.dfy`: the functional specification. `Step` is one `flatMap` call and `Run` is a sequence of calls on a fresh aggregator. The lemmas state the barrier count, the pass-through mode, running totals and the transient reset.
- `Streaming.dfy`: the classes. `GraphAggregation` holds `const` fields and getters. `Aggregator` holds the two mutable fields and `FlatMap`. `Collector` stands for Flink's collector as a sequence of collected values. `Aggregator.Valid()` ties the fields to `Run` over every contribution received so far, so each lemma about `Run` holds of the object.
- `Scenarios.dfy`: verified clients that replay three configurations with integer sums on two tasks. Retained state emits 8 for contributions 3 and 5. Transient state emits 5. Pass-through forwards 7, 2, 9.

Java's `int` counter is an `Int32`, and `toAggretate--` is `Dec32`, which
wraps around at `Integer.MIN_VALUE` as Java does. With `numTasks >= 1` the
counter stays in `1..numTasks` and never wraps. With `numTasks <= 0` it
counts down, wraps, and first reaches 0 on call number `numTasks + 2^32`.

A parallelism of 0 or less is not rejected. The model accepts any `int` and
proves what happens up to and including the first emission
(`NoRoundBeforeWrap`, `FirstRoundAfterWrap`). `mergeFun` is stored and
returned, but the aggregator never applies it: it emits the state `S` itself.

## Model

| member | source | states |
|---|---|---|
| `AggregatorSpec.Step` | src/main/java/org/apache/flink/graph/streaming/GraphAggregation.java:85-101 | One call emits at most one value. With no combine function it emits exactly `s` and leaves both fields alone. With a combine function it emits exactly when the decremented counter is 0. The emitted value is `combine(old currentState, s)`, taken before any reset, and the counter is then re-armed to `numTasks`. Otherwise the counter is decremented. The new state is the initial value when transient, else the combined value. From a counter in `1..numTasks` it stays in `1..numTasks`, and the call emits iff the counter was 1. |
| `AggregatorSpec.Run` | src/main/java/org/apache/flink/graph/streaming/GraphAggregation.java:78-101 | A sequence of calls on a fresh aggregator emits no more values than it received contributions. |
| `AggregatorSpec.PassThrough` | src/main/java/org/apache/flink/graph/streaming/GraphAggregation.java:98-99 | With no combine function the output is exactly the input stream, in order. The state stays at its initial value. |
| `AggregatorSpec.RoundCount` | src/main/java/org/apache/flink/graph/streaming/GraphAggregation.java:81-93 | With `numTasks >= 1`, after `n` calls exactly `n / numTasks` values have been emitted. The counter is `numTasks - n % numTasks` and lies in `1..numTasks`. |
| `AggregatorSpec.RoundClosing` | src/main/java/org/apache/flink/graph/streaming/GraphAggregation.java:88-93 | Call number `n` adds one value to the output, keeping what was emitted before, iff `n` is a multiple of `numTasks`. Otherwise it leaves the output unchanged. |
| `AggregatorSpec.NoRoundBeforeWrap` | src/main/java/org/apache/flink/graph/streaming/GraphAggregation.java:78-92 | With `numTasks <= 0` nothing is emitted during the first `numTasks + 2^32 - 1` calls. The counter is `numTasks - n`, taken modulo 2^32 into Java's `int` range. |
| `AggregatorSpec.FirstRoundAfterWrap` | src/main/java/org/apache/flink/graph/streaming/GraphAggregation.java:88-92 | With `numTasks <= 0`, call number `numTasks + 2^32` is the first to emit. It restores the counter to `numTasks`. |
| `AggregatorSpec.RetainedState` | src/main/java/org/apache/flink/graph/streaming/GraphAggregation.java:82-87 | Without the transient flag the state after contributions `xs` is the left fold of `combine` over `xs` from the initial value. It is never reset. |
| `AggregatorSpec.RetainedEmission` | src/main/java/org/apache/flink/graph/streaming/GraphAggregation.java:87-93 | Without the transient flag the `k`-th emitted value is the left fold of the first `(k + 1) * numTasks` contributions. |
| `AggregatorSpec.RunningTotals` | src/main/java/org/apache/flink/graph/streaming/GraphAggregation.java:87-96 | Without the transient flag each emission folds the next round's contributions into the previous emission, so the outputs are running totals across rounds. |
| `AggregatorSpec.TransientReset` | src/main/java/org/apache/flink/graph/streaming/GraphAggregation.java:95-97 | With the transient flag the state is the initial value after every call, whether or not the call emitted. |
| `AggregatorSpec.TransientEmission` | src/main/java/org/apache/flink/graph/streaming/GraphAggregation.java:87-97 | With the transient flag the `k`-th emitted value is `combine(initialVal, s)`, where `s` is the last contribution of round `k`. The round's other contributions are discarded. |
| `Streaming.GraphAggregation.constructor` | src/main/java/org/apache/flink/graph/streaming/GraphAggregation.java:36-73 | Each getter returns exactly the value passed to the constructor. The fields are `const`, so nothing reassigns them. |
| `Streaming.GraphAggregation.GetAggregator` | src/main/java/org/apache/flink/graph/streaming/GraphAggregation.java:75-83 | Returns a fresh aggregator over this configuration. Its counter is `numTasks`, its state is the initial value, and it has received and emitted nothing. |
| `Streaming.Aggregator.constructor` | src/main/java/org/apache/flink/graph/streaming/GraphAggregation.java:78-82 | The fields start at `numTasks` and the initial value, which is the state `Run` gives for no contributions. |
| `Streaming.Aggregator.FlatMap` | src/main/java/org/apache/flink/graph/streaming/GraphAggregation.java:85-101 | The new fields and the values appended to the collector are exactly those of `Step` from the old fields. The object invariant still ties the fields to `Run` over all contributions so far, and with `numTasks >= 1` it keeps the counter in `1..numTasks`. |

## Left out

- `run(DataStream)` is abstract and is not modelled. It is stream wiring that lives in subclasses, as do the per-partition application of `updateFun` and windowing. The configuration still stores `updateFun` and returns it.
- `edgeStream.getParallelism()` is a call into the Flink runtime. Its result is the `numTasks` parameter of `GetAggregator`.
- Flink's `Collector` interface is modelled as `Streaming.Collector`, a class that records what it receives. What real collectors do downstream is not modelled.
- Exceptions that the user's combine function may throw are not modelled. The combine, fold and merge functions are total Dafny functions.
- A `null` `updateFun` or `mergeFun` is only stored and returned by the source, and it has no behaviour to model. `mergeFun` is an `Option` and `updateFun` is a plain function.
- Running partitions in parallel and serializing their contributions into one aggregator belong to the runtime. The aggregator is modelled as a sequential object.
- `S` is modelled as a value, and the combine function is assumed not to change its arguments. In the source, `currentState` is the very object `initialVal` when the aggregator is created (line 82) and again after every transient reset (line 96). `initialVal` is in turn the configuration's `initialValue` (lines 79 and 71-72), and `collector.collect(currentState)` hands out the current object as well. A combine function that updates its first argument in place would therefore change `initialVal` on the very first call, in either mode. `getInitialValue()` and every aggregator later built from the same configuration would see that change, a later reset would no longer restore the initial value, and in retained mode values already collected would change too. `Streaming.GraphAggregation.constructor`, `Streaming.GraphAggregation.GetAggregator`, `TransientReset`, `TransientEmission`, `RetainedEmission` and `RunningTotals` describe the source only for combine functions that do not change their arguments.
- The getters `getCombineFun()`, `isTransientState()` and `getInitialValue()` are public and could be overridden in a subclass of the abstract class. The model assumes they are not, and reads the fields directly.
- With `numTasks <= 0` the values emitted, and the rounds after the first emission, are not described.
