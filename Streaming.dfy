/**
 * The classes of `GraphAggregation.java`: the immutable aggregation
 * configuration with its getters, and the stateful cross-partition
 * aggregator that `getAggregator` returns.
 */
module Streaming {
  import opened Options
  import opened AggregatorSpec

  /** The values a `flatMap` call hands to its `Collector`, in order. */
  class Collector<S> {
    var items: seq<S>

    constructor ()
      ensures items == []
    {
      items := [];
    }

    method Collect(x: S)
      modifies this
      ensures items == old(items) + [x]
    {
      items := items + [x];
    }
  }

  /**
   * An aggregation of a graph property over an edge stream. `E` stands for
   * the edge type `Edge<K, EV>`, `S` for the intermediate state and `T` for
   * the output. Every field is fixed by the constructor.
   */
  class GraphAggregation<E, !S, T> {
    const updateFun: (S, E) -> S
    const combineFun: Option<(S, S) -> S>
    const mergeFun: Option<S -> T>
    const initialValue: S
    const transientState: bool

    constructor (updateFun: (S, E) -> S, combineFun: Option<(S, S) -> S>, mergeFun: Option<S -> T>,
                 initialValue: S, transientState: bool)
      ensures GetUpdateFun() == updateFun
      ensures GetCombineFun() == combineFun
      ensures GetMergeFun() == mergeFun
      ensures GetInitialValue() == initialValue
      ensures IsTransientState() == transientState
    {
      this.updateFun := updateFun;
      this.combineFun := combineFun;
      this.mergeFun := mergeFun;
      this.initialValue := initialValue;
      this.transientState := transientState;
    }

    function GetCombineFun(): Option<(S, S) -> S> { combineFun }

    function GetUpdateFun(): (S, E) -> S { updateFun }

    function GetMergeFun(): Option<S -> T> { mergeFun }

    function IsTransientState(): bool { transientState }

    function GetInitialValue(): S { initialValue }

    /** `numTasks` is the parallelism the edge stream reports. */
    method GetAggregator(numTasks: Int32) returns (a: Aggregator<E, S, T>)
      ensures fresh(a) && a.Valid()
      ensures a.outer == this && a.numTasks == numTasks && a.initialVal == initialValue
      ensures a.currentState == initialValue && a.toAggregate == numTasks
      ensures a.contributions == [] && a.emitted == []
    {
      a := new Aggregator(this, numTasks);
    }
  }

  /**
   * The aggregator: it combines the partition states it receives and emits
   * the combined state once every `numTasks` contributions. `contributions`
   * and `emitted` record, for the proofs, every `s` received and every value
   * collected so far.
   */
  class Aggregator<E, !S, T> {
    const outer: GraphAggregation<E, S, T>
    const numTasks: Int32
    const initialVal: S

    var toAggregate: Int32
    var currentState: S

    ghost var contributions: seq<S>
    ghost var emitted: seq<S>

    /** The fixed part of the aggregator, as the specification sees it. */
    ghost function Config(): Setup<S> {
      Setup(outer.combineFun, numTasks, initialVal, outer.transientState)
    }

    ghost function Snapshot(): State<S>
      reads this
    {
      State(currentState, toAggregate)
    }

    /** The fields are those of a fresh aggregator after the calls recorded in `contributions`. */
    ghost predicate Valid()
      reads this
    {
      initialVal == outer.initialValue &&
      Trace(Snapshot(), emitted) == Run(Config(), contributions) &&
      (outer.combineFun.Some? && numTasks >= 1 ==> 1 <= toAggregate <= numTasks)
    }

    constructor (outer: GraphAggregation<E, S, T>, numTasks: Int32)
      ensures Valid()
      ensures this.outer == outer && this.numTasks == numTasks && initialVal == outer.initialValue
      ensures currentState == outer.initialValue && toAggregate == numTasks
      ensures contributions == [] && emitted == []
    {
      this.outer := outer;
      this.numTasks := numTasks;
      initialVal := outer.GetInitialValue();
      toAggregate := numTasks;
      currentState := outer.GetInitialValue();
      contributions := [];
      emitted := [];
    }

    /** Receives one partition state `s` and hands zero or one value to `collector`. */
    method FlatMap(s: S, collector: Collector<S>)
      requires Valid()
      modifies this, collector
      ensures Valid()
      ensures contributions == old(contributions) + [s]
      ensures Snapshot() == Step(Config(), old(Snapshot()), s).state
      ensures collector.items == old(collector.items) + Step(Config(), old(Snapshot()), s).emitted
      ensures emitted == old(emitted) + Step(Config(), old(Snapshot()), s).emitted
    {
      ghost var r := Step(Config(), Snapshot(), s);
      if outer.GetCombineFun().Some? {
        currentState := outer.GetCombineFun().value(currentState, s);
        toAggregate := Dec32(toAggregate);
        if toAggregate == 0 {
          collector.Collect(currentState);
          emitted := emitted + [currentState];
          toAggregate := numTasks;
        }
        if outer.IsTransientState() {
          currentState := initialVal;
        }
      } else {
        collector.Collect(s);
        emitted := emitted + [s];
      }
      contributions := contributions + [s];
      assert contributions[..|contributions| - 1] == old(contributions);
      assert Run(Config(), contributions) == Trace(r.state, old(emitted) + r.emitted);
    }
  }
}
