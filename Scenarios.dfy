/**
 * Clients of the aggregator classes that replay three configurations on
 * integer sums, using nothing but the contracts of `Streaming`.
 */
module Scenarios {
  import opened Options
  import opened Streaming

  /** Two tasks, retained state: the round of 3 and 5 emits 8 and re-arms the counter. */
  method RetainedRound() {
    var g := new GraphAggregation<int, int, int>((acc: int, e: int) => acc + e, Some((a: int, b: int) => a + b), None, 0, false);
    var agg := g.GetAggregator(2);
    var out := new Collector<int>();
    agg.FlatMap(3, out);
    assert out.items == [] && agg.currentState == 3 && agg.toAggregate == 1;
    agg.FlatMap(5, out);
    assert out.items == [8] && agg.toAggregate == 2;
  }

  /** Two tasks, transient state: the 3 is discarded before the round closes, so 5 is emitted, not 8. */
  method TransientRound() {
    var g := new GraphAggregation<int, int, int>((acc: int, e: int) => acc + e, Some((a: int, b: int) => a + b), None, 0, true);
    var agg := g.GetAggregator(2);
    var out := new Collector<int>();
    agg.FlatMap(3, out);
    assert out.items == [] && agg.currentState == 0;
    agg.FlatMap(5, out);
    assert out.items == [5] && agg.currentState == 0 && agg.toAggregate == 2;
  }

  /** No combine function: 7, 2 and 9 come out as they went in, one per call. */
  method PassThroughStream() {
    var g := new GraphAggregation<int, int, int>((acc: int, e: int) => acc + e, None, None, 0, false);
    var agg := g.GetAggregator(2);
    var out := new Collector<int>();
    agg.FlatMap(7, out);
    assert out.items == [7];
    agg.FlatMap(2, out);
    assert out.items == [7, 2];
    agg.FlatMap(9, out);
    assert out.items == [7, 2, 9] && agg.toAggregate == 2;
  }
}
