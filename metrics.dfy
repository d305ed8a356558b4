/**
 * The older generation's agent state (metrics/metrics.go): a counter map that
 * starts with PollCount, and the last runtime sample as a gauge map.
 */
module LegacyMetrics {
  import opened Numbers
  import Collector

  /** Every counter one higher, with int64 wrap-around; no key added or removed. */
  function Increment(counters: map<string, int64>): (r: map<string, int64>)
    ensures r.Keys == counters.Keys
    ensures forall k :: k in counters && counters[k] as int < Int64Max ==> r[k] as int == counters[k] as int + 1
    ensures forall k :: k in counters && counters[k] as int == Int64Max ==> r[k] as int == Int64Min
  {
    map k | k in counters :: AddWrap(counters[k], 1)
  }

  /** The counter map after `n` updates starting from `counters`. */
  function Iterate(counters: map<string, int64>, n: nat): map<string, int64> {
    if n == 0 then counters else Increment(Iterate(counters, n - 1))
  }

  /** The counter map of `NewMetrics`. */
  const Initial: map<string, int64> := map["PollCount" := 0]

  /** After `n` updates from a new `Metrics`, PollCount is the only counter and equals `n` (while `n` fits in an int64). */
  lemma {:induction false} PollCountCountsUpdates(n: nat)
    requires n <= Int64Max
    ensures Iterate(Initial, n) == map["PollCount" := n as int64]
  {
    if n > 0 {
      PollCountCountsUpdates(n - 1);
      var prev := map["PollCount" := (n - 1) as int64];
      assert Increment(prev).Keys == {"PollCount"};
      assert Increment(prev)["PollCount"] as int == n;
      assert Increment(prev) == map["PollCount" := n as int64];
    }
  }

  class Metrics {
    var gaugeMetrics: map<string, Float64>
    var counterMetrics: map<string, int64>

    /** `NewMetrics`: no gauges and the single counter PollCount at 0. */
    constructor ()
      ensures gaugeMetrics == map[] && counterMetrics == Initial
    {
      gaugeMetrics := map[];
      counterMetrics := Initial;
    }

    /**
     * `Update`: every existing counter goes up by one, then the gauge map is
     * replaced by the 28 runtime names with the values `sample` reads.
     */
    method Update(sample: string -> Float64)
      modifies this
      ensures counterMetrics == Increment(old(counterMetrics))
      ensures gaugeMetrics.Keys == Collector.RuntimeGaugeSet() && |gaugeMetrics| == 28
      ensures forall n :: n in gaugeMetrics ==> gaugeMetrics[n] == sample(n)
    {
      ghost var before := counterMetrics;
      var rest := counterMetrics.Keys;
      while rest != {}
        invariant rest <= before.Keys && counterMetrics.Keys == before.Keys
        invariant forall k :: k in before ==>
          counterMetrics[k] == if k in rest then before[k] else AddWrap(before[k], 1)
        decreases |rest|
      {
        var name :| name in rest;
        counterMetrics := counterMetrics[name := AddWrap(counterMetrics[name], 1)];
        rest := rest - {name};
      }
      gaugeMetrics := map n | n in Collector.RuntimeGaugeNames :: sample(n);
      assert gaugeMetrics.Keys == Collector.RuntimeGaugeSet();
      Collector.RuntimeGaugeCount();
    }
  }
}
