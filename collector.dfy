/**
 * The agent's `Collector` (metrics/collector.go): a poll counter, the last
 * runtime sample and the last utilization sample, and the flat list of
 * metrics built from them. What the runtime and the OS report is an input.
 */
module Collector {
  import opened Wrappers
  import opened Numbers
  import opened Metrics

  /** The 28 gauges of one runtime sample, in the order the Go map literal lists them. */
  const RuntimeGaugeNames: seq<string> := [
    "RandomValue", "GCCPUFraction", "Alloc", "BuckHashSys", "Frees", "GCSys", "HeapAlloc",
    "HeapIdle", "HeapInuse", "HeapObjects", "HeapReleased", "HeapSys", "LastGC", "Lookups",
    "MCacheInuse", "MCacheSys", "MSpanInuse", "MSpanSys", "Mallocs", "NextGC", "NumForcedGC",
    "NumGC", "OtherSys", "PauseTotalNs", "StackInuse", "StackSys", "Sys", "TotalAlloc"]

  function RuntimeGaugeSet(): set<string> {
    set n | n in RuntimeGaugeNames
  }

  lemma {:induction false} DistinctSeqSetSize(s: seq<string>)
    requires forall i, j :: 0 <= i < j < |s| ==> s[i] != s[j]
    ensures |set n | n in s| == |s|
  {
    if s != [] {
      DistinctSeqSetSize(s[1..]);
      assert (set n | n in s) == {s[0]} + (set n | n in s[1..]);
    }
  }

  /** The runtime names are 28 distinct names. */
  lemma RuntimeGaugeCount()
    ensures |RuntimeGaugeSet()| == 28
  {
    assert forall i, j :: 0 <= i < j < |RuntimeGaugeNames| ==> RuntimeGaugeNames[i] != RuntimeGaugeNames[j];
    DistinctSeqSetSize(RuntimeGaugeNames);
  }

  /** A memory reading from gopsutil: total and free bytes as float64. */
  datatype MemorySample = MemorySample(total: Float64, free: Float64)

  const CpuPrefix: string := "CPUutilization"

  /** `fmt.Sprintf("CPUutilization%d", i)`. */
  function CpuKey(i: nat): string {
    CpuPrefix + NatToDecimal(i)
  }

  function CpuKeys(n: nat): set<string> {
    set i | 0 <= i < n :: CpuKey(i)
  }

  /** Distinct CPU indices give distinct keys, and no CPU key is a memory key. */
  lemma CpuKeyDistinct(i: nat, j: nat)
    ensures CpuKey(i) == CpuKey(j) ==> i == j
    ensures CpuKey(i) != "TotalMemory" && CpuKey(i) != "FreeMemory"
  {
    if CpuKey(i) == CpuKey(j) {
      assert CpuKey(i)[|CpuPrefix|..] == NatToDecimal(i);
      assert CpuKey(j)[|CpuPrefix|..] == NatToDecimal(j);
      NatToDecimalInjective(i, j);
    }
    assert CpuKey(i)[0] == 'C';
  }

  /**
   * `u` is the utilization sample for this memory reading and the first `n`
   * CPU readings: exactly TotalMemory, FreeMemory and CPUutilization0..n-1.
   */
  predicate Sampled(u: map<string, Float64>, memory: MemorySample, cpu: seq<Float64>, n: nat)
    requires n <= |cpu|
  {
    && u.Keys == {"TotalMemory", "FreeMemory"} + CpuKeys(n)
    && |u| == 2 + n
    && u["TotalMemory"] == memory.total
    && u["FreeMemory"] == memory.free
    && forall i :: 0 <= i < n ==> u[CpuKey(i)] == cpu[i]
  }

  lemma CpuKeysNext(n: nat)
    ensures CpuKeys(n + 1) == CpuKeys(n) + {CpuKey(n)}
  {
  }

  /** The key of CPU `n` is not yet in a sample of the first `n` readings. */
  lemma CpuKeyFresh(n: nat)
    ensures CpuKey(n) !in {"TotalMemory", "FreeMemory"} + CpuKeys(n)
  {
    CpuKeyDistinct(n, n);
    forall j | 0 <= j < n
      ensures CpuKey(n) != CpuKey(j)
    {
      CpuKeyDistinct(n, j);
    }
  }

  /** Adding the reading of CPU `n` under its own key extends a sample of the first `n` readings. */
  lemma SampledStep(u: map<string, Float64>, memory: MemorySample, cpu: seq<Float64>, n: nat)
    requires n < |cpu| && Sampled(u, memory, cpu, n)
    ensures Sampled(u[CpuKey(n) := cpu[n]], memory, cpu, n + 1)
  {
    CpuKeyFresh(n);
    CpuKeysNext(n);
    var k := CpuKey(n);
    var u' := u[k := cpu[n]];
    assert u'.Keys == u.Keys + {k};
    assert |u'| == |u| + 1;
    forall i | 0 <= i < n
      ensures u'[CpuKey(i)] == cpu[i]
    {
      assert CpuKey(i) in CpuKeys(n);
    }
  }

  class Collector {
    var pollCount: int64
    var runtimeMetrics: map<string, Float64>
    var utilizationMetrics: map<string, Float64>

    /** `NewCollector`: PollCount 0 and no samples yet. */
    constructor ()
      ensures pollCount == 0 && runtimeMetrics == map[] && utilizationMetrics == map[]
    {
      pollCount := 0;
      runtimeMetrics := map[];
      utilizationMetrics := map[];
    }

    /**
     * `UpdateRuntimeMetrics`: PollCount goes up by one (wrapping like Go's
     * int64) and the runtime sample is replaced by a map over exactly the 28
     * runtime names; `sample` gives the value read for each name, including
     * the random number behind RandomValue.
     */
    method UpdateRuntimeMetrics(sample: string -> Float64)
      modifies this
      ensures pollCount == AddWrap(old(pollCount), 1)
      ensures old(pollCount) as int < Int64Max ==> pollCount as int == old(pollCount) as int + 1
      ensures runtimeMetrics.Keys == RuntimeGaugeSet() && |runtimeMetrics| == 28
      ensures forall n :: n in runtimeMetrics ==> runtimeMetrics[n] == sample(n)
      ensures utilizationMetrics == old(utilizationMetrics)
    {
      pollCount := AddWrap(pollCount, 1);
      runtimeMetrics := map n | n in RuntimeGaugeNames :: sample(n);
      assert runtimeMetrics.Keys == RuntimeGaugeSet();
      RuntimeGaugeCount();
    }

    /**
     * `UpdateUtilizationMetrics`: when the memory reading fails nothing
     * changes; otherwise the sample becomes TotalMemory and FreeMemory, plus
     * one CPUutilization{i} key per CPU reading when that reading succeeds.
     */
    method UpdateUtilizationMetrics(memory: Option<MemorySample>, usage: Option<seq<Float64>>)
      modifies this
      ensures memory.None? ==> utilizationMetrics == old(utilizationMetrics)
      ensures memory.Some? && usage.None? ==> Sampled(utilizationMetrics, memory.value, [], 0)
      ensures memory.Some? && usage.Some? ==>
        Sampled(utilizationMetrics, memory.value, usage.value, |usage.value|)
      ensures pollCount == old(pollCount) && runtimeMetrics == old(runtimeMetrics)
    {
      if memory.None? {
        return;
      }
      utilizationMetrics := map["TotalMemory" := memory.value.total, "FreeMemory" := memory.value.free];
      assert CpuKeys(0) == {};
      if usage.None? {
        return;
      }
      var cpu := usage.value;
      for i := 0 to |cpu|
        invariant Sampled(utilizationMetrics, memory.value, cpu, i)
        invariant pollCount == old(pollCount) && runtimeMetrics == old(runtimeMetrics)
      {
        SampledStep(utilizationMetrics, memory.value, cpu, i);
        utilizationMetrics := utilizationMetrics[CpuKey(i) := cpu[i]];
      }
    }

    /**
     * `ListMetrics`: the counter PollCount first, then one gauge per runtime
     * entry, then one gauge per utilization entry; the collector is only read.
     */
    method ListMetrics() returns (ms: seq<Metric>)
      ensures |ms| == 1 + |runtimeMetrics| + |utilizationMetrics|
      ensures ms[0] == NewCounter("PollCount", pollCount)
      ensures forall i :: 0 <= i < |ms| ==> WellFormed(ms[i])
      ensures Ids(ms[1..1 + |runtimeMetrics|]) == runtimeMetrics.Keys
      ensures forall i :: 1 <= i < 1 + |runtimeMetrics| ==>
        ms[i].id in runtimeMetrics && ms[i] == NewGauge(ms[i].id, runtimeMetrics[ms[i].id])
      ensures Ids(ms[1 + |runtimeMetrics|..]) == utilizationMetrics.Keys
      ensures forall i :: 1 + |runtimeMetrics| <= i < |ms| ==>
        ms[i].id in utilizationMetrics && ms[i] == NewGauge(ms[i].id, utilizationMetrics[ms[i].id])
    {
      var runtime := ListGauges(runtimeMetrics);
      var utilization := ListGauges(utilizationMetrics);
      ms := [NewCounter("PollCount", pollCount)] + runtime + utilization;
      assert ms[1..1 + |runtimeMetrics|] == runtime;
      assert ms[1 + |runtimeMetrics|..] == utilization;
    }
  }
}
