/**
 * The metric record shared by agent and server (`metrics.Metric`), its two
 * constructors, and the "one metric per map entry" listing loops used by
 * `FileStorage.List` and `Collector.ListMetrics`.
 */
module Metrics {
  import opened Wrappers
  import opened Numbers

  const GaugeType: string := "gauge"
  const CounterType: string := "counter"

  /**
   * `metrics.Metric`. A payload that is `None` is a nil pointer. The legacy
   * `metrics.Metrics` struct of the older generation has exactly these
   * fields and is modelled by the same datatype.
   */
  datatype Metric = Metric(id: string, mtype: string, delta: Option<int64>, value: Option<Float64>, hash: string)

  /** Exactly one payload is present, and it is the one the metric's type selects. */
  predicate WellFormed(m: Metric) {
    || (m.mtype == CounterType && m.delta.Some? && m.value.None?)
    || (m.mtype == GaugeType && m.value.Some? && m.delta.None?)
  }

  /** The type is counter or gauge and the payload that type needs is present (the other may be too). */
  predicate HasPayload(m: Metric) {
    (m.mtype == CounterType && m.delta.Some?) || (m.mtype == GaugeType && m.value.Some?)
  }

  function NewGauge(id: string, value: Float64): (m: Metric)
    ensures WellFormed(m) && m.mtype == GaugeType && m.mtype != CounterType
    ensures m.id == id && m.value == Some(value) && m.hash == ""
  {
    Metric(id, GaugeType, None, Some(value), "")
  }

  function NewCounter(id: string, delta: int64): (m: Metric)
    ensures WellFormed(m) && m.mtype == CounterType && m.mtype != GaugeType
    ensures m.id == id && m.delta == Some(delta) && m.hash == ""
  {
    Metric(id, CounterType, Some(delta), None, "")
  }

  /** The ids that occur in a list of metrics. */
  function Ids(ms: seq<Metric>): set<string> {
    if ms == [] then {} else Ids(ms[..|ms| - 1]) + {ms[|ms| - 1].id}
  }

  lemma IdsAppend(ms: seq<Metric>, m: Metric)
    ensures Ids(ms + [m]) == Ids(ms) + {m.id}
  {
    assert (ms + [m])[..|ms|] == ms;
  }

  /** `for id, value := range m { result = append(result, NewGauge(id, value)) }`, in map order. */
  method ListGauges(m: map<string, Float64>) returns (ms: seq<Metric>)
    ensures |ms| == |m| && Ids(ms) == m.Keys
    ensures forall i :: 0 <= i < |ms| ==> ms[i].id in m && ms[i] == NewGauge(ms[i].id, m[ms[i].id])
  {
    ms := [];
    var rest := m.Keys;
    while rest != {}
      invariant rest <= m.Keys
      invariant Ids(ms) == m.Keys - rest
      invariant |ms| + |rest| == |m|
      invariant forall i :: 0 <= i < |ms| ==> ms[i].id in m && ms[i] == NewGauge(ms[i].id, m[ms[i].id])
    {
      var id :| id in rest;
      IdsAppend(ms, NewGauge(id, m[id]));
      ms := ms + [NewGauge(id, m[id])];
      rest := rest - {id};
    }
  }

  /** `for id, delta := range m { result = append(result, NewCounter(id, delta)) }`, in map order. */
  method ListCounters(m: map<string, int64>) returns (ms: seq<Metric>)
    ensures |ms| == |m| && Ids(ms) == m.Keys
    ensures forall i :: 0 <= i < |ms| ==> ms[i].id in m && ms[i] == NewCounter(ms[i].id, m[ms[i].id])
  {
    ms := [];
    var rest := m.Keys;
    while rest != {}
      invariant rest <= m.Keys
      invariant Ids(ms) == m.Keys - rest
      invariant |ms| + |rest| == |m|
      invariant forall i :: 0 <= i < |ms| ==> ms[i].id in m && ms[i] == NewCounter(ms[i].id, m[ms[i].id])
    {
      var id :| id in rest;
      IdsAppend(ms, NewCounter(id, m[id]));
      ms := ms + [NewCounter(id, m[id])];
      rest := rest - {id};
    }
  }
}
