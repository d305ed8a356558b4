/**
 * The older generation's in-memory storage (storage/storage.go): a gauge map
 * and a counter map behind a lock, written through PutGauge and UpdateCounter.
 */
module LegacyStorage {
  import opened Numbers
  import opened Metrics
  import Mem = Storage

  class Storage {
    var gaugeMetrics: map<string, Float64>
    var counterMetrics: map<string, int64>

    /** `NewStorage`: both maps start empty. */
    constructor ()
      ensures gaugeMetrics == map[] && counterMetrics == map[]
    {
      gaugeMetrics := map[];
      counterMetrics := map[];
    }

    /** Both maps as one value, in the newer storage's terms. */
    function Contents(): Mem.Store
      reads this
    {
      Mem.Store(gaugeMetrics, counterMetrics)
    }

    /** `PutGauge`: the last value written for a name wins. */
    method PutGauge(name: string, value: Float64)
      modifies this
      ensures gaugeMetrics == old(gaugeMetrics)[name := value]
      ensures counterMetrics == old(counterMetrics)
    {
      gaugeMetrics := gaugeMetrics[name := value];
    }

    /**
     * `UpdateCounter`: stores `value` for a new name and `value + stored` for a
     * known one, with int64 wrap-around; this is the newer storage's counter Put.
     */
    method UpdateCounter(name: string, value: int64)
      modifies this
      ensures name in old(counterMetrics) ==> counterMetrics == old(counterMetrics)[name := AddWrap(value, old(counterMetrics)[name])]
      ensures name !in old(counterMetrics) ==> counterMetrics == old(counterMetrics)[name := value]
      ensures counterMetrics == Mem.PutInto(Mem.Store(gaugeMetrics, old(counterMetrics)), NewCounter(name, value)).value.integers
      ensures gaugeMetrics == old(gaugeMetrics)
    {
      if name in counterMetrics {
        var storedValue := counterMetrics[name];
        counterMetrics := counterMetrics[name := AddWrap(value, storedValue)];
      } else {
        counterMetrics := counterMetrics[name := value];
      }
    }

    /** `GetGauge`: (value, true) exactly when the name is stored, else Go's zero value and false. */
    method GetGauge(name: string) returns (value: Float64, ok: bool)
      ensures ok <==> name in gaugeMetrics
      ensures value == if ok then gaugeMetrics[name] else Zero
    {
      ok := name in gaugeMetrics;
      value := if ok then gaugeMetrics[name] else Zero;
    }

    /** `GetCounter`: (value, true) exactly when the name is stored, else 0 and false. */
    method GetCounter(name: string) returns (value: int64, ok: bool)
      ensures ok <==> name in counterMetrics
      ensures value == if ok then counterMetrics[name] else 0
    {
      ok := name in counterMetrics;
      value := if ok then counterMetrics[name] else 0;
    }

    /** `GetMetrics`: the current pair of maps. */
    method GetMetrics() returns (gauges: map<string, Float64>, counters: map<string, int64>)
      ensures gauges == gaugeMetrics && counters == counterMetrics
    {
      gauges, counters := gaugeMetrics, counterMetrics;
    }
  }
}
