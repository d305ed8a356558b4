/**
 * The in-memory storage backend (storage/file_storage.go): counters add up,
 * gauges keep the last value written. The periodic snapshot to a file, the
 * restore at start-up and the lock are not part of this model.
 */
module Storage {
  import opened Wrappers
  import opened Numbers
  import opened Metrics

  /**
   * The storage package's sentinel errors. ErrInternal stands for any other
   * error a backend may return (the SQL backend's); the in-memory backend
   * never returns it.
   */
  datatype StorageError = ErrNotFound | ErrBadArgument | ErrUnknownMetricType | ErrInternal

  /** The contents of a storage: gauge values and counter totals by id. */
  datatype Store = Store(floats: map<string, Float64>, integers: map<string, int64>)

  /** The stored counter, or Go's zero value when the id is absent. */
  function CounterOr0(integers: map<string, int64>, id: string): int64 {
    if id in integers then integers[id] else 0
  }

  /** `Put` on the contents: the new contents, or the error with nothing changed. */
  function PutInto(st: Store, m: Metric): (r: Result<Store, StorageError>)
    ensures r.Ok? <==> HasPayload(m)
    ensures r == Err(ErrUnknownMetricType) <==> m.mtype != GaugeType && m.mtype != CounterType
    ensures r == Err(ErrBadArgument) <==> (m.mtype == GaugeType && m.value.None?) || (m.mtype == CounterType && m.delta.None?)
  {
    if m.mtype == GaugeType then
      if m.value.None? then Err(ErrBadArgument)
      else Ok(st.(floats := st.floats[m.id := m.value.value]))
    else if m.mtype == CounterType then
      if m.delta.None? then Err(ErrBadArgument)
      else Ok(st.(integers := st.integers[m.id := AddWrap(CounterOr0(st.integers, m.id), m.delta.value)]))
    else
      Err(ErrUnknownMetricType)
  }

  /** `Get` on the contents: the metric with the payload of its type filled in from storage. */
  function GetFrom(st: Store, m: Metric): (r: Result<Metric, StorageError>)
    ensures m.mtype != GaugeType && m.mtype != CounterType <==> r == Err(ErrUnknownMetricType)
    ensures m.mtype == GaugeType ==>
      if m.id in st.floats then r == Ok(m.(value := Some(st.floats[m.id]))) else r == Err(ErrNotFound)
    ensures m.mtype == CounterType ==>
      if m.id in st.integers then r == Ok(m.(delta := Some(st.integers[m.id]))) else r == Err(ErrNotFound)
  {
    if m.mtype == GaugeType then
      if m.id in st.floats then Ok(m.(value := Some(st.floats[m.id]))) else Err(ErrNotFound)
    else if m.mtype == CounterType then
      if m.id in st.integers then Ok(m.(delta := Some(st.integers[m.id]))) else Err(ErrNotFound)
    else
      Err(ErrUnknownMetricType)
  }

  /** Puts applied one after another, stopping at the first error. */
  function PutEach(st: Store, ms: seq<Metric>): Result<Store, StorageError>
    decreases |ms|
  {
    if ms == [] then Ok(st)
    else
      match PutInto(st, ms[0])
      case Err(e) => Err(e)
      case Ok(next) => PutEach(next, ms[1..])
  }

  /** `x + d1 + d2 + ...` with Go's int64 wrap-around at every step. */
  function WrapSum(x: int64, ds: seq<int64>): int64
    decreases |ds|
  {
    if ds == [] then x else WrapSum(AddWrap(x, ds[0]), ds[1..])
  }

  /**
   * Putting counter deltas ds for one id leaves that counter at the stored
   * value (0 when absent) plus all the deltas, and touches nothing else.
   */
  lemma {:induction false} CounterPutsAccumulate(st: Store, id: string, ds: seq<int64>)
    requires |ds| > 0
    ensures PutEach(st, seq(|ds|, i requires 0 <= i < |ds| => NewCounter(id, ds[i])))
         == Ok(st.(integers := st.integers[id := WrapSum(CounterOr0(st.integers, id), ds)]))
    decreases |ds|
  {
    var ms := seq(|ds|, i requires 0 <= i < |ds| => NewCounter(id, ds[i]));
    var next := PutInto(st, ms[0]).value;
    assert next == st.(integers := st.integers[id := AddWrap(CounterOr0(st.integers, id), ds[0])]);
    if |ds| > 1 {
      assert ms[1..] == seq(|ds[1..]|, i requires 0 <= i < |ds[1..]| => NewCounter(id, ds[1..][i]));
      CounterPutsAccumulate(next, id, ds[1..]);
      assert next.integers[id := WrapSum(CounterOr0(next.integers, id), ds[1..])]
          == st.integers[id := WrapSum(CounterOr0(st.integers, id), ds)];
    }
  }

  /** Putting gauge values vs for one id leaves the last of them, and touches nothing else. */
  lemma {:induction false} GaugePutsKeepLast(st: Store, id: string, vs: seq<Float64>)
    requires |vs| > 0
    ensures PutEach(st, seq(|vs|, i requires 0 <= i < |vs| => NewGauge(id, vs[i])))
         == Ok(st.(floats := st.floats[id := vs[|vs| - 1]]))
    decreases |vs|
  {
    var ms := seq(|vs|, i requires 0 <= i < |vs| => NewGauge(id, vs[i]));
    var next := PutInto(st, ms[0]).value;
    if |vs| > 1 {
      assert ms[1..] == seq(|vs[1..]|, i requires 0 <= i < |vs[1..]| => NewGauge(id, vs[1..][i]));
      GaugePutsKeepLast(next, id, vs[1..]);
      assert next.floats[id := vs[|vs| - 1]] == st.floats[id := vs[|vs| - 1]];
    }
  }

  /** Two counter puts give the same contents in either order. */
  lemma CounterPutsCommute(st: Store, a: Metric, b: Metric)
    requires a.mtype == CounterType && a.delta.Some?
    requires b.mtype == CounterType && b.delta.Some?
    ensures PutEach(st, [a, b]) == PutEach(st, [b, a])
  {
    var sa, sb := PutInto(st, a).value, PutInto(st, b).value;
    assert [a, b][1..] == [b] && [b, a][1..] == [a];
    assert PutEach(st, [a, b]) == PutEach(sa, [b]) == Ok(PutInto(sa, b).value);
    assert PutEach(st, [b, a]) == PutEach(sb, [a]) == Ok(PutInto(sb, a).value);
    if a.id == b.id {
      var x := CounterOr0(st.integers, a.id);
      assert CounterOr0(sa.integers, a.id) == AddWrap(x, a.delta.value);
      assert CounterOr0(sb.integers, a.id) == AddWrap(x, b.delta.value);
      AddWrapReorder(x, a.delta.value, b.delta.value);
      assert PutInto(sa, b).value.integers == PutInto(sb, a).value.integers;
    } else {
      assert PutInto(sa, b).value.integers == PutInto(sb, a).value.integers;
    }
  }

  /** After a successful Put, Get for the same id and type returns what is now stored there. */
  lemma GetAfterPut(st: Store, m: Metric, q: Metric)
    requires PutInto(st, m).Ok?
    requires q.id == m.id && q.mtype == m.mtype
    ensures m.mtype == GaugeType ==> GetFrom(PutInto(st, m).value, q) == Ok(q.(value := m.value))
    ensures m.mtype == CounterType ==>
      GetFrom(PutInto(st, m).value, q) == Ok(q.(delta := Some(AddWrap(CounterOr0(st.integers, m.id), m.delta.value))))
  {
  }

  /** The in-memory backend: `FileStorage`'s two maps, updated in place. */
  class FileStorage {
    var floats: map<string, Float64>
    var integers: map<string, int64>

    /** `newFileStorage` with restore off: both maps start empty. */
    constructor ()
      ensures floats == map[] && integers == map[]
    {
      floats := map[];
      integers := map[];
    }

    function Contents(): Store
      reads this
    {
      Store(floats, integers)
    }

    /**
     * `Put`: a gauge overwrites, a counter adds its delta (to 0 when absent);
     * a missing payload is ErrBadArgument, another type ErrUnknownMetricType,
     * and on an error nothing changes.
     */
    method Put(m: Metric) returns (err: Option<StorageError>)
      modifies this
      ensures PutInto(old(Contents()), m).Ok? ==> err == None && Contents() == PutInto(old(Contents()), m).value
      ensures PutInto(old(Contents()), m).Err? ==>
        err == Some(PutInto(old(Contents()), m).error) && Contents() == old(Contents())
    {
      if m.mtype == GaugeType {
        if m.value.None? {
          return Some(ErrBadArgument);
        }
        floats := floats[m.id := m.value.value];
      } else if m.mtype == CounterType {
        if m.delta.None? {
          return Some(ErrBadArgument);
        }
        integers := integers[m.id := AddWrap(CounterOr0(integers, m.id), m.delta.value)];
      } else {
        return Some(ErrUnknownMetricType);
      }
      return None;
    }

    /** `Get`: fills in the payload of the metric's type; the maps are only read. */
    method Get(m: Metric) returns (r: Result<Metric, StorageError>)
      ensures r == GetFrom(Contents(), m)
    {
      if m.mtype == GaugeType {
        if m.id !in floats {
          return Err(ErrNotFound);
        }
        r := Ok(m.(value := Some(floats[m.id])));
      } else if m.mtype == CounterType {
        if m.id !in integers {
          return Err(ErrNotFound);
        }
        r := Ok(m.(delta := Some(integers[m.id])));
      } else {
        r := Err(ErrUnknownMetricType);
      }
    }

    /** `List`: one gauge per stored gauge, then one counter per stored counter. */
    method List() returns (ms: seq<Metric>)
      ensures |ms| == |floats| + |integers|
      ensures Ids(ms[..|floats|]) == floats.Keys && Ids(ms[|floats|..]) == integers.Keys
      ensures forall i :: 0 <= i < |floats| ==> ms[i].id in floats && ms[i] == NewGauge(ms[i].id, floats[ms[i].id])
      ensures forall i :: |floats| <= i < |ms| ==> ms[i].id in integers && ms[i] == NewCounter(ms[i].id, integers[ms[i].id])
    {
      var gauges := ListGauges(floats);
      var counters := ListCounters(integers);
      ms := gauges + counters;
      assert ms[..|floats|] == gauges && ms[|floats|..] == counters;
    }
  }
}
