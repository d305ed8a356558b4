/** Conversion between `metrics.Metric` and its protobuf message (proto/convert.go). */
module Proto {
  import opened Wrappers
  import opened Numbers
  import opened Metrics

  /**
   * The message's type enum. Other(n) is any number the enum does not name;
   * proto3 lets such numbers through on the wire.
   */
  datatype PbType = COUNTER | GAUGE | Other(code: int)

  /** The protobuf message: scalar fields, so both payloads are always present. */
  datatype PbMetric = PbMetric(id: string, mtype: PbType, delta: int64, value: Float64, hash: string)

  /**
   * The type ToPb leaves in the message for a metric whose type is neither
   * counter nor gauge: the enum field's zero value, kept apart from COUNTER
   * and GAUGE here.
   */
  const UnsetType: PbType := Other(0)

  /**
   * `FromPb`. For a type the enum does not name, Go assigns `Hash` through a
   * nil `*Metric` and panics; None stands for that panic.
   */
  function FromPb(pb: PbMetric): (r: Option<Metric>)
    ensures r.Some? <==> !pb.mtype.Other?
    ensures r.Some? ==> WellFormed(r.value) && r.value.id == pb.id && r.value.hash == pb.hash
    ensures pb.mtype == COUNTER ==> r.Some? && r.value.mtype == CounterType && r.value.delta == Some(pb.delta)
    ensures pb.mtype == GAUGE ==> r.Some? && r.value.mtype == GaugeType && r.value.value == Some(pb.value)
  {
    match pb.mtype
    case COUNTER => Some(NewCounter(pb.id, pb.delta).(hash := pb.hash))
    case GAUGE => Some(NewGauge(pb.id, pb.value).(hash := pb.hash))
    case Other(_) => None
  }

  /**
   * `ToPb`: copies Id and Hash, and the payload the type selects; the other
   * payload keeps its zero value. The payload of a well-formed metric is
   * present; the Go code dereferences it without a check.
   */
  function ToPb(m: Metric): (r: PbMetric)
    requires m.mtype == CounterType ==> m.delta.Some?
    requires m.mtype == GaugeType ==> m.value.Some?
    ensures r.id == m.id && r.hash == m.hash
    ensures m.mtype == CounterType ==> r.mtype == COUNTER && r.delta == m.delta.value && r.value == Zero
    ensures m.mtype == GaugeType ==> r.mtype == GAUGE && r.value == m.value.value && r.delta == 0
    ensures m.mtype != CounterType && m.mtype != GaugeType ==> r.mtype == UnsetType
  {
    if m.mtype == CounterType then PbMetric(m.id, COUNTER, m.delta.value, Zero, m.hash)
    else if m.mtype == GaugeType then PbMetric(m.id, GAUGE, 0, m.value.value, m.hash)
    else PbMetric(m.id, UnsetType, 0, Zero, m.hash)
  }

  /** A well-formed metric survives the trip through its protobuf message. */
  lemma FromToPb(m: Metric)
    requires WellFormed(m)
    ensures FromPb(ToPb(m)) == Some(m)
  {
  }

  /**
   * A message of a named type survives the trip through a metric, except that
   * the payload its type does not select comes back as zero.
   */
  lemma ToFromPb(pb: PbMetric)
    requires !pb.mtype.Other?
    ensures pb.mtype == COUNTER ==> ToPb(FromPb(pb).value) == pb.(value := Zero)
    ensures pb.mtype == GAUGE ==> ToPb(FromPb(pb).value) == pb.(delta := 0)
  {
  }
}
