/**
 * `hmacSigner` (metrics/signature.go): a metric's digest is the hex text of
 * HMAC-SHA256(key, "{id}:{type}:{payload}"). A signer built from an empty key
 * is the nil signer, which signs nothing and accepts everything.
 */
module Signature {
  import opened Wrappers
  import opened Numbers
  import Hex
  import opened Metrics

  /**
   * The primitives signing relies on and this model leaves uninterpreted:
   * HMAC-SHA256 (RFC 2104 over SHA-256) of a message under a key, both taken
   * as the bytes of Go strings, and fmt's `%f` rendering of a float64.
   * Both are deterministic functions.
   */
  datatype Primitives = Primitives(hmacSha256: (string, string) -> seq<byte>, formatFixed: Float64 -> string)

  /** `*hmacSigner`; NoSigner is the nil pointer that NewHMACSigner("") returns. */
  datatype Signer = NoSigner | HmacSigner(key: string)

  /**
   * Why hashing did not produce a digest. UnknownMetricType and InvalidHex are
   * errors the Go code returns. NilDereference is the run-time panic raised by
   * `*metric.Delta` or `*metric.Value` on a metric whose payload is missing.
   */
  datatype HashError = UnknownMetricType | NilDereference | InvalidHex

  function NewHMACSigner(key: string): (s: Signer)
    ensures s.NoSigner? <==> key == ""
    ensures s.HmacSigner? ==> s.key == key
  {
    if key == "" then NoSigner else HmacSigner(key)
  }

  /** The text that is signed: "{id}:{type}:{payload}", the delta in `%d`, the value in `%f`. */
  function Message(p: Primitives, m: Metric): (r: Result<string, HashError>)
    ensures r.Ok? <==> HasPayload(m)
    ensures r == Err(UnknownMetricType) <==> m.mtype != CounterType && m.mtype != GaugeType
    ensures r.Ok? ==> |r.value| >= |m.id| + |m.mtype| + 2 && r.value[..|m.id| + |m.mtype| + 2] == m.id + ":" + m.mtype + ":"
  {
    if m.mtype == CounterType then
      if m.delta.None? then Err(NilDereference) else Ok(m.id + ":" + m.mtype + ":" + FormatInt(m.delta.value))
    else if m.mtype == GaugeType then
      if m.value.None? then Err(NilDereference) else Ok(m.id + ":" + m.mtype + ":" + p.formatFixed(m.value.value))
    else
      Err(UnknownMetricType)
  }

  /** `computeHash`: the HMAC of the message under the signer's key. */
  function ComputeHash(s: Signer, p: Primitives, m: Metric): (r: Result<seq<byte>, HashError>)
    requires s.HmacSigner?
    ensures r.Ok? <==> HasPayload(m)
    ensures r.Ok? ==> r.value == p.hmacSha256(s.key, Message(p, m).value)
  {
    match Message(p, m)
    case Ok(msg) => Ok(p.hmacSha256(s.key, msg))
    case Err(e) => Err(e)
  }

  /** `Sign`: sets Hash to the hex digest; on failure the metric is left as it was. */
  function Sign(s: Signer, p: Primitives, m: Metric): (r: Result<Metric, HashError>)
    ensures s.NoSigner? ==> r == Ok(m)
    ensures r.Err? <==> s.HmacSigner? && !HasPayload(m)
    ensures r.Err? ==> r.error == Message(p, m).error
    ensures r.Ok? ==> r.value == m.(hash := r.value.hash)
    ensures s.HmacSigner? && r.Ok? ==> r.value.hash == Hex.Encode(p.hmacSha256(s.key, Message(p, m).value))
    ensures s.HmacSigner? && r.Ok? ==> Hex.Decode(r.value.hash) == Some(p.hmacSha256(s.key, Message(p, m).value))
  {
    if s.NoSigner? then Ok(m)
    else
      match ComputeHash(s, p, m)
      case Ok(h) => Hex.DecodeEncode(h); Ok(m.(hash := Hex.Encode(h)))
      case Err(e) => Err(e)
  }

  /**
   * `Validate`: Ok(true) when the stored Hash decodes to the recomputed digest,
   * Ok(false) on a mismatch, and an error when the digest cannot be computed
   * or the Hash is not hex. Go returns `false` together with every error.
   */
  function Validate(s: Signer, p: Primitives, m: Metric): (r: Result<bool, HashError>)
    ensures s.NoSigner? ==> r == Ok(true)
    ensures s.HmacSigner? && !HasPayload(m) ==> r == Err(Message(p, m).error)
    ensures s.HmacSigner? && HasPayload(m) && Hex.Decode(m.hash).None? ==> r == Err(InvalidHex)
    ensures s.HmacSigner? && HasPayload(m) && Hex.Decode(m.hash).Some? ==>
      r == Ok(Hex.Decode(m.hash).value == p.hmacSha256(s.key, Message(p, m).value))
  {
    if s.NoSigner? then Ok(true)
    else
      match ComputeHash(s, p, m)
      case Err(e) => Err(e)
      case Ok(computed) =>
        match Hex.Decode(m.hash)
        case None => Err(InvalidHex)
        case Some(decoded) => Ok(computed == decoded)
  }

  /** The signed text does not depend on the Hash field. */
  lemma MessageIgnoresHash(p: Primitives, m: Metric, h: string)
    ensures Message(p, m.(hash := h)) == Message(p, m)
  {
  }

  /** Signing twice gives the same metric as signing once. */
  lemma SignIdempotent(s: Signer, p: Primitives, m: Metric)
    requires Sign(s, p, m).Ok?
    ensures Sign(s, p, Sign(s, p, m).value) == Sign(s, p, m)
  {
    MessageIgnoresHash(p, m, Sign(s, p, m).value.hash);
  }

  /** A metric the signer has just signed validates with the same signer. */
  lemma {:induction false} SignThenValidate(s: Signer, p: Primitives, m: Metric)
    requires HasPayload(m)
    ensures Sign(s, p, m).Ok?
    ensures Validate(s, p, Sign(s, p, m).value) == Ok(true)
  {
    if s.HmacSigner? {
      var h := ComputeHash(s, p, m).value;
      MessageIgnoresHash(p, m, Hex.Encode(h));
      Hex.DecodeEncode(h);
    }
  }
}
