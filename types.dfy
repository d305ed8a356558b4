/**
 * The older generation's `metrics.Metrics` hashing (metrics/types.go):
 * `SetHash`, `ValidateHash` and `computeHash` take the key as an argument
 * instead of holding it in a signer, and spell the type names as literals.
 */
module LegacyHash {
  import opened Wrappers
  import opened Numbers
  import Hex
  import opened Metrics
  import opened Signature

  /** The legacy signed text: "{id}:counter:{delta}" or "{id}:gauge:{value}". */
  function LegacyMessage(p: Primitives, m: Metric): (r: Result<string, HashError>)
  {
    if m.mtype == "counter" then
      if m.delta.None? then Err(NilDereference) else Ok(m.id + ":counter:" + FormatInt(m.delta.value))
    else if m.mtype == "gauge" then
      if m.value.None? then Err(NilDereference) else Ok(m.id + ":gauge:" + p.formatFixed(m.value.value))
    else
      Err(UnknownMetricType)
  }

  /** `computeHash(key)`: HMAC-SHA256 of the legacy text under `key`. */
  function ComputeHash(key: string, p: Primitives, m: Metric): (r: Result<seq<byte>, HashError>)
  {
    match LegacyMessage(p, m)
    case Ok(msg) => Ok(p.hmacSha256(key, msg))
    case Err(e) => Err(e)
  }

  /** `SetHash(key)`: assigns only the Hash field, and only when the digest can be computed. */
  function SetHash(key: string, p: Primitives, m: Metric): (r: Result<Metric, HashError>)
    ensures r.Err? <==> !HasPayload(m)
    ensures r == Err(UnknownMetricType) <==> m.mtype != CounterType && m.mtype != GaugeType
    ensures r.Ok? ==> r.value == m.(hash := r.value.hash) && r.value.hash == Hex.Encode(ComputeHash(key, p, m).value)
    ensures r.Ok? ==> Hex.Decode(r.value.hash) == Some(ComputeHash(key, p, m).value)
  {
    match ComputeHash(key, p, m)
    case Ok(sign) => Hex.DecodeEncode(sign); Ok(m.(hash := Hex.Encode(sign)))
    case Err(e) => Err(e)
  }

  /** `ValidateHash(key)`: as `hmacSigner.Validate`, with the key passed in. */
  function ValidateHash(key: string, p: Primitives, m: Metric): (r: Result<bool, HashError>)
    ensures r.Err? <==> !HasPayload(m) || Hex.Decode(m.hash).None?
    ensures HasPayload(m) && Hex.Decode(m.hash).None? ==> r == Err(InvalidHex)
    ensures m.mtype != CounterType && m.mtype != GaugeType ==> r == Err(UnknownMetricType)
  {
    match ComputeHash(key, p, m)
    case Err(e) => Err(e)
    case Ok(computed) =>
      match Hex.Decode(m.hash)
      case None => Err(InvalidHex)
      case Some(decoded) => Ok(computed == decoded)
  }

  /** The legacy text is the text the newer signer signs. */
  lemma LegacyMessageAgrees(p: Primitives, m: Metric)
    ensures LegacyMessage(p, m) == Message(p, m)
  {
    if m.mtype == "counter" && m.delta.Some? {
      assert m.id + ":counter:" + FormatInt(m.delta.value) == m.id + ":" + m.mtype + ":" + FormatInt(m.delta.value);
    } else if m.mtype == "gauge" && m.value.Some? {
      assert m.id + ":gauge:" + p.formatFixed(m.value.value) == m.id + ":" + m.mtype + ":" + p.formatFixed(m.value.value);
    }
  }

  /**
   * Both generations produce and accept the same digests: with a non-empty
   * key, SetHash and ValidateHash are the HMAC signer's Sign and Validate.
   */
  lemma LegacyAgreesWithSigner(key: string, p: Primitives, m: Metric)
    requires key != ""
    ensures SetHash(key, p, m) == Sign(NewHMACSigner(key), p, m)
    ensures ValidateHash(key, p, m) == Validate(NewHMACSigner(key), p, m)
  {
    LegacyMessageAgrees(p, m);
  }

  /** SetHash followed by ValidateHash with the same key accepts every counter and gauge with a payload. */
  lemma SetHashThenValidate(key: string, p: Primitives, m: Metric)
    requires HasPayload(m)
    ensures SetHash(key, p, m).Ok?
    ensures ValidateHash(key, p, SetHash(key, p, m).value) == Ok(true)
  {
    var h := ComputeHash(key, p, m).value;
    LegacyMessageAgrees(p, m);
    LegacyMessageAgrees(p, m.(hash := Hex.Encode(h)));
    MessageIgnoresHash(p, m, Hex.Encode(h));
    Hex.DecodeEncode(h);
  }
}
