/**
 * The HTTP handlers of the server (server/handlers.go) over the in-memory
 * storage. Each handler is specified by a function of the storage contents
 * and the request, and the handler methods on `Server` are proved to do
 * what those functions say. JSON, float text and the transport are
 * parameters; the response is its status code and body.
 */
module HttpServer {
  import opened Wrappers
  import opened Numbers
  import Hex
  import opened Metrics
  import opened Signature
  import Rsa
  import opened Storage

  const StatusOK: int := 200
  const StatusBadRequest: int := 400
  const StatusNotFound: int := 404
  const StatusInternalServerError: int := 500
  const StatusNotImplemented: int := 501

  const JsonContentType: string := "application/json"

  /**
   * Text and JSON conversions the handlers call: `strconv.ParseFloat(s, 64)`
   * (None: the parse error), `strconv.FormatFloat(v, 'f', -1, 64)`,
   * `json.Unmarshal` into one metric or a list of metrics (None: the decode
   * error) and the text `json.Encoder.Encode` writes for a metric it can encode.
   */
  datatype Codec = Codec(
    parseFloat: string -> Option<Float64>,
    formatFloat: Float64 -> string,
    decodeMetric: seq<byte> -> Option<Metric>,
    decodeBatch: seq<byte> -> Option<seq<Metric>>,
    encodeMetric: Metric -> string)

  /** What a `Server` is built with besides its storage. */
  datatype Config = Config(signer: Signer, decrypter: Rsa.Decrypter, prims: Primitives, codec: Codec)

  /** A request as the JSON handlers see it: its Content-Type header and its body (None: reading it failed). */
  datatype Request = Request(contentType: string, body: Option<seq<byte>>)

  /**
   * What the client gets: a status and a body, or nothing at all because the
   * handler panicked (net/http then drops the connection).
   */
  datatype Reply = Reply(status: int, body: string) | Aborted

  /** A reply together with the storage contents after the handler ran. */
  datatype Handled = Handled(reply: Reply, store: Store)

  /** `handleStorageError`. */
  function StatusOf(e: StorageError): (status: int)
    ensures status == StatusNotImplemented <==> e == ErrUnknownMetricType
    ensures status == StatusBadRequest <==> e == ErrBadArgument
    ensures status == StatusNotFound <==> e == ErrNotFound
    ensures status == StatusInternalServerError <==> e == ErrInternal
  {
    match e
    case ErrUnknownMetricType => StatusNotImplemented
    case ErrBadArgument => StatusBadRequest
    case ErrNotFound => StatusNotFound
    case ErrInternal => StatusInternalServerError
  }

  function Status(status: int): Reply {
    Reply(status, "")
  }

  /**
   * Put a metric and answer 200, or answer with the storage error and keep
   * the contents: 200 exactly with the payload of its type, 501 for another
   * type, 400 for a missing payload; after a 200 the metric reads back.
   */
  function Stored(st: Store, m: Metric): (h: Handled)
    ensures h.reply.Reply? && h.reply.body == ""
    ensures h.reply.status == StatusOK <==> HasPayload(m)
    ensures h.reply.status == StatusNotImplemented <==> m.mtype != GaugeType && m.mtype != CounterType
    ensures h.reply.status == StatusBadRequest <==> (m.mtype == GaugeType || m.mtype == CounterType) && !HasPayload(m)
    ensures h.reply.status != StatusOK ==> h.store == st
    ensures h.reply.status == StatusOK ==> h.store == PutInto(st, m).value
    ensures h.store.floats - {m.id} == st.floats - {m.id} && h.store.integers - {m.id} == st.integers - {m.id}
    ensures m.mtype != GaugeType ==> h.store.floats == st.floats
    ensures m.mtype != CounterType ==> h.store.integers == st.integers
    ensures m.mtype == GaugeType && HasPayload(m) ==> GetFrom(h.store, m) == Ok(m)
    ensures m.mtype == CounterType && HasPayload(m) ==>
      GetFrom(h.store, m) == Ok(m.(delta := Some(AddWrap(CounterOr0(st.integers, m.id), m.delta.value))))
  {
    match PutInto(st, m)
    case Ok(next) => Handled(Status(StatusOK), next)
    case Err(e) => Handled(Status(StatusOf(e)), st)
  }

  /** `GET /value/{type}/{name}`: the stored value as text. */
  function PlainGet(c: Codec, st: Store, mtype: string, id: string): (r: Reply)
    ensures mtype == GaugeType ==>
      r == if id in st.floats then Reply(StatusOK, c.formatFloat(st.floats[id])) else Status(StatusNotFound)
    ensures mtype == CounterType ==>
      r == if id in st.integers then Reply(StatusOK, FormatInt(st.integers[id])) else Status(StatusNotFound)
    ensures mtype != GaugeType && mtype != CounterType ==> r == Status(StatusNotImplemented)
  {
    match GetFrom(st, Metric(id, mtype, None, None, ""))
    case Err(e) => Status(StatusOf(e))
    case Ok(m) =>
      if m.mtype == GaugeType then Reply(StatusOK, c.formatFloat(m.value.value))
      else if m.mtype == CounterType then Reply(StatusOK, FormatInt(m.delta.value))
      else Reply(StatusOK, "")
  }

  /** `POST /update/{type}/{name}/{value}`: parse the value by type, then put. */
  function PlainPut(c: Codec, st: Store, mtype: string, id: string, text: string): (h: Handled)
    ensures h.reply.Reply? && h.reply.body == ""
    ensures h.reply.status == StatusNotImplemented <==> mtype != GaugeType && mtype != CounterType
    ensures h.reply.status == StatusBadRequest <==>
      (mtype == GaugeType && c.parseFloat(text).None?) || (mtype == CounterType && ParseInt(text).None?)
    ensures h.reply.status == StatusOK || h.store == st
    ensures mtype == GaugeType && c.parseFloat(text).Some? ==>
      h == Handled(Status(StatusOK), st.(floats := st.floats[id := c.parseFloat(text).value]))
    ensures mtype == CounterType && ParseInt(text).Some? ==>
      h == Handled(Status(StatusOK), st.(integers := st.integers[id := AddWrap(CounterOr0(st.integers, id), ParseInt(text).value)]))
  {
    if mtype == GaugeType then
      match c.parseFloat(text)
      case None => Handled(Status(StatusBadRequest), st)
      case Some(v) => Stored(st, NewGauge(id, v))
    else if mtype == CounterType then
      match ParseInt(text)
      case None => Handled(Status(StatusBadRequest), st)
      case Some(d) => Stored(st, NewCounter(id, d))
    else
      Handled(Status(StatusNotImplemented), st)
  }

  /**
   * One metric of `PutMetricJSON` or of the batch: validate when a signer is
   * set (an error is 500, a mismatch 400, a missing payload the panic of
   * `computeHash`), then put. Ok carries the new contents; on Err nothing changed.
   */
  function ApplyOne(cfg: Config, st: Store, m: Metric): (r: Result<Store, Reply>)
    ensures r.Ok? <==> Validate(cfg.signer, cfg.prims, m) == Ok(true) && PutInto(st, m).Ok?
    ensures r.Ok? ==> r.value == PutInto(st, m).value
    ensures cfg.signer.NoSigner? && PutInto(st, m).Err? ==> r == Err(Status(StatusOf(PutInto(st, m).error)))
    ensures cfg.signer.HmacSigner? && m.mtype != GaugeType && m.mtype != CounterType ==>
      r == Err(Status(StatusInternalServerError))
    ensures cfg.signer.HmacSigner? && !HasPayload(m) && (m.mtype == GaugeType || m.mtype == CounterType) ==>
      r == Err(Aborted)
    ensures cfg.signer.HmacSigner? && HasPayload(m) && Hex.Decode(m.hash).None? ==>
      r == Err(Status(StatusInternalServerError))
    ensures Validate(cfg.signer, cfg.prims, m) == Ok(false) ==> r == Err(Status(StatusBadRequest))
  {
    var valid := if cfg.signer.HmacSigner? then Validate(cfg.signer, cfg.prims, m) else Ok(true);
    if valid == Err(NilDereference) then Err(Aborted)
    else if valid.Err? then Err(Status(StatusInternalServerError))
    else if !valid.value then Err(Status(StatusBadRequest))
    else
      match PutInto(st, m)
      case Err(e) => Err(Status(StatusOf(e)))
      case Ok(next) => Ok(next)
  }

  /**
   * The batch loop: the contents after it, how many metrics were applied
   * before it stopped, and the reply of the metric that stopped it.
   */
  datatype BatchResult = BatchResult(store: Store, applied: nat, failure: Option<Reply>)

  function ApplyBatch(cfg: Config, st: Store, ms: seq<Metric>): BatchResult
    decreases |ms|
  {
    if ms == [] then BatchResult(st, 0, None)
    else
      match ApplyOne(cfg, st, ms[0])
      case Err(r) => BatchResult(st, 0, Some(r))
      case Ok(next) =>
        var rest := ApplyBatch(cfg, next, ms[1..]);
        rest.(applied := rest.applied + 1)
  }

  /**
   * The batch applies metrics in order and stops at the first failure: the
   * first `applied` metrics all went through and produced the final
   * contents, the next one failed with the batch's reply and changed
   * nothing, and the rest were never looked at. No failure means every
   * metric was applied.
   */
  lemma {:induction false} BatchStopsAtFirstFailure(cfg: Config, st: Store, ms: seq<Metric>)
    ensures ApplyBatch(cfg, st, ms).applied <= |ms|
    ensures ApplyBatch(cfg, st, ms).failure.None? <==> ApplyBatch(cfg, st, ms).applied == |ms|
    ensures ApplyBatch(cfg, st, ms[..ApplyBatch(cfg, st, ms).applied])
         == ApplyBatch(cfg, st, ms).(failure := None)
    ensures ApplyBatch(cfg, st, ms).failure.Some? ==>
      ApplyOne(cfg, ApplyBatch(cfg, st, ms).store, ms[ApplyBatch(cfg, st, ms).applied])
        == Err(ApplyBatch(cfg, st, ms).failure.value)
    decreases |ms|
  {
    var b := ApplyBatch(cfg, st, ms);
    if ms != [] {
      match ApplyOne(cfg, st, ms[0])
      case Err(r) =>
        assert ms[..0] == [];
      case Ok(next) =>
        BatchStopsAtFirstFailure(cfg, next, ms[1..]);
        var rest := ApplyBatch(cfg, next, ms[1..]);
        assert ms[..b.applied][1..] == ms[1..][..rest.applied];
        assert ms[..b.applied][0] == ms[0];
    }
  }

  /** Without a signer a batch is exactly the storage's puts in order, stopping at the first storage error. */
  lemma {:induction false} UnsignedBatchIsPutEach(cfg: Config, st: Store, ms: seq<Metric>)
    requires cfg.signer.NoSigner?
    ensures ApplyBatch(cfg, st, ms).failure.None? <==> PutEach(st, ms).Ok?
    ensures PutEach(st, ms).Ok? ==> ApplyBatch(cfg, st, ms).store == PutEach(st, ms).value
    ensures PutEach(st, ms).Err? ==> ApplyBatch(cfg, st, ms).failure == Some(Status(StatusOf(PutEach(st, ms).error)))
    decreases |ms|
  {
    if ms != [] {
      match PutInto(st, ms[0])
      case Err(e) =>
      case Ok(next) =>
        UnsignedBatchIsPutEach(cfg, next, ms[1..]);
    }
  }

  /** The request body after `decryptRequestBody`: None when reading or decrypting fails. */
  function RequestBody(d: Rsa.Decrypter, req: Request): (r: Option<seq<byte>>)
    ensures req.body.None? ==> r.None?
    ensures d.NoDecrypter? ==> r == req.body
    ensures d.RsaDecrypter? && req.body.Some? ==> r == Rsa.Decrypted(d, req.body.value)
    ensures d.RsaDecrypter? && req.body.Some? ==>
      (r.None? <==> exists w :: w in Rsa.Windows(d.keySize, req.body.value) && d.decryptBlock(w).None?)
  {
    match req.body
    case None => None
    case Some(b) => Rsa.Decrypted(d, b)
  }

  /**
   * A body the agent encrypted with the public key matching the server's
   * private key is read as its plaintext, so an encrypted JSON write is
   * handled exactly like the same write sent in the clear to a server
   * without a decrypter.
   */
  lemma EncryptedBodyReadsAsPlaintext(cfg: Config, e: Rsa.Encrypter, st: Store, contentType: string, plain: seq<byte>)
    requires Rsa.KeyPair(e, cfg.decrypter)
    requires e.RsaEncrypter? && plain != [] ==> Rsa.Step(e.keySize) > 0
    requires Rsa.Encrypted(e, plain).Some?
    ensures RequestBody(cfg.decrypter, Request(contentType, Some(Rsa.Encrypted(e, plain).value))) == Some(plain)
    ensures JsonPut(cfg, st, Request(contentType, Some(Rsa.Encrypted(e, plain).value)))
         == JsonPut(cfg.(decrypter := Rsa.NoDecrypter), st, Request(contentType, Some(plain)))
  {
    Rsa.DecryptInvertsEncrypt(e, cfg.decrypter, plain);
  }

  /** `POST /update/` with one JSON metric. */
  function JsonPut(cfg: Config, st: Store, req: Request): (h: Handled)
    ensures req.contentType != JsonContentType ==> h == Handled(Status(StatusBadRequest), st)
    ensures req.contentType == JsonContentType && RequestBody(cfg.decrypter, req).None? ==>
      h == Handled(Status(StatusInternalServerError), st)
    ensures h.reply != Status(StatusOK) ==> h.store == st
    ensures req.contentType == JsonContentType && RequestBody(cfg.decrypter, req).Some?
            && cfg.codec.decodeMetric(RequestBody(cfg.decrypter, req).value).None? ==>
      h == Handled(Status(StatusBadRequest), st)
    ensures req.contentType == JsonContentType && RequestBody(cfg.decrypter, req).Some?
            && cfg.codec.decodeMetric(RequestBody(cfg.decrypter, req).value).Some? ==>
      var m := cfg.codec.decodeMetric(RequestBody(cfg.decrypter, req).value).value;
      && (ApplyOne(cfg, st, m).Err? ==> h == Handled(ApplyOne(cfg, st, m).error, st))
      && (ApplyOne(cfg, st, m).Ok? ==> h == Handled(Status(StatusOK), ApplyOne(cfg, st, m).value))
    ensures h.reply == Status(StatusOK) <==>
      && req.contentType == JsonContentType
      && RequestBody(cfg.decrypter, req).Some?
      && cfg.codec.decodeMetric(RequestBody(cfg.decrypter, req).value).Some?
      && ApplyOne(cfg, st, cfg.codec.decodeMetric(RequestBody(cfg.decrypter, req).value).value).Ok?
  {
    if req.contentType != JsonContentType then Handled(Status(StatusBadRequest), st)
    else
      match RequestBody(cfg.decrypter, req)
      case None => Handled(Status(StatusInternalServerError), st)
      case Some(data) =>
        match cfg.codec.decodeMetric(data)
        case None => Handled(Status(StatusBadRequest), st)
        case Some(m) =>
          match ApplyOne(cfg, st, m)
          case Err(r) => Handled(r, st)
          case Ok(next) => Handled(Status(StatusOK), next)
  }

  /** `POST /updates/` with a JSON list of metrics. */
  function JsonBatch(cfg: Config, st: Store, req: Request): (h: Handled)
    ensures req.contentType != JsonContentType ==> h == Handled(Status(StatusBadRequest), st)
    ensures req.contentType == JsonContentType && RequestBody(cfg.decrypter, req).None? ==>
      h == Handled(Status(StatusInternalServerError), st)
    ensures req.contentType == JsonContentType && RequestBody(cfg.decrypter, req).Some?
            && cfg.codec.decodeBatch(RequestBody(cfg.decrypter, req).value).None? ==>
      h == Handled(Status(StatusBadRequest), st)
    ensures (req.contentType == JsonContentType && RequestBody(cfg.decrypter, req).Some?
             && cfg.codec.decodeBatch(RequestBody(cfg.decrypter, req).value).Some?) ==>
      var b := ApplyBatch(cfg, st, cfg.codec.decodeBatch(RequestBody(cfg.decrypter, req).value).value);
      h == Handled(if b.failure.None? then Status(StatusOK) else b.failure.value, b.store)
  {
    if req.contentType != JsonContentType then Handled(Status(StatusBadRequest), st)
    else
      match RequestBody(cfg.decrypter, req)
      case None => Handled(Status(StatusInternalServerError), st)
      case Some(data) =>
        match cfg.codec.decodeBatch(data)
        case None => Handled(Status(StatusBadRequest), st)
        case Some(ms) =>
          var b := ApplyBatch(cfg, st, ms);
          Handled(if b.failure.None? then Status(StatusOK) else b.failure.value, b.store)
  }

  /**
   * A batch holding one metric (a JSON list of one) is handled exactly like
   * that metric sent alone (a JSON object) with the same Content-Type.
   */
  lemma BatchOfOneIsSinglePut(cfg: Config, st: Store, batchReq: Request, singleReq: Request, m: Metric)
    requires batchReq.contentType == singleReq.contentType
    requires RequestBody(cfg.decrypter, batchReq).Some? && RequestBody(cfg.decrypter, singleReq).Some?
    requires cfg.codec.decodeBatch(RequestBody(cfg.decrypter, batchReq).value) == Some([m])
    requires cfg.codec.decodeMetric(RequestBody(cfg.decrypter, singleReq).value) == Some(m)
    ensures JsonBatch(cfg, st, batchReq) == JsonPut(cfg, st, singleReq)
  {
    assert [m][1..] == [];
    match ApplyOne(cfg, st, m)
    case Err(r) =>
    case Ok(next) =>
      assert ApplyBatch(cfg, next, []) == BatchResult(next, 0, None);
  }

  /**
   * `json.NewEncoder(w).Encode(m)`: encoding/json refuses a NaN or infinite
   * float (UnsupportedValueError) before writing anything, and every other
   * field of a metric (strings, an int64, pointers) always encodes.
   */
  predicate Encodable(m: Metric) {
    m.value.None? || IsFinite(m.value.value)
  }

  function Encoded(c: Codec, m: Metric): (r: Option<string>)
    ensures r.Some? <==> Encodable(m)
    ensures r.Some? ==> r.value == c.encodeMetric(m)
  {
    if Encodable(m) then Some(c.encodeMetric(m)) else None
  }

  /** What `GetMetricJSON` encodes: the stored metric, signed when a signer is set. */
  function Served(cfg: Config, st: Store, m: Metric): (r: Result<Metric, StorageError>)
    ensures r.Ok? <==> GetFrom(st, m).Ok?
    ensures r.Ok? ==> r.value == GetFrom(st, m).value.(hash := r.value.hash)
    ensures r.Ok? && cfg.signer.NoSigner? ==> r.value == GetFrom(st, m).value
    ensures r.Ok? ==> Sign(cfg.signer, cfg.prims, GetFrom(st, m).value) == Ok(r.value)
    ensures r.Err? ==> r.error == GetFrom(st, m).error
  {
    match GetFrom(st, m)
    case Err(e) => Err(e)
    case Ok(found) =>
      match Sign(cfg.signer, cfg.prims, found)
      case Ok(signed) => Ok(signed)
      case Err(_) => assert false; Ok(found)
  }

  /** A metric the server serves passes the same signer's validation. */
  lemma ServedValidates(cfg: Config, st: Store, m: Metric)
    requires Served(cfg, st, m).Ok?
    ensures Validate(cfg.signer, cfg.prims, Served(cfg, st, m).value) == Ok(true)
  {
    SignThenValidate(cfg.signer, cfg.prims, GetFrom(st, m).value);
  }

  /** `POST /value/` with a JSON metric naming what to read (the body is not decrypted). */
  function JsonGet(cfg: Config, st: Store, req: Request): (r: Reply)
    ensures r.Reply?
    ensures req.contentType != JsonContentType || req.body.None? || cfg.codec.decodeMetric(req.body.value).None? ==>
      r == Status(StatusBadRequest)
    ensures req.contentType == JsonContentType && req.body.Some? && cfg.codec.decodeMetric(req.body.value).Some? ==>
      var m := cfg.codec.decodeMetric(req.body.value).value;
      && (Served(cfg, st, m).Err? ==> r == Status(StatusOf(Served(cfg, st, m).error)))
      && (Served(cfg, st, m).Ok? && !Encodable(Served(cfg, st, m).value) ==> r == Status(StatusInternalServerError))
      && (Served(cfg, st, m).Ok? && Encodable(Served(cfg, st, m).value) ==>
            r == Reply(StatusOK, cfg.codec.encodeMetric(Served(cfg, st, m).value)))
    ensures r.status == StatusOK <==>
      && req.contentType == JsonContentType && req.body.Some?
      && cfg.codec.decodeMetric(req.body.value).Some?
      && Served(cfg, st, cfg.codec.decodeMetric(req.body.value).value).Ok?
      && Encodable(Served(cfg, st, cfg.codec.decodeMetric(req.body.value).value).value)
  {
    if req.contentType != JsonContentType || req.body.None? then Status(StatusBadRequest)
    else
      match cfg.codec.decodeMetric(req.body.value)
      case None => Status(StatusBadRequest)
      case Some(m) =>
        match Served(cfg, st, m)
        case Err(e) => Status(StatusOf(e))
        case Ok(out) =>
          match Encoded(cfg.codec, out)
          case None => Status(StatusInternalServerError)
          case Some(text) => Reply(StatusOK, text)
  }

  /**
   * A gauge written as text that parses to NaN or an infinity ("NaN", "Inf")
   * is stored, and reading it back as JSON then answers 500, because the
   * encoder refuses the value.
   */
  lemma NonFiniteGaugeReadFails(cfg: Config, st: Store, id: string, text: string, req: Request)
    requires cfg.codec.parseFloat(text).Some? && !IsFinite(cfg.codec.parseFloat(text).value)
    requires req.contentType == JsonContentType && req.body.Some? && cfg.codec.decodeMetric(req.body.value).Some?
    requires cfg.codec.decodeMetric(req.body.value).value.id == id
    requires cfg.codec.decodeMetric(req.body.value).value.mtype == GaugeType
    ensures PlainPut(cfg.codec, st, GaugeType, id, text).reply == Status(StatusOK)
    ensures JsonGet(cfg, PlainPut(cfg.codec, st, GaugeType, id, text).store, req) == Status(StatusInternalServerError)
  {
  }

  /** Writing a counter as text and reading it back gives the new total as text. */
  lemma PlainCounterPutThenGet(c: Codec, st: Store, id: string, delta: int64)
    ensures PlainPut(c, st, CounterType, id, FormatInt(delta)).reply == Status(StatusOK)
    ensures PlainGet(c, PlainPut(c, st, CounterType, id, FormatInt(delta)).store, CounterType, id)
         == Reply(StatusOK, FormatInt(AddWrap(CounterOr0(st.integers, id), delta)))
  {
    ParseFormatInt(delta);
  }

  /** Writing a gauge as text and reading it back gives the float formatting of the parsed value. */
  lemma PlainGaugePutThenGet(c: Codec, st: Store, id: string, text: string)
    requires c.parseFloat(text).Some?
    ensures PlainPut(c, st, GaugeType, id, text).reply == Status(StatusOK)
    ensures PlainGet(c, PlainPut(c, st, GaugeType, id, text).store, GaugeType, id)
         == Reply(StatusOK, c.formatFloat(c.parseFloat(text).value))
  {
  }

  /**
   * The server test's sequence on a fresh storage: gauge "123.45" and
   * counter "123" are stored and read back as the same text, given that
   * "123.45" survives ParseFloat and FormatFloat.
   */
  lemma PutGetScenario(c: Codec)
    requires c.parseFloat("123.45").Some? && c.formatFloat(c.parseFloat("123.45").value) == "123.45"
    ensures
      var st0 := Store(map[], map[]);
      var g := PlainPut(c, st0, GaugeType, "TestGauge", "123.45");
      var k := PlainPut(c, g.store, CounterType, "TestCounter", "123");
      && g.reply == Status(StatusOK)
      && PlainGet(c, g.store, GaugeType, "TestGauge") == Reply(StatusOK, "123.45")
      && k.reply == Status(StatusOK)
      && PlainGet(c, k.store, CounterType, "TestCounter") == Reply(StatusOK, "123")
      && PlainGet(c, k.store, "unknown", "TestGauge") == Status(StatusNotImplemented)
      && PlainGet(c, k.store, CounterType, "unknown") == Status(StatusNotFound)
      && PlainPut(c, k.store, CounterType, "TestCounter", "none").reply == Status(StatusBadRequest)
  {
    assert FormatInt(123) == "123" by {
      assert NatToDecimal(1) == "1";
      assert NatToDecimal(12) == "12";
      assert NatToDecimal(123) == "123";
    }
    PlainCounterPutThenGet(c, PlainPut(c, Store(map[], map[]), GaugeType, "TestGauge", "123.45").store, "TestCounter", 123);
    assert !IsDigit("none"[3]);
  }

  /** The server: its storage, updated in place by the handlers, and its fixed configuration. */
  class Server {
    const storage: FileStorage
    const config: Config

    constructor (storage: FileStorage, config: Config)
      ensures this.storage == storage && this.config == config
    {
      this.storage := storage;
      this.config := config;
    }

    /** `decryptRequestBody`. */
    method DecryptRequestBody(req: Request) returns (r: Option<seq<byte>>)
      ensures r == RequestBody(config.decrypter, req)
    {
      if req.body.None? {
        return None;
      }
      r := Rsa.Decrypt(config.decrypter, req.body.value);
    }

    /** `GetMetric`. */
    method GetMetric(mtype: string, id: string) returns (reply: Reply)
      ensures reply == PlainGet(config.codec, storage.Contents(), mtype, id)
    {
      var m := Metric(id, mtype, None, None, "");
      var found := storage.Get(m);
      if found.Err? {
        return Status(StatusOf(found.error));
      }
      var text := "";
      if found.value.mtype == GaugeType {
        text := config.codec.formatFloat(found.value.value.value);
      } else if found.value.mtype == CounterType {
        text := FormatInt(found.value.delta.value);
      }
      reply := Reply(StatusOK, text);
    }

    /** `PutMetric`. */
    method PutMetric(mtype: string, id: string, text: string) returns (reply: Reply)
      modifies storage
      ensures Handled(reply, storage.Contents()) == PlainPut(config.codec, old(storage.Contents()), mtype, id, text)
    {
      var m: Metric;
      if mtype == GaugeType {
        var value := config.codec.parseFloat(text);
        if value.None? {
          return Status(StatusBadRequest);
        }
        m := NewGauge(id, value.value);
      } else if mtype == CounterType {
        var delta := ParseInt(text);
        if delta.None? {
          return Status(StatusBadRequest);
        }
        m := NewCounter(id, delta.value);
      } else {
        return Status(StatusNotImplemented);
      }
      var err := storage.Put(m);
      if err.Some? {
        // a metric built by NewGauge or NewCounter always has its payload
        assert false;
      }
      reply := Status(StatusOK);
    }

    /** Validate (with a signer) and put one metric; the failure reply, if any. */
    method Apply(m: Metric) returns (failure: Option<Reply>)
      modifies storage
      ensures ApplyOne(config, old(storage.Contents()), m).Ok? ==>
        failure == None && storage.Contents() == ApplyOne(config, old(storage.Contents()), m).value
      ensures ApplyOne(config, old(storage.Contents()), m).Err? ==>
        failure == Some(ApplyOne(config, old(storage.Contents()), m).error) && storage.Contents() == old(storage.Contents())
    {
      if config.signer.HmacSigner? {
        var valid := Validate(config.signer, config.prims, m);
        if valid.Err? {
          return Some(if valid.error == NilDereference then Aborted else Status(StatusInternalServerError));
        }
        if !valid.value {
          return Some(Status(StatusBadRequest));
        }
      }
      var err := storage.Put(m);
      if err.Some? {
        return Some(Status(StatusOf(err.value)));
      }
      return None;
    }

    /** `PutMetricJSON`. */
    method PutMetricJSON(req: Request) returns (reply: Reply)
      modifies storage
      ensures Handled(reply, storage.Contents()) == JsonPut(config, old(storage.Contents()), req)
    {
      if req.contentType != JsonContentType {
        return Status(StatusBadRequest);
      }
      var data := DecryptRequestBody(req);
      if data.None? {
        return Status(StatusInternalServerError);
      }
      var m := config.codec.decodeMetric(data.value);
      if m.None? {
        return Status(StatusBadRequest);
      }
      var failure := Apply(m.value);
      reply := if failure.Some? then failure.value else Status(StatusOK);
    }

    /** `PutMetricBatchJSON`: the metrics in order, stopping at the first failure. */
    method PutMetricBatchJSON(req: Request) returns (reply: Reply)
      modifies storage
      ensures Handled(reply, storage.Contents()) == JsonBatch(config, old(storage.Contents()), req)
    {
      if req.contentType != JsonContentType {
        return Status(StatusBadRequest);
      }
      var data := DecryptRequestBody(req);
      if data.None? {
        return Status(StatusInternalServerError);
      }
      var decoded := config.codec.decodeBatch(data.value);
      if decoded.None? {
        return Status(StatusBadRequest);
      }
      var batch := decoded.value;
      ghost var start := storage.Contents();
      var i := 0;
      while i < |batch|
        invariant 0 <= i <= |batch|
        invariant ApplyBatch(config, start, batch).store == ApplyBatch(config, storage.Contents(), batch[i..]).store
        invariant ApplyBatch(config, start, batch).failure == ApplyBatch(config, storage.Contents(), batch[i..]).failure
      {
        assert batch[i..][0] == batch[i] && batch[i..][1..] == batch[i + 1..];
        var failure := Apply(batch[i]);
        if failure.Some? {
          return failure.value;
        }
        i := i + 1;
      }
      reply := Status(StatusOK);
    }

    /** `GetMetricJSON`. */
    method GetMetricJSON(req: Request) returns (reply: Reply)
      ensures reply == JsonGet(config, storage.Contents(), req)
    {
      if req.contentType != JsonContentType || req.body.None? {
        return Status(StatusBadRequest);
      }
      var m := config.codec.decodeMetric(req.body.value);
      if m.None? {
        return Status(StatusBadRequest);
      }
      var found := storage.Get(m.value);
      if found.Err? {
        return Status(StatusOf(found.error));
      }
      var out := found.value;
      if config.signer.HmacSigner? {
        var signed := Sign(config.signer, config.prims, out);
        if signed.Err? {
          // Get filled in the payload, so the digest can be computed
          assert false;
        }
        out := signed.value;
      }
      var text := Encoded(config.codec, out);
      if text.None? {
        return Status(StatusInternalServerError);
      }
      reply := Reply(StatusOK, text.value);
    }
  }
}
