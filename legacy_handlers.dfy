/**
 * The older generation's HTTP handlers (handlers/handler.go) over the legacy
 * storage. Hashing is on when the handler's key is non-empty. Replies reuse
 * the newer server's types, so both generations can be compared directly.
 */
module LegacyHandlers {
  import opened Wrappers
  import opened Numbers
  import opened Metrics
  import opened Signature
  import opened LegacyHash
  import Rsa
  import opened Storage
  import LegacyStorage
  import opened HttpServer

  /** What `storeMetric` does to the contents: None is the returned error (missing payload or unknown type). */
  function StoreResult(st: Store, m: Metric): (r: Option<Store>)
    ensures r.Some? <==> HasPayload(m)
    ensures r.Some? ==> r.value == PutInto(st, m).value
  {
    if m.mtype == "gauge" then
      if m.value.None? then None else Some(st.(floats := st.floats[m.id := m.value.value]))
    else if m.mtype == "counter" then
      if m.delta.None? then None
      else Some(st.(integers := st.integers[m.id := if m.id in st.integers then AddWrap(m.delta.value, st.integers[m.id]) else m.delta.value]))
    else None
  }

  /** `GetMetric`: the stored value as text, 404 when absent, 501 for another type. */
  function LegacyGet(c: Codec, st: Store, mtype: string, id: string): (r: Reply)
    ensures r == PlainGet(c, st, mtype, id)
  {
    if mtype == "gauge" then
      if id !in st.floats then Status(StatusNotFound) else Reply(StatusOK, c.formatFloat(st.floats[id]))
    else if mtype == "counter" then
      if id !in st.integers then Status(StatusNotFound) else Reply(StatusOK, FormatInt(st.integers[id]))
    else Status(StatusNotImplemented)
  }

  /** `PutMetric`: parse by type (400 on failure), 501 for another type, then store. */
  function LegacyPut(c: Codec, st: Store, mtype: string, id: string, text: string): (h: Handled)
    ensures h == PlainPut(c, st, mtype, id, text)
  {
    if mtype == "gauge" then
      match c.parseFloat(text)
      case None => Handled(Status(StatusBadRequest), st)
      case Some(v) => Handled(Status(StatusOK), st.(floats := st.floats[id := v]))
    else if mtype == "counter" then
      match ParseInt(text)
      case None => Handled(Status(StatusBadRequest), st)
      case Some(d) =>
        Handled(Status(StatusOK), st.(integers := st.integers[id := if id in st.integers then AddWrap(d, st.integers[id]) else d]))
    else Handled(Status(StatusNotImplemented), st)
  }

  /**
   * `json.NewDecoder(body).Decode` into one metric: it reads the first JSON
   * value of the body and ignores whatever follows it, where `json.Unmarshal`
   * (the codec's `decodeMetric`) rejects trailing data.
   */
  type FirstValueDecoder = seq<byte> -> Option<Metric>

  /**
   * `PutMetricJSON`: decode the first JSON value (400 on failure); with a
   * key, ValidateHash first (an error is 500, a mismatch 400, a missing
   * payload the panic of `computeHash`); then storeMetric, whose every error is 501.
   */
  function LegacyPutJson(key: string, p: Primitives, decode: FirstValueDecoder, st: Store, req: Request): (h: Handled)
    ensures h.reply != Status(StatusOK) ==> h.store == st
    ensures req.contentType != JsonContentType || req.body.None? || decode(req.body.value).None? ==>
      h == Handled(Status(StatusBadRequest), st)
    ensures req.contentType == JsonContentType && req.body.Some? && decode(req.body.value).Some? ==>
      var m := decode(req.body.value).value;
      && (key == "" && !HasPayload(m) ==> h.reply == Status(StatusNotImplemented))
      && (key != "" && m.mtype != GaugeType && m.mtype != CounterType ==> h.reply == Status(StatusInternalServerError))
      && (key != "" && ValidateHash(key, p, m) == Ok(false) ==> h.reply == Status(StatusBadRequest))
      && (key != "" && ValidateHash(key, p, m) == Err(NilDereference) ==> h.reply == Aborted)
      && (key != "" && ValidateHash(key, p, m) == Err(InvalidHex) ==> h.reply == Status(StatusInternalServerError))
      && (h.reply == Status(StatusOK) <==> (key == "" || ValidateHash(key, p, m) == Ok(true)) && HasPayload(m))
      && (h.reply == Status(StatusOK) ==> h.store == PutInto(st, m).value)
  {
    if req.contentType != JsonContentType || req.body.None? then Handled(Status(StatusBadRequest), st)
    else
      match decode(req.body.value)
      case None => Handled(Status(StatusBadRequest), st)
      case Some(m) =>
        var valid := if key != "" then ValidateHash(key, p, m) else Ok(true);
        if valid == Err(NilDereference) then Handled(Aborted, st)
        else if valid.Err? then Handled(Status(StatusInternalServerError), st)
        else if !valid.value then Handled(Status(StatusBadRequest), st)
        else
          match StoreResult(st, m)
          case None => Handled(Status(StatusNotImplemented), st)
          case Some(next) => Handled(Status(StatusOK), next)
  }

  /** `GetMetricJSON`: fill in the stored payload, set the hash when there is a key, encode. */
  function LegacyGetJson(key: string, p: Primitives, c: Codec, st: Store, req: Request): (r: Reply)
  {
    if req.contentType != JsonContentType || req.body.None? then Status(StatusBadRequest)
    else
      match c.decodeMetric(req.body.value)
      case None => Status(StatusBadRequest)
      case Some(m) =>
        if m.mtype == "gauge" && m.id !in st.floats then Status(StatusNotFound)
        else if m.mtype == "counter" && m.id !in st.integers then Status(StatusNotFound)
        else if m.mtype != "gauge" && m.mtype != "counter" then Status(StatusNotImplemented)
        else
          var found := if m.mtype == "gauge" then m.(value := Some(st.floats[m.id])) else m.(delta := Some(st.integers[m.id]));
          var hashed := if key != "" then SetHash(key, p, found) else Ok(found);
          if hashed.Err? then Status(StatusInternalServerError)
          else if !Encodable(hashed.value) then Status(StatusInternalServerError)
          else Reply(StatusOK, c.encodeMetric(hashed.value))
  }

  /** The newer server configured as the legacy handler is: the key's signer, no decryption. */
  function NewerConfig(key: string, p: Primitives, c: Codec): (cfg: Config)
    ensures cfg.signer == NewHMACSigner(key) && cfg.decrypter.NoDecrypter?
  {
    Config(NewHMACSigner(key), Rsa.NoDecrypter, p, c)
  }

  /**
   * Key-gated hashing on reads is the newer signer's: the legacy JSON read
   * answers exactly what the newer server answers with the signer of the same key.
   */
  lemma LegacyGetJsonAgrees(key: string, p: Primitives, c: Codec, st: Store, req: Request)
    ensures LegacyGetJson(key, p, c, st, req) == JsonGet(NewerConfig(key, p, c), st, req)
  {
    if req.contentType == JsonContentType && req.body.Some? && c.decodeMetric(req.body.value).Some? {
      var m := c.decodeMetric(req.body.value).value;
      if GetFrom(st, m).Ok? && key != "" {
        LegacyAgreesWithSigner(key, p, GetFrom(st, m).value);
      }
    }
  }

  /**
   * Key-gated validation on writes is the newer signer's: on a body both
   * decoders read the same way, both generations accept the same metrics
   * and leave the same contents. They differ only in the status of a
   * rejected metric (legacy answers 501 for every storeMetric error, the
   * newer server the storage error's own status).
   */
  lemma LegacyPutJsonAgrees(key: string, p: Primitives, decode: FirstValueDecoder, c: Codec, st: Store, req: Request)
    requires req.body.Some? ==> decode(req.body.value) == c.decodeMetric(req.body.value)
    ensures var legacy := LegacyPutJson(key, p, decode, st, req);
      var newer := JsonPut(NewerConfig(key, p, c), st, req);
      && (legacy.reply == Status(StatusOK) <==> newer.reply == Status(StatusOK))
      && legacy.store == newer.store
  {
    if req.contentType == JsonContentType && req.body.Some? && c.decodeMetric(req.body.value).Some? {
      var m := c.decodeMetric(req.body.value).value;
      if key != "" {
        LegacyAgreesWithSigner(key, p, m);
      }
    }
  }

  /**
   * Where the decoders differ the generations differ: a metric followed by
   * trailing data is stored by the legacy handler (200) and refused by the
   * newer one (400, nothing stored).
   */
  lemma TrailingDataSplitsGenerations(key: string, p: Primitives, decode: FirstValueDecoder, c: Codec, st: Store, req: Request)
    requires req.contentType == JsonContentType && req.body.Some?
    requires decode(req.body.value).Some? && c.decodeMetric(req.body.value).None?
    requires key == "" && HasPayload(decode(req.body.value).value)
    ensures LegacyPutJson(key, p, decode, st, req) == Handled(Status(StatusOK), PutInto(st, decode(req.body.value).value).value)
    ensures JsonPut(NewerConfig(key, p, c), st, req) == Handled(Status(StatusBadRequest), st)
  {
  }

  /** The legacy handler: its storage, updated in place, and its key. */
  class Handler {
    const storage: LegacyStorage.Storage
    const key: string
    const prims: Primitives
    const codec: Codec
    const decode: FirstValueDecoder

    constructor (storage: LegacyStorage.Storage, key: string, prims: Primitives, codec: Codec, decode: FirstValueDecoder)
      ensures this.storage == storage && this.key == key && this.prims == prims
      ensures this.codec == codec && this.decode == decode
    {
      this.storage := storage;
      this.key := key;
      this.prims := prims;
      this.codec := codec;
      this.decode := decode;
    }

    /** `storeMetric`: false is the returned error; on an error nothing changes. */
    method StoreMetric(m: Metric) returns (ok: bool)
      modifies storage
      ensures ok <==> StoreResult(old(storage.Contents()), m).Some?
      ensures ok ==> storage.Contents() == StoreResult(old(storage.Contents()), m).value
      ensures !ok ==> storage.Contents() == old(storage.Contents())
    {
      if m.mtype == "gauge" {
        if m.value.None? {
          return false;
        }
        storage.PutGauge(m.id, m.value.value);
        return true;
      } else if m.mtype == "counter" {
        if m.delta.None? {
          return false;
        }
        storage.UpdateCounter(m.id, m.delta.value);
        return true;
      }
      return false;
    }

    /** `GetMetric`. */
    method GetMetric(mtype: string, id: string) returns (reply: Reply)
      ensures reply == LegacyGet(codec, storage.Contents(), mtype, id)
    {
      if mtype == "gauge" {
        var value, ok := storage.GetGauge(id);
        if !ok {
          return Status(StatusNotFound);
        }
        reply := Reply(StatusOK, codec.formatFloat(value));
      } else if mtype == "counter" {
        var value, ok := storage.GetCounter(id);
        if !ok {
          return Status(StatusNotFound);
        }
        reply := Reply(StatusOK, FormatInt(value));
      } else {
        reply := Status(StatusNotImplemented);
      }
    }

    /** `PutMetric`. */
    method PutMetric(mtype: string, id: string, text: string) returns (reply: Reply)
      modifies storage
      ensures Handled(reply, storage.Contents()) == LegacyPut(codec, old(storage.Contents()), mtype, id, text)
    {
      if mtype == "gauge" {
        var value := codec.parseFloat(text);
        if value.None? {
          return Status(StatusBadRequest);
        }
        reply := Status(StatusOK);
        storage.PutGauge(id, value.value);
      } else if mtype == "counter" {
        var value := ParseInt(text);
        if value.None? {
          return Status(StatusBadRequest);
        }
        reply := Status(StatusOK);
        storage.UpdateCounter(id, value.value);
      } else {
        reply := Status(StatusNotImplemented);
      }
    }

    /** `PutMetricJSON`. */
    method PutMetricJSON(req: Request) returns (reply: Reply)
      modifies storage
      ensures Handled(reply, storage.Contents()) == LegacyPutJson(key, prims, decode, old(storage.Contents()), req)
    {
      if req.contentType != JsonContentType || req.body.None? {
        return Status(StatusBadRequest);
      }
      var decoded := decode(req.body.value);
      if decoded.None? {
        return Status(StatusBadRequest);
      }
      var m := decoded.value;
      if key != "" {
        var valid := ValidateHash(key, prims, m);
        if valid.Err? {
          return if valid.error == NilDereference then Aborted else Status(StatusInternalServerError);
        }
        if !valid.value {
          return Status(StatusBadRequest);
        }
      }
      var ok := StoreMetric(m);
      reply := if ok then Status(StatusOK) else Status(StatusNotImplemented);
    }

    /** `GetMetricJSON`. */
    method GetMetricJSON(req: Request) returns (reply: Reply)
      ensures reply == LegacyGetJson(key, prims, codec, storage.Contents(), req)
    {
      if req.contentType != JsonContentType || req.body.None? {
        return Status(StatusBadRequest);
      }
      var decoded := codec.decodeMetric(req.body.value);
      if decoded.None? {
        return Status(StatusBadRequest);
      }
      var m := decoded.value;
      if m.mtype == "gauge" {
        var value, ok := storage.GetGauge(m.id);
        if !ok {
          return Status(StatusNotFound);
        }
        m := m.(value := Some(value));
      } else if m.mtype == "counter" {
        var value, ok := storage.GetCounter(m.id);
        if !ok {
          return Status(StatusNotFound);
        }
        m := m.(delta := Some(value));
      } else {
        return Status(StatusNotImplemented);
      }
      if key != "" {
        var hashed := SetHash(key, prims, m);
        if hashed.Err? {
          // the payload was just filled in, so the digest can be computed
          assert false;
        }
        m := hashed.value;
      }
      var text := Encoded(codec, m);
      if text.None? {
        return Status(StatusInternalServerError);
      }
      reply := Reply(StatusOK, text.value);
    }
  }
}
