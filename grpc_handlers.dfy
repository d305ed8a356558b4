/**
 * The gRPC handlers of the server (server/grpc/handlers.go) over the
 * in-memory storage: GetMetric, PutMetric and the client stream PutMetrics.
 * Messages arrive as protobuf metrics and go through FromPb/ToPb.
 */
module GrpcServer {
  import opened Wrappers
  import opened Numbers
  import opened Metrics
  import opened Signature
  import opened Proto
  import opened Storage
  import HttpServer

  /** The status codes these handlers return or pass on from the stream (google.rpc.Code; the rest are not needed here). */
  datatype Code = OK | Canceled | Unknown | InvalidArgument | DeadlineExceeded | NotFound | Unimplemented | Internal

  /**
   * The outcome of a call: a response (GetMetric's metric, or the empty
   * PutMetricResponse), an error status, or a panic, which grpc-go does not
   * recover and which ends the server.
   */
  datatype Answer = Answer(metric: Option<PbMetric>) | Failed(code: Code) | Panicked

  /** `handleStorageError`. */
  function CodeOf(e: StorageError): (c: Code)
    ensures c == Unimplemented <==> e == ErrUnknownMetricType
    ensures c == InvalidArgument <==> e == ErrBadArgument
    ensures c == NotFound <==> e == ErrNotFound
    ensures c == Internal <==> e == ErrInternal
  {
    match e
    case ErrUnknownMetricType => Unimplemented
    case ErrBadArgument => InvalidArgument
    case ErrNotFound => NotFound
    case ErrInternal => Internal
  }

  /** The HTTP status each code stands for, as google.rpc.Code documents it. */
  function HttpStatus(c: Code): int {
    match c
    case OK => 200
    case Canceled => 499
    case Unknown => 500
    case InvalidArgument => 400
    case DeadlineExceeded => 504
    case NotFound => 404
    case Unimplemented => 501
    case Internal => 500
  }

  /** Both servers report a storage error the same way. */
  lemma CodesAgreeWithHttp(e: StorageError)
    ensures HttpStatus(CodeOf(e)) == HttpServer.StatusOf(e)
  {
  }

  /**
   * `FromPb(r.GetMetric())`: None when the request carries no metric or one
   * of a type the enum does not name; both dereference nil and panic.
   */
  function Incoming(req: Option<PbMetric>): (r: Option<Metric>)
    ensures r.Some? <==> req.Some? && !req.value.mtype.Other?
    ensures r.Some? ==> WellFormed(r.value) && r.value == FromPb(req.value).value
  {
    if req.None? then None else FromPb(req.value)
  }

  /** What GetMetric reads and signs, before ToPb. */
  function Found(signer: Signer, p: Primitives, st: Store, m: Metric): (r: Result<Metric, Code>)
    requires WellFormed(m)
    ensures r.Ok? <==> GetFrom(st, m).Ok?
    ensures r.Err? ==> r.error == CodeOf(GetFrom(st, m).error)
    ensures r.Ok? ==> WellFormed(r.value) && r.value == GetFrom(st, m).value.(hash := r.value.hash)
    ensures r.Ok? ==> Validate(signer, p, r.value) == Ok(true)
    ensures r.Ok? ==> Sign(signer, p, GetFrom(st, m).value) == Ok(r.value)
  {
    match GetFrom(st, m)
    case Err(e) => Err(CodeOf(e))
    case Ok(found) =>
      SignThenValidate(signer, p, found);
      match Sign(signer, p, found)
      case Ok(signed) => Ok(signed)
      case Err(_) => assert false; Err(Internal)
  }

  /** `GetMetric`: the stored metric, signed when a signer is set. */
  function GrpcGet(signer: Signer, p: Primitives, st: Store, req: Option<PbMetric>): (a: Answer)
    ensures Incoming(req).None? <==> a == Panicked
    ensures a.Answer? ==> a.metric.Some?
    ensures Incoming(req).Some? && GetFrom(st, Incoming(req).value).Err? ==>
      a == Failed(CodeOf(GetFrom(st, Incoming(req).value).error))
    ensures Incoming(req).Some? && GetFrom(st, Incoming(req).value).Ok? ==>
      a == Answer(Some(ToPb(Found(signer, p, st, Incoming(req).value).value)))
  {
    match Incoming(req)
    case None => Panicked
    case Some(m) =>
      match Found(signer, p, st, m)
      case Err(c) => Failed(c)
      case Ok(out) => Answer(Some(ToPb(out)))
  }

  /** The metric GetMetric answers with converts back to a metric that the same signer accepts. */
  lemma GrpcGetValidates(signer: Signer, p: Primitives, st: Store, req: Option<PbMetric>)
    requires GrpcGet(signer, p, st, req).Answer?
    ensures FromPb(GrpcGet(signer, p, st, req).metric.value).Some?
    ensures Validate(signer, p, FromPb(GrpcGet(signer, p, st, req).metric.value).value) == Ok(true)
  {
    var m := Incoming(req).value;
    FromToPb(Found(signer, p, st, m).value);
  }

  /** One received metric: validate when a signer is set, then put. */
  function PutOne(signer: Signer, p: Primitives, st: Store, req: Option<PbMetric>): (r: Result<Store, Answer>)
    ensures Incoming(req).None? ==> r == Err(Panicked)
    ensures r.Ok? <==> Incoming(req).Some? && Validate(signer, p, Incoming(req).value) == Ok(true)
    ensures r.Ok? ==> r.value == PutInto(st, Incoming(req).value).value
    ensures Incoming(req).Some? && Validate(signer, p, Incoming(req).value) == Ok(false) ==> r == Err(Failed(InvalidArgument))
    ensures Incoming(req).Some? && Validate(signer, p, Incoming(req).value).Err? ==> r == Err(Failed(Internal))
  {
    match Incoming(req)
    case None => Err(Panicked)
    case Some(m) =>
      var valid := if signer.HmacSigner? then Validate(signer, p, m) else Ok(true);
      if valid.Err? then Err(Failed(Internal))
      else if !valid.value then Err(Failed(InvalidArgument))
      else
        match PutInto(st, m)
        case Err(e) => Err(Failed(CodeOf(e)))
        case Ok(next) => Ok(next)
  }

  /** `PutMetric`. */
  function GrpcPut(signer: Signer, p: Primitives, st: Store, req: Option<PbMetric>): (r: (Answer, Store))
    ensures r.0 == Answer(None) <==> PutOne(signer, p, st, req).Ok?
    ensures r.0 == Answer(None) ==> r.1 == PutOne(signer, p, st, req).value
    ensures r.0 != Answer(None) ==> r.1 == st && r.0 == PutOne(signer, p, st, req).error
  {
    match PutOne(signer, p, st, req)
    case Err(a) => (a, st)
    case Ok(next) => (Answer(None), next)
  }

  /** What `stream.Recv` returns before io.EOF: a message, or a transport error with its status code. */
  datatype Recv = Message(metric: Option<PbMetric>) | RecvError(code: Code)

  /**
   * `PutMetrics` on the messages received up to io.EOF: the answer and the
   * contents after it. A transport error is returned unchanged, with the
   * status code `RecvMsg` gave it.
   */
  function PutStream(signer: Signer, p: Primitives, st: Store, msgs: seq<Recv>): (Answer, Store)
    decreases |msgs|
  {
    if msgs == [] then (Answer(None), st)
    else
      match msgs[0]
      case RecvError(code) => (Failed(code), st)
      case Message(req) =>
        match PutOne(signer, p, st, req)
        case Err(a) => (a, st)
        case Ok(next) => PutStream(signer, p, next, msgs[1..])
  }

  /**
   * The stream stops at its first failure and keeps what came before: if
   * the first `k` messages went through, the result is that of the rest of
   * the stream from the contents they produced.
   */
  lemma {:induction false} StreamKeepsPrefix(signer: Signer, p: Primitives, st: Store, msgs: seq<Recv>, k: nat)
    requires k <= |msgs|
    requires PutStream(signer, p, st, msgs[..k]).0 == Answer(None)
    ensures PutStream(signer, p, st, msgs) == PutStream(signer, p, PutStream(signer, p, st, msgs[..k]).1, msgs[k..])
    decreases k
  {
    if k > 0 {
      assert msgs[..k][0] == msgs[0] && msgs[..k][1..] == msgs[1..][..k - 1];
      var next := PutOne(signer, p, st, msgs[0].metric).value;
      StreamKeepsPrefix(signer, p, next, msgs[1..], k - 1);
      assert msgs[1..][k - 1..] == msgs[k..];
    } else {
      assert msgs[..0] == [] && msgs[0..] == msgs;
    }
  }

  /** A message that fails ends the stream with its own answer; nothing after it is applied. */
  lemma StreamStopsAtFailure(signer: Signer, p: Primitives, st: Store, msgs: seq<Recv>, k: nat)
    requires k < |msgs| && msgs[k].Message?
    requires PutStream(signer, p, st, msgs[..k]).0 == Answer(None)
    requires PutOne(signer, p, PutStream(signer, p, st, msgs[..k]).1, msgs[k].metric).Err?
    ensures PutStream(signer, p, st, msgs)
         == (PutOne(signer, p, PutStream(signer, p, st, msgs[..k]).1, msgs[k].metric).error,
             PutStream(signer, p, st, msgs[..k]).1)
  {
    StreamKeepsPrefix(signer, p, st, msgs, k);
    assert msgs[k..][0] == msgs[k];
  }

  /**
   * The gRPC stream and the HTTP batch agree: on the same metrics, with the
   * same signer and no decryption, both leave the same contents and both
   * succeed or both fail.
   */
  lemma {:induction false} StreamAgreesWithBatch(cfg: HttpServer.Config, st: Store, msgs: seq<Recv>)
    requires forall i :: 0 <= i < |msgs| ==> msgs[i].Message? && Incoming(msgs[i].metric).Some?
    ensures
      var batch := seq(|msgs|, i requires 0 <= i < |msgs| => Incoming(msgs[i].metric).value);
      var b := HttpServer.ApplyBatch(cfg, st, batch);
      var s := PutStream(cfg.signer, cfg.prims, st, msgs);
      s.1 == b.store && (s.0 == Answer(None) <==> b.failure.None?)
    decreases |msgs|
  {
    var batch := seq(|msgs|, i requires 0 <= i < |msgs| => Incoming(msgs[i].metric).value);
    if msgs != [] {
      var m := batch[0];
      assert Validate(cfg.signer, cfg.prims, m) != Err(NilDereference);
      match PutOne(cfg.signer, cfg.prims, st, msgs[0].metric)
      case Err(a) =>
      case Ok(next) =>
        StreamAgreesWithBatch(cfg, next, msgs[1..]);
        assert batch[1..] == seq(|msgs[1..]|, i requires 0 <= i < |msgs[1..]| => Incoming(msgs[1..][i].metric).value);
    }
  }

  /** The gRPC server: its storage, updated in place, and its signer. */
  class Server {
    const storage: FileStorage
    const signer: Signer
    const prims: Primitives

    constructor (storage: FileStorage, signer: Signer, prims: Primitives)
      ensures this.storage == storage && this.signer == signer && this.prims == prims
    {
      this.storage := storage;
      this.signer := signer;
      this.prims := prims;
    }

    /** `GetMetric`. */
    method GetMetric(req: Option<PbMetric>) returns (a: Answer)
      ensures a == GrpcGet(signer, prims, storage.Contents(), req)
    {
      var incoming := Incoming(req);
      if incoming.None? {
        return Panicked;
      }
      var m := incoming.value;
      var found := storage.Get(m);
      if found.Err? {
        return Failed(CodeOf(found.error));
      }
      var out := found.value;
      if signer.HmacSigner? {
        var signed := Sign(signer, prims, out);
        if signed.Err? {
          // Get filled in the payload, so the digest can be computed
          assert false;
        }
        out := signed.value;
      }
      a := Answer(Some(ToPb(out)));
    }

    /** Validate and put one received metric; the failing answer, if any. */
    method Receive(req: Option<PbMetric>) returns (failure: Option<Answer>)
      modifies storage
      ensures PutOne(signer, prims, old(storage.Contents()), req).Ok? ==>
        failure == None && storage.Contents() == PutOne(signer, prims, old(storage.Contents()), req).value
      ensures PutOne(signer, prims, old(storage.Contents()), req).Err? ==>
        failure == Some(PutOne(signer, prims, old(storage.Contents()), req).error) && storage.Contents() == old(storage.Contents())
    {
      var incoming := Incoming(req);
      if incoming.None? {
        return Some(Panicked);
      }
      var m := incoming.value;
      if signer.HmacSigner? {
        var valid := Validate(signer, prims, m);
        if valid.Err? {
          return Some(Failed(Internal));
        }
        if !valid.value {
          return Some(Failed(InvalidArgument));
        }
      }
      var err := storage.Put(m);
      if err.Some? {
        // FromPb builds a metric with the payload of its type, which the in-memory storage always accepts
        assert false;
      }
      return None;
    }

    /** `PutMetric`. */
    method PutMetric(req: Option<PbMetric>) returns (a: Answer)
      modifies storage
      ensures (a, storage.Contents()) == GrpcPut(signer, prims, old(storage.Contents()), req)
    {
      var failure := Receive(req);
      a := if failure.Some? then failure.value else Answer(None);
    }

    /** `PutMetrics`: receive until io.EOF, stopping at the first failure. */
    method PutMetrics(stream: seq<Recv>) returns (a: Answer)
      modifies storage
      ensures (a, storage.Contents()) == PutStream(signer, prims, old(storage.Contents()), stream)
    {
      var i := 0;
      while i < |stream|
        invariant 0 <= i <= |stream|
        invariant PutStream(signer, prims, old(storage.Contents()), stream) == PutStream(signer, prims, storage.Contents(), stream[i..])
      {
        assert stream[i..][0] == stream[i] && stream[i..][1..] == stream[i + 1..];
        if stream[i].RecvError? {
          return Failed(stream[i].code);
        }
        var failure := Receive(stream[i].metric);
        if failure.Some? {
          return failure.value;
        }
        i := i + 1;
      }
      a := Answer(None);
    }
  }
}
