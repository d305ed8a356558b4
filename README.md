# go-metrics in Dafny

A model of the core of go-metrics, a metrics collection service. An agent
samples runtime and host metrics, signs each one with an HMAC-SHA256 digest,
can encrypt the batch with chunked RSA-OAEP, and sends it to a server. The
server validates each metric and stores it. A gauge overwrites the stored
value (last write wins). A counter adds its delta with int64 wrap-around.
Values are read back as text, as JSON or over gRPC.

The model covers both generations of the code:

- **Newer generation**
  - the metric record and its constructors (`metric.dfy`);
  - the HMAC signer (`signature.dfy`);
  - protobuf conversion (`convert.dfy`);
  - the in-memory storage (`file_storage.dfy`);
  - the runtime collector (`collector.dfy`);
  - chunked RSA (`rsa.dfy`);
  - the HTTP handlers (`server_handlers.dfy`);
  - the gRPC handlers (`grpc_handlers.dfy`).
- **Older generation**
  - the hashed `Metrics` record (`types.dfy`);
  - the two-map storage (`storage.dfy`);
  - the agent's metric set (`metrics.dfy`);
  - the HTTP handlers (`legacy_handlers.dfy`).

How the source maps onto Dafny:

- **Stateful objects become classes.** `FileStorage`, the legacy `Storage`, `Collector`, the legacy `Metrics` and the three servers are classes. Their methods change their own fields.
- **Each handler has a specification.** A handler method is proved equal to a pure function of the storage contents and the request. The lemmas are stated over those functions.
- **Opaque library calls are parameters.** HMAC-SHA256, `%f` float formatting, `strconv.ParseFloat`/`FormatFloat`, JSON encoding and decoding, and the OAEP block operations are function-valued parameters (`Primitives`, `Codec`, `Encrypter`, `Decrypter`). The legacy JSON write decodes with `json.Decoder.Decode`, which ignores trailing data, and gets its own parameter (`FirstValueDecoder`) apart from the `json.Unmarshal` of the codec.
- **Float64 is opaque.** It is a 64-bit pattern with no arithmetic.
- **int64 is a newtype.** `AddWrap` is two's-complement addition.
- **Panics are outcomes.** A panic the source would raise is an explicit result:
  - `Reply.Aborted`: net/http recovers the panic and drops the connection;
  - `Answer.Panicked`: grpc-go does not recover it;
  - `HashError.NilDereference`;
  - `None` from `FromPb`.

Behaviours of the code the model keeps as they are:

- With a signer, a JSON write of an unknown metric type answers 500, not 501. `Validate` fails first.
- The same write with a missing payload panics rather than failing cleanly.
- A digest that is not hex answers 500.
- The legacy `PutMetricJSON` answers 501 for every storage error, including a missing payload.
- `GetMetricJSON` does not decrypt the request body.
- A gRPC metric that is absent or of an unknown type panics in `FromPb`.

## Model

| member | source | states |
|---|---|---|
| Numbers.AddWrap | internal/storage/file_storage.go:68 | Counter addition is congruent to the true sum modulo 2^64, and equals it when the sum fits in int64 |
| Numbers.AddWrapReorder | internal/storage/file_storage.go:68 | Two deltas added to a stored counter give the same result in either order |
| Numbers.FormatInt | internal/server/handlers.go:97 | `%d` text is non-empty and starts with a digit exactly when the value is non-negative |
| Numbers.ParseInt | internal/server/handlers.go:169 | Accepted text is non-empty and ends in a digit |
| Numbers.DecimalRoundTrip | internal/server/handlers.go:97 | The decimal digits of a natural number read back as that number |
| Numbers.NatToDecimalInjective | internal/server/handlers.go:97 | Different natural numbers have different decimal digits |
| Numbers.ParseFormatInt | internal/server/handlers.go:97-169 | `ParseInt(FormatInt(x)) == x` for every int64, including the minimum |
| Numbers.FormatIntInjective | internal/server/handlers.go:97 | Different counter values are written as different text |
| Hex.Encode | internal/metrics/signature.go:46 | The lowercase hex of n bytes has 2n characters |
| Hex.Decode | internal/metrics/signature.go:60 | A decoded string has two characters per byte |
| Hex.DecodeEncode | internal/metrics/signature.go:46-60 | Decoding the hex encoding of any bytes gives those bytes back |
| Hex.DecodeSucceeds | internal/metrics/signature.go:60-63 | Decoding succeeds exactly on strings of even length made only of hex digits |
| Metrics.NewGauge | internal/metrics/metric.go:24-30 | A well-formed gauge with the given id and value and no hash |
| Metrics.NewCounter | internal/metrics/metric.go:33-39 | A well-formed counter with the given id and delta and no hash |
| Metrics.ListGauges | internal/storage/file_storage.go:103-105 | One gauge per map entry, carrying that entry's value, covering every key |
| Metrics.ListCounters | internal/storage/file_storage.go:106-108 | One counter per map entry, carrying that entry's delta, covering every key |
| Signature.NewHMACSigner | internal/metrics/signature.go:26-33 | No signer (nil) exactly for the empty key, otherwise a signer holding the key |
| Signature.Message | internal/metrics/signature.go:68-77 | A message exists exactly when the metric has its type's payload, and it starts with `id:type:`; an unknown type is its own error |
| Signature.ComputeHash | internal/metrics/signature.go:68-85 | Succeeds exactly when the payload is present, and is then the HMAC of the message under the key |
| Signature.Sign | internal/metrics/signature.go:37-48 | A nil signer changes nothing. Otherwise Sign fails exactly on a missing payload and changes only the hash, which is the lowercase hex of the HMAC of the message (so it decodes back to that HMAC) |
| Signature.Validate | internal/metrics/signature.go:51-66 | A nil signer accepts. A missing payload is the message error, non-hex is an error, and otherwise the answer is whether the decoded hash equals the HMAC |
| Signature.MessageIgnoresHash | internal/metrics/signature.go:68-77 | The signed message does not depend on the hash field |
| Signature.SignIdempotent | internal/metrics/signature.go:37-48 | Signing a signed metric again gives the same metric |
| Signature.SignThenValidate | internal/metrics/signature.go:37-66 | Every metric with a payload signs successfully and then validates under the same signer |
| LegacyHash.SetHash | internal/metrics/types.go:18-26 | Fails exactly on a missing payload. An unknown type is its own error. Only the hash changes, and it is the lowercase hex of the HMAC under the key |
| LegacyHash.ValidateHash | internal/metrics/types.go:28-40 | An error exactly on a missing payload or a non-hex hash; an unknown type is its own error |
| LegacyHash.LegacyMessageAgrees | internal/metrics/types.go:42-51 | The legacy digest message is the newer signer's message |
| LegacyHash.LegacyAgreesWithSigner | internal/metrics/types.go:18-56 | For a non-empty key, SetHash and ValidateHash are the newer signer's Sign and Validate |
| LegacyHash.SetHashThenValidate | internal/metrics/types.go:18-40 | A metric with a payload hashes successfully and then validates under the same key |
| Proto.FromPb | internal/proto/convert.go:9-21 | Defined exactly for COUNTER and GAUGE. Gives a well-formed metric with the message's id, hash and the payload of its type. Any other type is the nil-metric panic |
| Proto.ToPb | internal/proto/convert.go:23-39 | Copies id and hash, and sets the enum and the payload of the metric's type. The other payload field keeps its zero value |
| Proto.FromToPb | internal/proto/convert.go:9-39 | A well-formed metric survives conversion to protobuf and back |
| Proto.ToFromPb | internal/proto/convert.go:9-39 | A known-type message survives conversion and back, except the zeroed field of the other type |
| Storage.PutInto | internal/storage/file_storage.go:54-73 | Succeeds exactly when the metric has its type's payload. A missing payload is ErrBadArgument and an unknown type ErrUnknownMetricType |
| Storage.GetFrom | internal/storage/file_storage.go:75-96 | An unknown type is ErrUnknownMetricType. A missing id is ErrNotFound. Otherwise it is the metric with the stored payload |
| Storage.CounterPutsAccumulate | internal/storage/file_storage.go:64-68 | A sequence of counter puts on one id stores the wrapped sum of the old value and all the deltas |
| Storage.GaugePutsKeepLast | internal/storage/file_storage.go:59-63 | A sequence of gauge puts on one id stores the last value |
| Storage.CounterPutsCommute | internal/storage/file_storage.go:64-68 | Two counter puts give the same contents in either order |
| Storage.GetAfterPut | internal/storage/file_storage.go:54-96 | Reading after a successful put gives the gauge just written, or the counter's new total |
| Storage.FileStorage.constructor | internal/storage/file_storage.go:24-27 | Both maps start empty |
| Storage.FileStorage.Put | internal/storage/file_storage.go:54-73 | On success the contents become PutInto's; on an error they are unchanged and the error is PutInto's |
| Storage.FileStorage.Get | internal/storage/file_storage.go:75-96 | Returns GetFrom of the current contents |
| Storage.FileStorage.List | internal/storage/file_storage.go:98-110 | Every gauge, then every counter, one per entry, with their stored values |
| LegacyStorage.Storage.constructor | internal/storage/storage.go:15-22 | Both maps start empty |
| LegacyStorage.Storage.PutGauge | internal/storage/storage.go:24-28 | Overwrites one gauge; counters unchanged |
| LegacyStorage.Storage.UpdateCounter | internal/storage/storage.go:30-38 | A new name stores the value, a known one the wrapped sum; this is the newer storage's counter put |
| LegacyStorage.Storage.GetGauge | internal/storage/storage.go:40-45 | ok exactly when the name is stored; the value is the stored one, or zero |
| LegacyStorage.Storage.GetCounter | internal/storage/storage.go:47-52 | ok exactly when the name is stored; the value is the stored one, or 0 |
| LegacyStorage.Storage.GetMetrics | internal/storage/storage.go:54-58 | Returns the current pair of maps |
| Collector.RuntimeGaugeCount | internal/metrics/collector.go:45-74 | The runtime sample has 28 distinct gauge names |
| Collector.CpuKeyDistinct | internal/metrics/collector.go:98-100 | `CPUutilization<i>` names are distinct for distinct i and never clash with TotalMemory or FreeMemory |
| Collector.SampledStep | internal/metrics/collector.go:98-101 | Adding the next CPU reading keeps the utilization map exactly the memory pair plus one entry per reading seen so far |
| Collector.Collector.constructor | internal/metrics/collector.go:26-33 | PollCount is 0 and both maps are empty |
| Collector.Collector.UpdateRuntimeMetrics | internal/metrics/collector.go:37-75 | PollCount goes up by one (wrapping at the int64 maximum). The runtime map is exactly the 28 sampled names with their sampled values. Utilization is untouched |
| Collector.Collector.UpdateUtilizationMetrics | internal/metrics/collector.go:78-102 | A memory error leaves the map unchanged. Otherwise the map holds the memory pair plus one CPUutilization entry per reading (none after a CPU error). Runtime state is untouched |
| Collector.Collector.ListMetrics | internal/metrics/collector.go:105-122 | PollCount first, then one gauge per runtime entry, then one per utilization entry, each with its value |
| LegacyMetrics.Increment | internal/metrics/metrics.go:23-25 | Every counter goes up by one and no counter is added or removed; a counter at the int64 maximum wraps to the minimum |
| LegacyMetrics.PollCountCountsUpdates | internal/metrics/metrics.go:13-25 | After n updates from the initial state, PollCount is n |
| LegacyMetrics.Metrics.constructor | internal/metrics/metrics.go:13-20 | No gauges, and PollCount at 0 |
| LegacyMetrics.Metrics.Update | internal/metrics/metrics.go:22-59 | Counters become Increment of the old counters; gauges are exactly the 28 sampled names and values |
| Rsa.Chunked | internal/encryption/rsa/rsa.go:40-54 | Empty input gives empty output; a failing first block fails the whole call (that any failing window does is `Rsa.ChunkedFailsIff`) |
| Rsa.Encrypted | internal/encryption/rsa/rsa.go:32-55 | A nil encrypter is the identity. Empty input gives empty output. The call fails exactly when some window of `Step` bytes fails to encrypt |
| Rsa.Decrypted | internal/encryption/rsa/rsa.go:79-101 | A nil decrypter is the identity. Empty input gives empty output. The call fails exactly when some key-size block fails to decrypt |
| Rsa.WindowsTile | internal/encryption/rsa/rsa.go:40-45 | The loop's windows are non-empty, at most one step long, full except possibly the last, and concatenate back to the input |
| Rsa.ChunkedFailsIff | internal/encryption/rsa/rsa.go:40-54 | The chunked call fails exactly when the transformation of some window fails; success therefore means every window was transformed |
| Rsa.ChunkLoop | internal/encryption/rsa/rsa.go:40-54 | The in-order loop over windows computes Chunked: concatenated outputs, or failure at the first failing window |
| Rsa.Encrypt | internal/encryption/rsa/rsa.go:32-55 | Returns Encrypted |
| Rsa.Decrypt | internal/encryption/rsa/rsa.go:79-101 | Returns Decrypted |
| Rsa.ChunkedRoundTrip | internal/encryption/rsa/rsa_test.go:11-27 | For a key pair, chunked decryption of a chunked encryption gives the plaintext back, for any number of blocks |
| Rsa.DecryptInvertsEncrypt | internal/encryption/rsa/rsa_test.go:11-27 | `Decrypt(Encrypt(p)) == p` for a matching key pair, nil or RSA, whenever encryption succeeds |
| HttpServer.StatusOf | internal/server/handlers.go:277-289 | Each storage error maps to its own status: 501, 400, 404, 500 |
| HttpServer.Stored | internal/server/handlers.go:180-184 | 200 exactly when the metric has its type's payload, 501 exactly for another type, 400 exactly for a missing payload. Contents change only on 200, and then they are exactly the storage put's: every other gauge and counter is unchanged, a gauge leaves the counters alone and a counter the gauges, and the stored gauge or new counter total reads back |
| HttpServer.PlainGet | internal/server/handlers.go:80-104 | A gauge or counter is read as its text form with 200. An absent name is 404. Another type is 501 |
| HttpServer.PlainPut | internal/server/handlers.go:153-186 | 501 exactly for another type and 400 exactly for unparsable text. Otherwise 200 with the gauge overwritten or the counter increased; nothing changes unless 200 |
| HttpServer.ApplyOne | internal/server/handlers.go:210-228 | Succeeds exactly when validation passes and the put succeeds. With a signer, an unknown type is 500, a missing payload a panic and a non-hex hash 500. A digest mismatch is 400 |
| HttpServer.BatchStopsAtFirstFailure | internal/server/handlers.go:253-274 | The batch applies a prefix in order. The first failure gives the reply, and metrics after it are never applied. No failure means all were applied |
| HttpServer.UnsignedBatchIsPutEach | internal/server/handlers.go:253-273 | Without a signer the batch is the storage's puts in order, answering the first storage error's status |
| HttpServer.RequestBody | internal/server/handlers.go:291-302 | A body that cannot be read fails; with no decrypter the body is used as is; with an RSA decrypter it is the chunked decryption of the body, failing exactly when some key-size block fails to decrypt |
| HttpServer.EncryptedBodyReadsAsPlaintext | internal/server/handlers.go:291-302 | A body encrypted with the public key matching the server's private key is read as its plaintext, and the encrypted JSON write is handled exactly like the same write in the clear to a server without a decrypter |
| HttpServer.JsonPut | internal/server/handlers.go:190-230 | The wrong content type is 400, a failed decryption 500 and an undecodable body 400. A rejected metric answers ApplyOne's reply. 200 exactly when the decoded metric validates and is put; the contents after a 200 are ApplyOne's, that is the storage put's, and unchanged otherwise |
| HttpServer.JsonBatch | internal/server/handlers.go:234-275 | The wrong content type is 400, a failed decryption 500 and an undecodable body 400, each with the contents kept. Otherwise the reply and contents are those of the batch loop |
| HttpServer.BatchOfOneIsSinglePut | internal/server/handlers.go:190-275 | A JSON list of one metric sent to the batch endpoint is handled exactly like that metric sent alone to the single endpoint |
| HttpServer.Served | internal/server/handlers.go:130-141 | Reading succeeds exactly when the storage has the metric, with the stored payload, and only the hash is added; that hash is exactly the signature (lowercase hex HMAC) of the stored metric |
| HttpServer.ServedValidates | internal/server/handlers.go:130-141 | What the JSON read returns passes the server's own validation |
| HttpServer.JsonGet | internal/server/handlers.go:108-149 | The wrong content type, an unreadable or undecodable body is 400. A storage error answers its own status (404, 501). A stored NaN or infinite gauge, which the encoder refuses, is 500. 200 exactly for a request naming a stored metric the encoder accepts, with the encoding of the signed stored metric as body |
| HttpServer.Encoded | internal/server/handlers.go:143-147 | The JSON encoding fails exactly for a metric whose gauge value is NaN or an infinity, and is otherwise the codec's text |
| HttpServer.NonFiniteGaugeReadFails | internal/server/handlers.go:143-147 | A gauge written as text that parses to NaN or an infinity is stored with 200, and reading it back as JSON answers 500 |
| HttpServer.PlainCounterPutThenGet | internal/server/handlers_test.go:56-66 | Writing a counter as text then reading it answers the new total as text |
| HttpServer.PlainGaugePutThenGet | internal/server/handlers_test.go:43-54 | Writing a parsable gauge then reading it answers the formatted parsed value |
| HttpServer.PutGetScenario | internal/server/handlers_test.go:43-90 | On fresh storage, gauge 123.45 and counter 123 read back as written. An unknown type is 501, an unknown name 404, and "none" is 400 |
| HttpServer.Server.constructor | internal/server/handlers.go:24-28 | The server holds the given storage and configuration |
| HttpServer.Server.DecryptRequestBody | internal/server/handlers.go:291-302 | Returns RequestBody |
| HttpServer.Server.GetMetric | internal/server/handlers.go:80-104 | Answers PlainGet of the current contents |
| HttpServer.Server.PutMetric | internal/server/handlers.go:153-186 | Reply and new contents are PlainPut's |
| HttpServer.Server.Apply | internal/server/handlers.go:210-228 | Stores and reports no failure, or reports ApplyOne's failure and keeps the contents |
| HttpServer.Server.PutMetricJSON | internal/server/handlers.go:190-230 | Reply and new contents are JsonPut's |
| HttpServer.Server.PutMetricBatchJSON | internal/server/handlers.go:234-275 | Reply and new contents are JsonBatch's |
| HttpServer.Server.GetMetricJSON | internal/server/handlers.go:108-149 | Answers JsonGet of the current contents |
| GrpcServer.CodeOf | internal/server/grpc/handlers.go:88-99 | Each storage error maps to its own code: Unimplemented, InvalidArgument, NotFound, Internal |
| GrpcServer.CodesAgreeWithHttp | internal/server/grpc/handlers.go:88-99 | The gRPC code of a storage error stands for the HTTP server's status for it |
| GrpcServer.Incoming | internal/server/grpc/handlers.go:36 | A metric exactly when the request carries one of a known type, and it is well formed |
| GrpcServer.Found | internal/server/grpc/handlers.go:19-28 | Succeeds exactly when stored; errors carry the storage error's code; the result is exactly the stored metric signed with the server's signer, whose hash validates |
| GrpcServer.GrpcGet | internal/server/grpc/handlers.go:16-33 | Panics exactly on a missing or unknown-type metric. A storage error fails with that error's code. Otherwise it answers the stored metric, signed, converted by ToPb |
| GrpcServer.GrpcGetValidates | internal/server/grpc/handlers.go:16-33 | The metric GetMetric answers converts back and validates under the same signer |
| GrpcServer.PutOne | internal/server/grpc/handlers.go:67-83 | Panics on a missing or unknown-type metric. Stores exactly when validation passes. A mismatch is InvalidArgument and a validation error Internal |
| GrpcServer.GrpcPut | internal/server/grpc/handlers.go:35-55 | The empty response exactly when PutOne succeeds, with its contents; otherwise its failure and unchanged contents |
| GrpcServer.StreamKeepsPrefix | internal/server/grpc/handlers.go:57-86 | After a successful prefix of the stream, the rest runs from the contents that prefix produced |
| GrpcServer.StreamStopsAtFailure | internal/server/grpc/handlers.go:57-86 | A failing message ends the stream with its own answer and the contents before it |
| GrpcServer.StreamAgreesWithBatch | internal/server/grpc/handlers.go:57-86 | The stream and the HTTP batch on the same metrics leave the same contents, and succeed together |
| GrpcServer.Server.constructor | internal/server/grpc/handlers.go:16-17 | The server holds the given storage, signer and primitives |
| GrpcServer.Server.GetMetric | internal/server/grpc/handlers.go:16-33 | Answers GrpcGet of the current contents |
| GrpcServer.Server.Receive | internal/server/grpc/handlers.go:67-83 | Stores the metric when PutOne succeeds; otherwise returns its failure and keeps the contents |
| GrpcServer.Server.PutMetric | internal/server/grpc/handlers.go:35-55 | Answer and new contents are GrpcPut's |
| GrpcServer.Server.PutMetrics | internal/server/grpc/handlers.go:57-86 | Answer and new contents are PutStream's on the received messages |
| LegacyHandlers.StoreResult | internal/handlers/handler.go:245-262 | Succeeds exactly when the payload of a known type is present, and then equals the newer storage's put |
| LegacyHandlers.LegacyGet | internal/handlers/handler.go:89-116 | The legacy text read answers exactly what the newer server's text read answers |
| LegacyHandlers.LegacyPut | internal/handlers/handler.go:118-150 | The legacy text write answers and stores exactly what the newer server's does |
| LegacyHandlers.LegacyPutJson | internal/handlers/handler.go:152-185 | Wrong content type or an undecodable first JSON value is 400. Without a key a missing payload is 501; with a key an unknown type or a non-hex hash is 500, a missing payload panics (aborted request) and a mismatch is 400. 200 exactly for valid metrics with a payload, stored by the newer put |
| LegacyHandlers.NewerConfig | internal/handlers/handler.go:28-33 | The key's signer and no decryption |
| LegacyHandlers.LegacyGetJsonAgrees | internal/handlers/handler.go:187-243 | The legacy JSON read answers exactly what the newer server answers with the same key's signer, including the 500 for a gauge the encoder refuses |
| LegacyHandlers.LegacyPutJsonAgrees | internal/handlers/handler.go:152-185 | On a body that json.Decoder.Decode and json.Unmarshal read alike, both generations accept the same JSON writes and leave the same contents |
| LegacyHandlers.TrailingDataSplitsGenerations | internal/handlers/handler.go:159-163 | A metric followed by trailing data is stored with 200 by the legacy handler and refused with 400 by the newer one |
| LegacyHandlers.Handler.constructor | internal/handlers/handler.go:28-33 | The handler holds the given storage and key, with the conversions it calls |
| LegacyHandlers.Handler.StoreMetric | internal/handlers/handler.go:245-262 | Stores as StoreResult says, or returns an error and changes nothing |
| LegacyHandlers.Handler.GetMetric | internal/handlers/handler.go:89-116 | Answers LegacyGet of the current contents |
| LegacyHandlers.Handler.PutMetric | internal/handlers/handler.go:118-150 | Reply and new contents are LegacyPut's |
| LegacyHandlers.Handler.PutMetricJSON | internal/handlers/handler.go:152-185 | Reply and new contents are LegacyPutJson's |
| LegacyHandlers.Handler.GetMetricJSON | internal/handlers/handler.go:187-243 | Answers the legacy JSON read of the current contents |

## Left out

- **Dump, load and the snapshot ticker of `FileStorage`**: these are file I/O and a goroutine. The database storage is not part of this model, and neither are storage selection, the scheduler, configuration, `main`, the transports and their middlewares (gzip, router).
- **`PingDatabase` and `GetAllMetrics`**: these are a database health check and an HTML template.
- **Locks**: every operation is treated as atomic. Concurrency is not modelled.
- **PEM and x509 key decoding, `NewEncrypter`/`NewDecrypter`**: the model starts from the key size and the block operations.
- **HMAC-SHA256, `%f` formatting, `strconv.ParseFloat`/`FormatFloat`, JSON**: these are parameters, with no property assumed beyond being functions. Tamper detection (a changed field fails validation) needs HMAC collision resistance and is not stated.
- **OAEP**: the block operations are deterministic parameters, so the randomness that crypto/rand feeds to OAEP is fixed.
- **Float64**: bit patterns with no arithmetic. Gauges are only stored and returned.
- **Values instead of pointers**: Sign, SetHash, Storage.Get and FromPb work on metric values and return the updated metric, rather than writing through a pointer. LegacyStorage.Storage.GetMetrics returns the two maps as values, where Go hands out the live maps; aliasing between the caller and the storage is not modelled.
- **gRPC stream errors**: a `Recv` transport error carries its status code and is returned unchanged. Only Canceled, DeadlineExceeded, Unknown and the codes the handlers produce are named; grpc-go's other transport codes are not listed.
- **Reply bodies**: error messages and `http.Error` texts are left out; a reply is its status, plus the value text or JSON on success.
- **Header writes after the fact**: the legacy JSON read calls `WriteHeader(200)` after the body is already written; net/http ignores that call, and the model answers 200 with the body.
- **Runtime samples**: `runtime.ReadMemStats`, `rand.Float64`, `mem.VirtualMemory` and `cpu.Percent` become parameters (`sample`, `memory`, `usage`).
- **Storage interface**: the servers are modelled over the in-memory backends only.
- **Rsa.Encrypt, Rsa.Encrypted**: both require a positive window (`Step`) for non-empty input. With a key of 130 bytes or fewer the source's loop never ends or slices out of range, and neither is modelled.
- **Proto.ToPb**: requires the payload of the metric's type. Without it the source dereferences nil; callers only pass stored metrics.
- **Proto.FromPb**: takes `Other(0)` as the unset enum value that `ToPb` leaves for an unknown type.
- **LegacyHandlers.LegacyGetJson**: has no contract of its own. It is stated through LegacyGetJsonAgrees.
