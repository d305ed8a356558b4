/**
 * Chunked RSA-OAEP (encryption/rsa/rsa.go). A plaintext is cut into windows
 * of at most `k - 2*64 - 2` bytes (the RSAES-OAEP message bound of section
 * 7.1.1 of RFC 8017 with SHA-512) and each window is encrypted on its own; a
 * ciphertext is cut into k-byte blocks and each is decrypted on its own. The
 * OAEP block operations are parameters of the keys; a nil key is the identity.
 */
module Rsa {
  import opened Wrappers
  import opened Numbers

  /** The output size of SHA-512, in bytes. */
  const HashSize: int := 64

  /** The size of an RSA modulus in bytes, as `PublicKey.Size` reports it. */
  type KeySize = k: int | k > 0 witness 1

  /** The largest message one OAEP block carries under a key of `k` bytes. */
  function Step(k: KeySize): int {
    k - 2 * HashSize - 2
  }

  /** `*Encrypter`: nil, or a public key with its OAEP encryption of one block (None: the call failed). */
  datatype Encrypter =
    | NoEncrypter
    | RsaEncrypter(keySize: KeySize, encryptBlock: seq<byte> -> Option<seq<byte>>)

  /** `*Decrypter`: nil, or a private key with its OAEP decryption of one block (None: the call failed). */
  datatype Decrypter =
    | NoDecrypter
    | RsaDecrypter(keySize: KeySize, decryptBlock: seq<byte> -> Option<seq<byte>>)

  function Min(a: int, b: int): int {
    if a <= b then a else b
  }

  /**
   * Apply `f` to consecutive windows of `step` bytes (the last may be
   * shorter) and concatenate the results in order; None as soon as one
   * window fails, with no partial output.
   */
  function Chunked(f: seq<byte> -> Option<seq<byte>>, step: int, data: seq<byte>): (r: Option<seq<byte>>)
    requires step > 0
    ensures data == [] ==> r == Some([])
    ensures data != [] && f(data[..Min(step, |data|)]).None? ==> r.None?
    decreases |data|
  {
    if data == [] then Some([])
    else
      var n := Min(step, |data|);
      match f(data[..n])
      case None => None
      case Some(block) =>
        match Chunked(f, step, data[n..])
        case None => None
        case Some(rest) => Some(block + rest)
  }

  /** The windows the loop visits, in order: `step` bytes each, the last possibly shorter. */
  function Windows(step: int, data: seq<byte>): seq<seq<byte>>
    requires step > 0
    decreases |data|
  {
    if data == [] then [] else [data[..Min(step, |data|)]] + Windows(step, data[Min(step, |data|)..])
  }

  function Concat(ws: seq<seq<byte>>): seq<byte> {
    if ws == [] then [] else ws[0] + Concat(ws[1..])
  }

  /** The windows tile the input: they are non-empty, at most `step` long, all full but the last, and concatenate back to it. */
  lemma {:induction false} WindowsTile(step: int, data: seq<byte>)
    requires step > 0
    ensures Concat(Windows(step, data)) == data
    ensures forall k :: 0 <= k < |Windows(step, data)| ==> 0 < |Windows(step, data)[k]| <= step
    ensures forall k :: 0 <= k < |Windows(step, data)| - 1 ==> |Windows(step, data)[k]| == step
    decreases |data|
  {
    if data != [] {
      var n := Min(step, |data|);
      WindowsTile(step, data[n..]);
      var ws := Windows(step, data);
      assert ws[1..] == Windows(step, data[n..]);
      assert data[..n] + data[n..] == data;
    }
  }

  /**
   * Any failing window fails the whole call, and only a failing window does:
   * success means every window was transformed.
   */
  lemma {:induction false} ChunkedFailsIff(f: seq<byte> -> Option<seq<byte>>, step: int, data: seq<byte>)
    requires step > 0
    ensures Chunked(f, step, data).None? <==> exists w :: w in Windows(step, data) && f(w).None?
    decreases |data|
  {
    if data != [] {
      var n := Min(step, |data|);
      var ws := Windows(step, data);
      ChunkedFailsIff(f, step, data[n..]);
      assert ws == [data[..n]] + Windows(step, data[n..]);
      assert forall w :: w in ws <==> w == data[..n] || w in Windows(step, data[n..]);
    }
  }

  /** `out` followed by the result of the remaining windows, or None if they fail. */
  function Prepend(out: seq<byte>, rest: Option<seq<byte>>): Option<seq<byte>> {
    match rest
    case None => None
    case Some(x) => Some(out + x)
  }

  /** What `Encrypt` returns: the input itself for nil, else the chunked ciphertext. */
  function Encrypted(e: Encrypter, plaintext: seq<byte>): (r: Option<seq<byte>>)
    requires e.RsaEncrypter? && plaintext != [] ==> Step(e.keySize) > 0
    ensures e.NoEncrypter? ==> r == Some(plaintext)
    ensures e.RsaEncrypter? && plaintext == [] ==> r == Some([])
    ensures e.RsaEncrypter? && plaintext != [] && e.encryptBlock(plaintext[..Min(Step(e.keySize), |plaintext|)]).None? ==> r.None?
    ensures e.RsaEncrypter? && plaintext != [] ==>
      (r.None? <==> exists w :: w in Windows(Step(e.keySize), plaintext) && e.encryptBlock(w).None?)
  {
    if e.NoEncrypter? then Some(plaintext)
    else if plaintext == [] then Some([])
    else ChunkedFailsIff(e.encryptBlock, Step(e.keySize), plaintext); Chunked(e.encryptBlock, Step(e.keySize), plaintext)
  }

  /** What `Decrypt` returns: the input itself for nil, else the chunked plaintext. */
  function Decrypted(d: Decrypter, ciphertext: seq<byte>): (r: Option<seq<byte>>)
    ensures d.NoDecrypter? ==> r == Some(ciphertext)
    ensures d.RsaDecrypter? && ciphertext == [] ==> r == Some([])
    ensures d.RsaDecrypter? && ciphertext != [] && d.decryptBlock(ciphertext[..Min(d.keySize, |ciphertext|)]).None? ==> r.None?
    ensures d.RsaDecrypter? ==> (r.None? <==> exists w :: w in Windows(d.keySize, ciphertext) && d.decryptBlock(w).None?)
  {
    if d.NoDecrypter? then Some(ciphertext)
    else ChunkedFailsIff(d.decryptBlock, d.keySize, ciphertext); Chunked(d.decryptBlock, d.keySize, ciphertext)
  }

  /** One window of the chunked transformation, taken off the front of `data[start..]`. */
  lemma ChunkedFront(f: seq<byte> -> Option<seq<byte>>, step: int, data: seq<byte>, start: int, finish: int)
    requires step > 0 && 0 <= start < |data| && finish == Min(start + step, |data|)
    ensures Chunked(f, step, data[start..]) ==
      if f(data[start..finish]).None? then None else Prepend(f(data[start..finish]).value, Chunked(f, step, data[finish..]))
  {
    var rest := data[start..];
    assert rest[..finish - start] == data[start..finish];
    assert rest[finish - start..] == data[finish..];
  }

  lemma PrependUnit(x: Option<seq<byte>>)
    ensures Prepend([], x) == x
    ensures x.Some? ==> Prepend(x.value, Some([])) == x
  {
    if x.Some? {
      assert [] + x.value == x.value + [] == x.value;
    }
  }

  lemma PrependAssoc(out: seq<byte>, block: seq<byte>, x: Option<seq<byte>>)
    ensures Prepend(out, Prepend(block, x)) == Prepend(out + block, x)
  {
    if x.Some? {
      assert out + (block + x.value) == (out + block) + x.value;
    }
  }

  /**
   * The shared `for start := 0; start < len(data); start += step` loop: slice
   * `data[start:finish]`, transform it, append, stop at the first failure.
   */
  method ChunkLoop(f: seq<byte> -> Option<seq<byte>>, step: int, data: seq<byte>) returns (r: Option<seq<byte>>)
    requires step > 0
    ensures r == Chunked(f, step, data)
  {
    var out: seq<byte> := [];
    var start := 0;
    assert data[0..] == data;
    PrependUnit(Chunked(f, step, data));
    while start < |data|
      invariant 0 <= start
      invariant Chunked(f, step, data) == Prepend(out, Chunked(f, step, data[Min(start, |data|)..]))
      decreases |data| - start
    {
      var finish := start + step;
      if finish > |data| {
        finish := |data|;
      }
      ChunkedFront(f, step, data, start, finish);
      var block := f(data[start..finish]);
      if block.None? {
        return None;
      }
      PrependAssoc(out, block.value, Chunked(f, step, data[finish..]));
      out := out + block.value;
      start := start + step;
      assert Min(start, |data|) == finish;
    }
    assert data[Min(start, |data|)..] == [];
    PrependUnit(Some(out));
    r := Some(out);
  }

  /**
   * `Encrypter.Encrypt`. The source needs a positive window: with a key of
   * 130 bytes or fewer the window is empty or negative and the loop never
   * ends or slices out of range.
   */
  method Encrypt(e: Encrypter, plaintext: seq<byte>) returns (r: Option<seq<byte>>)
    requires e.RsaEncrypter? && plaintext != [] ==> Step(e.keySize) > 0
    ensures r == Encrypted(e, plaintext)
  {
    if e.NoEncrypter? {
      return Some(plaintext);
    }
    if plaintext == [] {
      return Some([]);
    }
    r := ChunkLoop(e.encryptBlock, Step(e.keySize), plaintext);
  }

  /** `Decrypter.Decrypt`: strides of exactly the key size. */
  method Decrypt(d: Decrypter, ciphertext: seq<byte>) returns (r: Option<seq<byte>>)
    ensures r == Decrypted(d, ciphertext)
  {
    if d.NoDecrypter? {
      return Some(ciphertext);
    }
    r := ChunkLoop(d.decryptBlock, d.keySize, ciphertext);
  }

  /**
   * The two halves of one key pair: both nil, or the same key size with every
   * successful block encryption of a message that fits giving exactly one
   * key-sized block that decrypts back to that message.
   */
  ghost predicate KeyPair(e: Encrypter, d: Decrypter) {
    || (e.NoEncrypter? && d.NoDecrypter?)
    || (&& e.RsaEncrypter? && d.RsaDecrypter? && e.keySize == d.keySize
        && forall b: seq<byte> :: |b| <= Step(e.keySize) && e.encryptBlock(b).Some? ==>
             |e.encryptBlock(b).value| == e.keySize && d.decryptBlock(e.encryptBlock(b).value) == Some(b))
  }

  /** The key-pair property for one block. */
  lemma KeyPairBlock(e: Encrypter, d: Decrypter, b: seq<byte>)
    requires KeyPair(e, d) && e.RsaEncrypter?
    requires |b| <= Step(e.keySize) && e.encryptBlock(b).Some?
    ensures d.RsaDecrypter? && d.keySize == e.keySize
    ensures |e.encryptBlock(b).value| == e.keySize && d.decryptBlock(e.encryptBlock(b).value) == Some(b)
  {
  }

  /** Chunked decryption undoes chunked encryption, block by block. */
  lemma {:induction false} ChunkedRoundTrip(e: Encrypter, d: Decrypter, p: seq<byte>)
    requires KeyPair(e, d) && e.RsaEncrypter? && Step(e.keySize) > 0
    requires Chunked(e.encryptBlock, Step(e.keySize), p).Some?
    ensures d.RsaDecrypter?
    ensures Chunked(d.decryptBlock, d.keySize, Chunked(e.encryptBlock, Step(e.keySize), p).value) == Some(p)
    decreases |p|
  {
    var k, step := e.keySize, Step(e.keySize);
    var c := Chunked(e.encryptBlock, step, p).value;
    if p != [] {
      var n := Min(step, |p|);
      var block := e.encryptBlock(p[..n]).value;
      var rest := Chunked(e.encryptBlock, step, p[n..]).value;
      assert c == block + rest;
      KeyPairBlock(e, d, p[..n]);
      ChunkedRoundTrip(e, d, p[n..]);
      assert c[..k] == block && c[k..] == rest;
      assert p[..n] + p[n..] == p;
    }
  }

  /** `Decrypt(Encrypt(p)) == p` for a key pair, whenever encryption succeeds. */
  lemma DecryptInvertsEncrypt(e: Encrypter, d: Decrypter, p: seq<byte>)
    requires KeyPair(e, d)
    requires e.RsaEncrypter? && p != [] ==> Step(e.keySize) > 0
    requires Encrypted(e, p).Some?
    ensures Decrypted(d, Encrypted(e, p).value) == Some(p)
  {
    if e.RsaEncrypter? && p != [] {
      ChunkedRoundTrip(e, d, p);
    }
  }
}
