/** `encoding/hex`: `EncodeToString` and `DecodeString`. */
module Hex {
  import opened Wrappers
  import opened Numbers

  const LowerDigits: string := "0123456789abcdef"

  /** EncodeToString: two lower-case digits per byte, high nibble first. */
  function Encode(b: seq<byte>): (s: string)
    ensures |s| == 2 * |b|
  {
    if b == [] then ""
    else [LowerDigits[b[0] as int / 16], LowerDigits[b[0] as int % 16]] + Encode(b[1..])
  }

  /** The value of one hex digit; DecodeString accepts both letter cases. */
  function NibbleValue(c: char): (r: Option<nat>)
    ensures r.Some? ==> r.value < 16
  {
    if '0' <= c <= '9' then Some(c as int - '0' as int)
    else if 'a' <= c <= 'f' then Some(c as int - 'a' as int + 10)
    else if 'A' <= c <= 'F' then Some(c as int - 'A' as int + 10)
    else None
  }

  predicate IsHexDigit(c: char) {
    NibbleValue(c).Some?
  }

  /**
   * DecodeString: None stands for the returned error, which is ErrLength for
   * an odd number of characters and InvalidByteError for a non-hex character.
   */
  function Decode(s: string): (r: Option<seq<byte>>)
    ensures r.Some? ==> 2 * |r.value| == |s|
    decreases |s|
  {
    if |s| == 0 then Some([])
    else if |s| == 1 then None
    else
      match (NibbleValue(s[0]), NibbleValue(s[1]), Decode(s[2..]))
      case (Some(hi), Some(lo), Some(rest)) => Some([(hi * 16 + lo) as byte] + rest)
      case _ => None
  }

  lemma NibbleOfDigit(k: nat)
    requires k < 16
    ensures NibbleValue(LowerDigits[k]) == Some(k)
  {
  }

  /** Decoding undoes encoding. */
  lemma {:induction false} DecodeEncode(b: seq<byte>)
    ensures Decode(Encode(b)) == Some(b)
  {
    if b != [] {
      var s := Encode(b);
      var x := b[0] as int;
      var hi, lo := x / 16, x % 16;
      assert x == hi * 16 + lo;
      NibbleOfDigit(hi);
      NibbleOfDigit(lo);
      assert s[0] == LowerDigits[hi] && s[1] == LowerDigits[lo];
      assert s[2..] == Encode(b[1..]);
      DecodeEncode(b[1..]);
      assert Decode(s) == Some([(hi * 16 + lo) as byte] + b[1..]);
      assert [(hi * 16 + lo) as byte] + b[1..] == b;
    }
  }

  /** DecodeString fails exactly on an odd length or a character that is not a hex digit. */
  lemma {:induction false} DecodeSucceeds(s: string)
    ensures Decode(s).Some? <==> |s| % 2 == 0 && forall i :: 0 <= i < |s| ==> IsHexDigit(s[i])
    decreases |s|
  {
    if |s| >= 2 {
      DecodeSucceeds(s[2..]);
      assert forall i :: 2 <= i < |s| ==> s[i] == s[2..][i - 2];
    }
  }
}
