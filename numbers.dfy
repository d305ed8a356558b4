/**
 * Go's fixed-width numbers as the metrics code uses them: bytes, int64 with
 * two's-complement wrap-around on `+`, float64 kept opaque, and the decimal
 * text of an int64 (`%d`, `strconv.ParseInt(s, 10, 64)`).
 */
module Numbers {
  import opened Wrappers

  newtype byte = x: int | 0 <= x < 0x100

  const Int64Min: int := -0x8000_0000_0000_0000
  const Int64Max: int := 0x7fff_ffff_ffff_ffff
  const Modulus: int := 0x1_0000_0000_0000_0000

  newtype int64 = x: int | -0x8000_0000_0000_0000 <= x < 0x8000_0000_0000_0000

  /**
   * A Go float64, kept as its IEEE-754 bit pattern. The model never computes
   * with gauge values: it stores, compares and hands them to the formatting
   * and parsing primitives, which are parameters.
   */
  datatype Float64 = Float64(bits: bv64)

  /** A float64 that is neither NaN nor an infinity: its exponent field is not all ones. */
  predicate IsFinite(f: Float64) {
    f.bits & 0x7FF0_0000_0000_0000 != 0x7FF0_0000_0000_0000
  }

  /** Go's zero value for float64 (+0.0). */
  const Zero: Float64 := Float64(0)

  /** Go's `a + b` (and `a += b`) on int64: the exact sum reduced into range modulo 2^64. */
  function AddWrap(a: int64, b: int64): (r: int64)
    ensures (r as int - (a as int + b as int)) % Modulus == 0
    ensures Int64Min <= a as int + b as int <= Int64Max ==> r as int == a as int + b as int
  {
    var s := a as int + b as int;
    if s > Int64Max then (s - Modulus) as int64
    else if s < Int64Min then (s + Modulus) as int64
    else s as int64
  }

  /** Wrapping addition does not depend on the order in which two deltas arrive. */
  lemma AddWrapReorder(x: int64, d1: int64, d2: int64)
    ensures AddWrap(AddWrap(x, d1), d2) == AddWrap(AddWrap(x, d2), d1)
  {
  }

  predicate IsDigit(c: char) {
    '0' <= c <= '9'
  }

  predicate AllDigits(s: string) {
    forall i :: 0 <= i < |s| ==> IsDigit(s[i])
  }

  function DigitChar(d: nat): (c: char)
    requires d < 10
    ensures IsDigit(c)
  {
    ('0' as int + d) as char
  }

  function DigitValue(c: char): (d: nat)
    requires IsDigit(c)
    ensures d < 10 && DigitChar(d) == c
  {
    c as int - '0' as int
  }

  /** The shortest decimal text of `n`, most significant digit first. */
  function NatToDecimal(n: nat): (s: string)
    ensures |s| > 0 && AllDigits(s)
    decreases n
  {
    if n < 10 then [DigitChar(n)] else NatToDecimal(n / 10) + [DigitChar(n % 10)]
  }

  /** The value of a run of decimal digits, most significant digit first. */
  function DecimalValue(s: string): nat
    requires AllDigits(s)
  {
    if s == [] then 0 else DecimalValue(s[..|s| - 1]) * 10 + DigitValue(s[|s| - 1])
  }

  lemma {:induction false} DecimalRoundTrip(n: nat)
    ensures DecimalValue(NatToDecimal(n)) == n
    decreases n
  {
    if n >= 10 {
      var s := NatToDecimal(n);
      assert s[..|s| - 1] == NatToDecimal(n / 10);
      DecimalRoundTrip(n / 10);
    }
  }

  /** Distinct naturals have distinct decimal texts. */
  lemma NatToDecimalInjective(m: nat, n: nat)
    requires NatToDecimal(m) == NatToDecimal(n)
    ensures m == n
  {
    DecimalRoundTrip(m);
    DecimalRoundTrip(n);
  }

  /** `fmt.Sprintf("%d", x)`, which is also `strconv.FormatInt(x, 10)`. */
  function FormatInt(x: int64): (s: string)
    ensures |s| > 0
    ensures x >= 0 <==> IsDigit(s[0])
  {
    if x < 0 then "-" + NatToDecimal(-(x as int)) else NatToDecimal(x as int)
  }

  /**
   * `strconv.ParseInt(s, 10, 64)`: an optional `+` or `-`, then one or more
   * decimal digits and nothing else; a value outside int64 is a range error.
   * None stands for the returned error.
   */
  function ParseInt(s: string): (r: Option<int64>)
    ensures r.Some? ==> |s| > 0 && IsDigit(s[|s| - 1])
  {
    if |s| == 0 then None
    else
      var digits := if s[0] == '-' || s[0] == '+' then s[1..] else s;
      if |digits| == 0 || !AllDigits(digits) then None
      else
        var v := if s[0] == '-' then -(DecimalValue(digits) as int) else DecimalValue(digits) as int;
        if Int64Min <= v <= Int64Max then Some(v as int64) else None
  }

  /** Every int64 survives `%d` followed by `ParseInt`. */
  lemma ParseFormatInt(x: int64)
    ensures ParseInt(FormatInt(x)) == Some(x)
  {
    var s := FormatInt(x);
    if x < 0 {
      var d := NatToDecimal(-(x as int));
      assert s[1..] == d;
      DecimalRoundTrip(-(x as int));
    } else {
      DecimalRoundTrip(x as int);
    }
  }

  /** `%d` is injective on int64. */
  lemma FormatIntInjective(x: int64, y: int64)
    requires FormatInt(x) == FormatInt(y)
    ensures x == y
  {
    ParseFormatInt(x);
    ParseFormatInt(y);
  }
}
