/**
 * Fixed-width integers and base-10 text, as the binding uses them:
 * Go's `int`/`int64` and C's `int` (to which indices, timeouts and
 * status codes are converted), `fmt`'s `%d`, and `strconv.ParseInt(s, 10, 64)`
 * (which the timestamp getters apply to the text the native layer returns).
 */
module Decimal {

  type Int64 = x: int | -0x8000_0000_0000_0000 <= x <= 0x7fff_ffff_ffff_ffff
  type Int32 = x: int | -0x8000_0000 <= x <= 0x7fff_ffff

  const MaxInt64: int := 0x7fff_ffff_ffff_ffff
  const MaxUint64: int := 0xffff_ffff_ffff_ffff

  /** `C.int(x)`: keeps the low 32 bits of x as a two's-complement value. */
  function ToInt32(x: int): (r: Int32)
    ensures (r - x) % 0x1_0000_0000 == 0
    ensures -0x8000_0000 <= x <= 0x7fff_ffff ==> r == x
  {
    var m := x % 0x1_0000_0000;
    if m <= 0x7fff_ffff then m else m - 0x1_0000_0000
  }

  predicate IsDigit(c: char) {
    '0' <= c <= '9'
  }

  function DigitValue(c: char): (d: nat)
    requires IsDigit(c)
    ensures d < 10
  {
    (c as int - '0' as int) as nat
  }

  function DigitChar(d: nat): (c: char)
    requires d < 10
    ensures IsDigit(c) && DigitValue(c) == d
  {
    (d + '0' as int) as char
  }

  /** The decimal digits of n, most significant first, without leading zeros. */
  function FormatNat(n: nat): (s: string)
    ensures |s| > 0
    ensures forall i :: 0 <= i < |s| ==> IsDigit(s[i])
    decreases n
  {
    if n < 10 then [DigitChar(n)] else FormatNat(n / 10) + [DigitChar(n % 10)]
  }

  /** `fmt`'s `%d` of a signed integer. */
  function FormatInt(n: int): (s: string)
    ensures |s| > 0
    ensures s[0] == '-' <==> n < 0
    ensures n < 0 ==> s[1..] == FormatNat(-n)
    ensures n >= 0 ==> s == FormatNat(n)
  {
    if n < 0 then "-" + FormatNat(-n) else FormatNat(n)
  }

  /** The two failures of strconv: `ErrSyntax` and `ErrRange`. */
  datatype NumErrorKind = Syntax | Range

  datatype Parsed = Value(n: int) | Failed(kind: NumErrorKind)

  /**
   * The digit loop of `strconv.ParseUint` for base 10 and 64 bits: a character
   * that is not a decimal digit is a syntax error, and the first digit that
   * would carry the accumulated value past 2^64 - 1 is a range error (reported
   * at once, before any later character is looked at).
   */
  function ScanDigits(s: string, acc: nat): (r: Parsed)
    requires acc <= MaxUint64
    ensures r.Value? ==> acc <= r.n <= MaxUint64
    ensures r.Value? ==> forall i :: 0 <= i < |s| ==> IsDigit(s[i])
    decreases |s|
  {
    if s == [] then Value(acc)
    else if !IsDigit(s[0]) then Failed(Syntax)
    else if acc * 10 + DigitValue(s[0]) > MaxUint64 then Failed(Range)
    else ScanDigits(s[1..], acc * 10 + DigitValue(s[0]))
  }

  /** `strconv.ParseUint(s, 10, 64)`. */
  function ParseUint64(s: string): (r: Parsed)
    ensures r.Value? ==> 0 <= r.n <= MaxUint64 && s != []
  {
    if s == [] then Failed(Syntax) else ScanDigits(s, 0)
  }

  /**
   * `strconv.ParseInt(s, 10, 64)`: an optional sign, then ParseUint on the
   * rest; a syntax error from ParseUint stays a syntax error, a range error or
   * a magnitude beyond the signed range is a range error.
   */
  function ParseInt64(s: string): (r: Parsed)
    ensures r.Value? ==> -0x8000_0000_0000_0000 <= r.n <= MaxInt64
    ensures r.Value? ==> s != [] && (r.n < 0 ==> s[0] == '-')
  {
    if s == [] then Failed(Syntax)
    else
      var neg := s[0] == '-';
      var digits := if s[0] == '+' || s[0] == '-' then s[1..] else s;
      match ParseUint64(digits)
      case Failed(kind) => Failed(kind)
      case Value(u) =>
        if !neg && u > MaxInt64 then Failed(Range)
        else if neg && u > MaxInt64 + 1 then Failed(Range)
        else Value(if neg then -u else u)
  }

  /** Scanning a concatenation continues from the value the first part left. */
  lemma {:induction false} ScanConcat(a: string, b: string, acc: nat)
    requires acc <= MaxUint64
    requires ScanDigits(a, acc).Value?
    ensures ScanDigits(a + b, acc) == ScanDigits(b, ScanDigits(a, acc).n)
    decreases |a|
  {
    if a == [] {
      assert a + b == b;
    } else {
      assert (a + b)[0] == a[0];
      assert (a + b)[1..] == a[1..] + b;
      ScanConcat(a[1..], b, acc * 10 + DigitValue(a[0]));
    }
  }

  /** ParseUint's digit loop reads back every value FormatNat writes. */
  lemma {:induction false} ScanFormatNat(n: nat)
    requires n <= MaxUint64
    ensures ScanDigits(FormatNat(n), 0) == Value(n)
    decreases n
  {
    if n >= 10 {
      var d := DigitChar(n % 10);
      ScanFormatNat(n / 10);
      ScanConcat(FormatNat(n / 10), [d], 0);
      assert [d][1..] == [];
    }
  }

  /** Round trip: `strconv.ParseInt` reads back every int64 that `%d` writes. */
  lemma ParseFormatInt(n: int)
    requires -0x8000_0000_0000_0000 <= n <= MaxInt64
    ensures ParseInt64(FormatInt(n)) == Value(n)
  {
    var s := FormatInt(n);
    if n < 0 {
      ScanFormatNat(-n);
      assert s[1..] == FormatNat(-n);
    } else {
      ScanFormatNat(n);
      assert IsDigit(s[0]);
    }
  }
}
