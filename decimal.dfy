/**
 * Decimal integers as the `fmt` package writes and reads them: the `%d`
 * verb of `fmt.Sprintf` and the `%d` verb of `fmt.Sscanf` into a 64-bit `int`.
 */
module Decimal {
  import opened Wrappers

  const MinInt64: int := -0x8000_0000_0000_0000
  const MaxInt64: int := 0x7FFF_FFFF_FFFF_FFFF

  predicate IsDigit(c: char) {
    '0' <= c <= '9'
  }

  predicate AllDigits(s: string) {
    forall i :: 0 <= i < |s| ==> IsDigit(s[i])
  }

  function DigitChar(d: nat): (c: char)
    requires d < 10
    ensures IsDigit(c)
  {
    ('0' as int + d) as char
  }

  /** The unsigned decimal numeral of `n`, without leading zeros. */
  function NatToDecimal(n: nat): (r: string)
    decreases n
    ensures |r| >= 1 && AllDigits(r)
  {
    if n < 10 then [DigitChar(n)] else NatToDecimal(n / 10) + [DigitChar(n % 10)]
  }

  /** `fmt.Sprintf("%d", i)`: a minus sign for negative values, then the digits. */
  function FormatInt(i: int): (r: string)
    ensures |r| >= 1 && AllDigits(r[1..])
    ensures IsDigit(r[0]) <==> i >= 0
  {
    if i < 0 then "-" + NatToDecimal(-i) else NatToDecimal(i)
  }

  /** The value of a string of decimal digits (0 for the empty string). */
  function DigitsValue(s: string): nat
    requires AllDigits(s)
  {
    if s == [] then 0 else DigitsValue(s[..|s| - 1]) * 10 + (s[|s| - 1] as int - '0' as int)
  }

  /** Reading back a numeral gives the number it was written from. */
  lemma {:induction false} NatToDecimalValue(n: nat)
    ensures DigitsValue(NatToDecimal(n)) == n
  {
    if n >= 10 {
      var r := NatToDecimal(n);
      assert r[..|r| - 1] == NatToDecimal(n / 10);
      NatToDecimalValue(n / 10);
    }
  }

  /** Distinct integers have distinct `%d` renderings. */
  lemma FormatIntInjective(a: int, b: int)
    requires FormatInt(a) == FormatInt(b)
    ensures a == b
  {
    var r := FormatInt(a);
    if a >= 0 {
      NatToDecimalValue(a);
      NatToDecimalValue(b);
    } else {
      assert r[1..] == NatToDecimal(-a) == NatToDecimal(-b);
      NatToDecimalValue(-a);
      NatToDecimalValue(-b);
    }
  }

  /** Length of the run of decimal digits at the front of `s`. */
  function DigitRun(s: string): (n: nat)
    ensures n <= |s| && AllDigits(s[..n])
    ensures n < |s| ==> !IsDigit(s[n])
  {
    if s != [] && IsDigit(s[0]) then 1 + DigitRun(s[1..]) else 0
  }

  /**
   * `fmt.Sscanf(s, "%d", &v)` on text with no leading white space: an
   * optional `+` or `-`, then the longest run of decimal digits, which must
   * not be empty; a value outside the 64-bit range is a scan error. `None`
   * is a scan error, in which case the caller's variable keeps its value.
   */
  function ScanInt(s: string): Option<int> {
    var signed := |s| > 0 && (s[0] == '+' || s[0] == '-');
    var body := if signed then s[1..] else s;
    var k := DigitRun(body);
    if k == 0 then None
    else
      var magnitude: int := DigitsValue(body[..k]);
      var v: int := if signed && s[0] == '-' then -magnitude else magnitude;
      if MinInt64 <= v <= MaxInt64 then Some(v) else None
  }

  /** What `%d` writes, `%d` reads back, for every 64-bit integer. */
  lemma ScanFormatRoundTrip(n: int)
    requires MinInt64 <= n <= MaxInt64
    ensures ScanInt(FormatInt(n)) == Some(n)
  {
    var s := FormatInt(n);
    if n < 0 {
      assert s[1..] == NatToDecimal(-n);
      NatToDecimalValue(-n);
      assert s[1..][..|s[1..]|] == s[1..];
    } else {
      NatToDecimalValue(n);
      assert s[..|s|] == s;
    }
  }
}
