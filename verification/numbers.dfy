/**
 * The few JavaScript number operations the drag/resize code relies on:
 * `parseFloat`, `String(n)` of an integer, `Math.trunc` and `toFixed`.
 *
 * `parseFloat` is modelled on whole numbers: it skips leading white space,
 * reads an optional sign and the longest run of decimal digits, and ignores
 * whatever follows. When no digit can be read the result is NaN.
 */
module Numbers {

  /** A number read by `parseFloat`: an integer, or NaN. */
  datatype Parsed = Number(value: int) | NaN

  predicate IsDigit(c: char) {
    '0' <= c <= '9'
  }

  predicate AllDigits(s: string) {
    forall i :: 0 <= i < |s| ==> IsDigit(s[i])
  }

  /** The white space that `parseFloat` skips and `String.prototype.trim` removes. */
  predicate IsSpace(c: char) {
    c == ' ' || c == '\t' || c == '\n' || c == '\r' || c == '\U{000B}' || c == '\U{000C}'
  }

  function DigitChar(d: nat): (c: char)
    requires d < 10
    ensures IsDigit(c)
  {
    ('0' as int + d) as char
  }

  function DigitValue(c: char): (d: nat)
    requires IsDigit(c)
    ensures d < 10 && DigitChar(d) == c
  {
    c as int - '0' as int
  }

  /** Decimal digits of a natural number, most significant first, without leading zeros. */
  function NatToString(n: nat): (s: string)
    ensures |s| >= 1 && AllDigits(s)
    ensures s[0] == '0' ==> n == 0
  {
    if n < 10 then [DigitChar(n)] else NatToString(n / 10) + [DigitChar(n % 10)]
  }

  /** `${n}` for an integer-valued number. */
  function FormatInt(n: int): (s: string)
    ensures |s| >= 1
    ensures s[0] == '-' || IsDigit(s[0])
    ensures forall i :: 0 <= i < |s| ==> s[i] == '-' || IsDigit(s[i])
  {
    if n < 0 then "-" + NatToString(-n) else NatToString(n)
  }

  /** The value of a string of decimal digits. */
  function DigitsValue(s: string): nat
    requires AllDigits(s)
  {
    if s == [] then 0 else DigitsValue(s[..|s| - 1]) * 10 + DigitValue(s[|s| - 1])
  }

  function SkipSpace(s: string): (t: string)
    ensures |t| <= |s|
    ensures t == [] || !IsSpace(t[0])
  {
    if |s| > 0 && IsSpace(s[0]) then SkipSpace(s[1..]) else s
  }

  /** The number of decimal digits at the start of `s`. */
  function LeadingDigits(s: string): (k: nat)
    ensures k <= |s| && AllDigits(s[..k])
    ensures k < |s| ==> !IsDigit(s[k])
  {
    if |s| > 0 && IsDigit(s[0]) then 1 + LeadingDigits(s[1..]) else 0
  }

  /** `t` without its leading sign character, if any. */
  function Unsigned(t: string): string {
    if |t| > 0 && (t[0] == '-' || t[0] == '+') then t[1..] else t
  }

  /** The leading digits of `u` as a number, or NaN when `u` starts with none. */
  function ReadDigits(u: string, negative: bool): Parsed {
    var k := LeadingDigits(u);
    if k == 0 then NaN
    else
      var v: int := DigitsValue(u[..k]);
      Number(if negative then -v else v)
  }

  /** `parseFloat(s)`, restricted to whole numbers. */
  function ParseFloat(s: string): Parsed {
    var t := SkipSpace(s);
    ReadDigits(Unsigned(t), |t| > 0 && t[0] == '-')
  }

  lemma {:induction false} DigitsValueOfNatToString(n: nat)
    ensures DigitsValue(NatToString(n)) == n
  {
    var s := NatToString(n);
    if n >= 10 {
      DigitsValueOfNatToString(n / 10);
      assert s[..|s| - 1] == NatToString(n / 10);
    }
  }

  lemma {:induction false} LeadingDigitsAppend(u: string, rest: string)
    requires AllDigits(u)
    requires rest == [] || !IsDigit(rest[0])
    ensures LeadingDigits(u + rest) == |u|
  {
    if u != [] {
      assert (u + rest)[1..] == u[1..] + rest;
      LeadingDigitsAppend(u[1..], rest);
    } else {
      assert u + rest == rest;
    }
  }

  /** `parseFloat` reads back what `${n}` wrote, whatever non-digit text follows it. */
  lemma ParseFormatInt(n: int, rest: string)
    requires rest == [] || !IsDigit(rest[0])
    ensures ParseFloat(FormatInt(n) + rest) == Number(n)
  {
    var m: nat := if n < 0 then -n else n;
    assert FormatInt(n) == SignedDigits(n < 0, m);
    ParseSignedDigits(m, n < 0, rest);
  }

  /** The digits of `m` followed by a non-digit read as `m`, with the sign asked for. */
  lemma ReadDigitsOf(m: nat, rest: string, negative: bool)
    requires rest == [] || !IsDigit(rest[0])
    ensures ReadDigits(NatToString(m) + rest, negative) == Number(if negative then -(m as int) else m)
  {
    var digits := NatToString(m);
    DigitsValueOfNatToString(m);
    LeadingDigitsAppend(digits, rest);
    assert (digits + rest)[..|digits|] == digits;
  }

  lemma {:induction false} SkipSpaceAppend(s: string, rest: string)
    requires rest != [] && !IsSpace(rest[0])
    ensures SkipSpace(s + rest) == SkipSpace(s) + rest
  {
    if s != [] {
      assert (s + rest)[0] == s[0];
      assert (s + rest)[1..] == s[1..] + rest;
      if IsSpace(s[0]) {
        SkipSpaceAppend(s[1..], rest);
      }
    } else {
      assert s + rest == rest;
    }
  }

  lemma {:induction false} LeadingDigitsAppendNonDigit(u: string, rest: string)
    requires rest == [] || !IsDigit(rest[0])
    ensures LeadingDigits(u + rest) == LeadingDigits(u)
  {
    if u != [] {
      assert (u + rest)[0] == u[0];
      assert (u + rest)[1..] == u[1..] + rest;
      if IsDigit(u[0]) {
        LeadingDigitsAppendNonDigit(u[1..], rest);
      }
    } else {
      assert u + rest == rest;
    }
  }

  /**
   * Text after the number that starts with neither a digit nor white space
   * (a unit such as "px") never changes what `parseFloat` reads.
   */
  lemma ParseIgnoresUnitSuffix(s: string, unit: string)
    requires unit != [] && !IsDigit(unit[0]) && !IsSpace(unit[0])
    requires unit[0] != '-' && unit[0] != '+'
    ensures ParseFloat(s + unit) == ParseFloat(s)
  {
    var t := SkipSpace(s);
    SkipSpaceAppend(s, unit);
    assert SkipSpace(s + unit) == t + unit;
    if t == [] {
      assert t + unit == unit;
      assert LeadingDigits(unit) == 0;
    } else {
      assert (t + unit)[0] == t[0];
      var u := if t[0] == '-' || t[0] == '+' then t[1..] else t;
      assert (if t[0] == '-' || t[0] == '+' then (t + unit)[1..] else t + unit) == u + unit;
      LeadingDigitsAppendNonDigit(u, unit);
      var k := LeadingDigits(u);
      assert (u + unit)[..k] == u[..k];
    }
  }

  /** `Math.trunc`: the integer part, rounding toward zero. */
  function Trunc(x: real): (r: int)
    ensures x >= 0.0 ==> 0.0 <= r as real <= x < r as real + 1.0
    ensures x < 0.0 ==> r as real - 1.0 < x <= r as real <= 0.0
  {
    if x >= 0.0 then x.Floor else -((-x).Floor)
  }

  function Pow10(f: nat): (p: nat)
    ensures p >= 1
  {
    if f == 0 then 1 else 10 * Pow10(f - 1)
  }

  /** `s` preceded by zeros up to length `width`. */
  function PadZeros(s: string, width: nat): (r: string)
    ensures |r| == if |s| < width then width else |s|
    decreases width - |s|
  {
    if |s| < width then PadZeros("0" + s, width) else s
  }

  /**
   * `x.toFixed(f)`: the magnitude rounded to `f` decimals, ties away from
   * zero, with a leading "-" whenever `x` is negative (so `(-0.2).toFixed(0)`
   * is "-0").
   */
  function ToFixed(x: real, f: nat): (s: string)
    ensures |s| >= 1
  {
    var magnitude := if x < 0.0 then -x else x;
    var scale := Pow10(f) as real;
    assert magnitude * scale >= 0.0 by { ProductNonNegative(magnitude, scale); }
    var n: nat := (magnitude * scale + 0.5).Floor;
    var p := Pow10(f);
    assert n / p >= 0 && n % p >= 0 by { DivModNonNegative(n, p); }
    var body :=
      if f == 0 then NatToString(n)
      else NatToString(n / p) + "." + PadZeros(NatToString(n % p), f);
    if x < 0.0 then "-" + body else body
  }

  lemma ProductNonNegative(a: real, b: real)
    requires a >= 0.0 && b >= 0.0
    ensures a * b >= 0.0
  {
  }

  lemma DivModNonNegative(n: nat, p: nat)
    requires p >= 1
    ensures n / p >= 0 && n % p >= 0
  {
  }

  /** Rounding half away from zero, stated by its distance to `x`. */
  predicate IsRoundedHalfAway(x: real, n: int) {
    && (n as real - x <= 0.5) && (x - n as real <= 0.5)
    && (x - n as real == 0.5 ==> x < 0.0)
    && (n as real - x == 0.5 ==> x >= 0.0)
  }

  /** `toFixed(0)` renders a whole number that `parseFloat` reads back as `x` rounded. */
  lemma ToFixedZeroParsesBack(x: real)
    ensures ParseFloat(ToFixed(x, 0)).Number?
    ensures IsRoundedHalfAway(x, ParseFloat(ToFixed(x, 0)).value)
  {
    ToFixedZeroDigits(x);
    ParseSignedDigits(RoundHalfUp(Abs(x)), x < 0.0, "");
    assert SignedDigits(x < 0.0, RoundHalfUp(Abs(x))) + "" == SignedDigits(x < 0.0, RoundHalfUp(Abs(x)));
    RoundedMagnitude(x);
  }

  function Abs(x: real): (m: real)
    ensures m >= 0.0 && (m == x || m == -x)
  {
    if x < 0.0 then -x else x
  }

  /** A non-negative number rounded to the nearest whole number, ties upward. */
  function RoundHalfUp(m: real): (n: nat)
    requires m >= 0.0
    ensures n as real - m <= 0.5 && m - n as real < 0.5
  {
    (m + 0.5).Floor
  }

  /** The digits of `n`, preceded by "-" when `negative`. */
  function SignedDigits(negative: bool, n: nat): (s: string)
    ensures negative ==> s == "-" + NatToString(n)
    ensures !negative ==> s == NatToString(n)
  {
    if negative then "-" + NatToString(n) else NatToString(n)
  }

  /** With no decimals, `toFixed` writes the sign and the rounded magnitude's digits. */
  lemma ToFixedZeroDigits(x: real)
    ensures ToFixed(x, 0) == SignedDigits(x < 0.0, RoundHalfUp(Abs(x)))
  {
    assert Pow10(0) == 1;
    assert Abs(x) * (1 as real) == Abs(x);
  }

  /** `parseFloat` reads an optional "-" and the digits of `n`, before any non-digit text, as `n` with that sign. */
  lemma ParseSignedDigits(n: nat, negative: bool, rest: string)
    requires rest == [] || !IsDigit(rest[0])
    ensures ParseFloat(SignedDigits(negative, n) + rest) == Number(if negative then -(n as int) else n)
  {
    var digits := NatToString(n);
    ReadDigitsOf(n, rest, negative);
    if negative {
      var t := "-" + (digits + rest);
      assert SignedDigits(negative, n) + rest == t;
      assert SkipSpace(t) == t;
      assert Unsigned(t) == digits + rest;
    } else {
      assert SkipSpace(digits + rest) == digits + rest;
      assert Unsigned(digits + rest) == digits + rest;
    }
  }

  /** Rounding the magnitude half up and giving back the sign rounds half away from zero. */
  lemma RoundedMagnitude(x: real)
    ensures var n := RoundHalfUp(Abs(x));
      IsRoundedHalfAway(x, if x < 0.0 then -(n as int) else n)
  {
  }
}
