/*
 * Java's int, Integer.parseInt and Integer.toString, and java.math.BigDecimal
 * as far as the SIE 4 amounts need it: construction from a decimal string
 * and printing in plain notation.
 */
module Numbers {
  import opened Wrappers
  import opened Text

  const INT_MIN: int := -0x8000_0000
  const INT_MAX: int := 0x7FFF_FFFF

  /** Java's 32-bit int. */
  type Int32 = x: int | -0x8000_0000 <= x <= 0x7FFF_FFFF

  predicate IsDigit(c: char) {
    '0' <= c <= '9'
  }

  predicate AllDigits(s: string) {
    forall i :: 0 <= i < |s| ==> IsDigit(s[i])
  }

  lemma {:induction false} AllDigitsSplit(s: string, k: nat)
    requires AllDigits(s) && k <= |s|
    ensures AllDigits(s[..k]) && AllDigits(s[k..])
  {
  }

  lemma {:induction false} AllDigitsConcat(a: string, b: string)
    requires AllDigits(a) && AllDigits(b)
    ensures AllDigits(a + b)
  {
  }

  function DigitValue(c: char): nat {
    if IsDigit(c) then c as int - '0' as int else 0
  }

  function DigitChar(d: nat): char
    requires d < 10
  {
    ('0' as int + d) as char
  }

  /** The value of a run of decimal digits, most significant first (the callers check that they are digits). */
  function DigitsValue(s: string): nat {
    if |s| == 0 then 0 else DigitsValue(s[..|s| - 1]) * 10 + DigitValue(s[|s| - 1])
  }

  function Pow10(k: nat): nat {
    if k == 0 then 1 else 10 * Pow10(k - 1)
  }

  /** A run of k digits is worth less than 10^k. */
  lemma {:induction false} DigitsValueBound(s: string)
    requires AllDigits(s)
    ensures DigitsValue(s) < Pow10(|s|)
  {
    if |s| > 0 {
      AllDigitsSplit(s, |s| - 1);
      DigitsValueBound(s[..|s| - 1]);
    }
  }

  function Zeros(n: nat): (s: string)
    ensures |s| == n && AllDigits(s)
    ensures forall i :: 0 <= i < n ==> s[i] == '0'
  {
    if n == 0 then "" else "0" + Zeros(n - 1)
  }

  /** The decimal digits of n without leading zeros, as Integer.toString prints them. */
  function NatDigits(n: nat): (s: string)
    ensures |s| > 0 && AllDigits(s) && DigitsValue(s) == n
    decreases n
  {
    if n < 10 then [DigitChar(n)]
    else
      var s := NatDigits(n / 10) + [DigitChar(n % 10)];
      assert s[..|s| - 1] == NatDigits(n / 10);
      s
  }

  /** Integer.toString and the %d conversion. */
  function FormatInt(x: int): (s: string)
    ensures |s| > 0 && (IsDigit(s[0]) || s[0] == '-')
    ensures forall i :: 0 <= i < |s| ==> IsDigit(s[i]) || s[i] == '-'
  {
    if x < 0 then "-" + NatDigits(-x) else NatDigits(x)
  }

  /**
   * Integer.parseInt: an optional sign, at least one digit, and a value in
   * the range of int.
   */
  function ParseInt(s: string): Result<Int32> {
    var negative := |s| > 0 && s[0] == '-';
    var body := if |s| > 0 && (s[0] == '-' || s[0] == '+') then s[1..] else s;
    if |body| == 0 || !AllDigits(body) then Err(NumberFormat(s))
    else
      var v: int := if negative then -(DigitsValue(body) as int) else DigitsValue(body);
      if INT_MIN <= v <= INT_MAX then Ok(v) else Err(NumberFormat(s))
  }

  lemma {:induction false} ZerosValue(n: nat)
    ensures DigitsValue(Zeros(n)) == 0
  {
    if n > 0 {
      var z := Zeros(n);
      assert z[..n - 1] == Zeros(n - 1);
      ZerosValue(n - 1);
    }
  }

  /** Leading zeros do not change the value of a digit run. */
  lemma {:induction false} LeadingZeros(n: nat, s: string)
    ensures DigitsValue(Zeros(n) + s) == DigitsValue(s)
    decreases |s|
  {
    if |s| == 0 {
      assert Zeros(n) + s == Zeros(n);
      ZerosValue(n);
    } else {
      var s' := s[..|s| - 1];
      assert (Zeros(n) + s)[..|Zeros(n) + s| - 1] == Zeros(n) + s';
      LeadingZeros(n, s');
    }
  }

  /** Integer.parseInt reads back what Integer.toString prints, for every int. */
  lemma {:induction false} ParseIntFormatInt(x: Int32)
    ensures ParseInt(FormatInt(x)) == Ok(x)
  {
    var s := FormatInt(x);
    var m: int := x;
    if m < 0 {
      assert s[1..] == NatDigits(-m);
    }
  }

  /** Integer.parseInt reads a run of digits without a sign as its value, when that fits an int. */
  lemma {:induction false} ParseIntDigits(s: string)
    requires |s| > 0 && AllDigits(s)
    ensures ParseInt(s).Ok? <==> DigitsValue(s) <= INT_MAX
    ensures ParseInt(s).Ok? ==> ParseInt(s).value == DigitsValue(s)
  {
    assert s[0] != '-' && s[0] != '+';
  }

  /** A single digit reads as its own value. */
  lemma {:induction false} ParseIntDigit(c: char)
    requires IsDigit(c)
    ensures ParseInt([c]) == Ok(DigitValue(c))
  {
    assert [c][..0] == [];
    assert AllDigits([c]) && DigitsValue([c]) == DigitValue(c) <= 9;
  }

  /** Integer.parseInt accepts leading zeros and an explicit plus sign. */
  lemma {:induction false} ParseIntLenient(n: nat, s: string)
    requires |s| > 0 && AllDigits(s)
    ensures ParseInt(Zeros(n) + s).Ok? == ParseInt(s).Ok?
    ensures ParseInt(s).Ok? ==> ParseInt(Zeros(n) + s) == ParseInt(s) && ParseInt("+" + s) == ParseInt(s)
  {
    LeadingZeros(n, s);
    AllDigitsConcat(Zeros(n), s);
    ParseIntDigits(s);
    ParseIntDigits(Zeros(n) + s);
    assert ("+" + s)[1..] == s;
  }

  function Abs(x: int): nat {
    if x < 0 then -x else x
  }

  /**
   * java.math.BigDecimal: the number unscaled * 10^-scale.  The scale is
   * part of the value, so 1.0 and 1.00 are different decimals.
   */
  datatype Decimal = Decimal(unscaled: int, scale: nat)

  /** The unsigned part of a decimal string: digits with at most one point, and at least one digit. */
  function ParseUnsignedDecimal(body: string): (r: Option<Decimal>)
    ensures r.Some? ==> r.value.unscaled >= 0
  {
    var dot := IndexOf(body, '.');
    var whole := if dot < 0 then body else body[..dot];
    var fraction := if dot < 0 then "" else body[dot + 1..];
    if |whole| + |fraction| == 0 || !AllDigits(whole) || !AllDigits(fraction) then None
    else
      Some(Decimal(DigitsValue(whole + fraction), |fraction|))
  }

  /**
   * new BigDecimal(String) without an exponent: an optional sign before the
   * unsigned part; the scale is the number of digits after the point.
   */
  function ParseDecimal(s: string): Result<Decimal> {
    var negative := |s| > 0 && s[0] == '-';
    var body := if |s| > 0 && (s[0] == '-' || s[0] == '+') then s[1..] else s;
    match ParseUnsignedDecimal(body)
    case None => Err(NumberFormat(s))
    case Some(m) => Ok(if negative then Decimal(-m.unscaled, m.scale) else m)
  }

  /** `digits` with a point `scale` places from the right, and a zero before the point when nothing else is. */
  function PointDigits(digits: string, scale: nat): string {
    if scale == 0 then digits
    else if |digits| > scale then digits[..|digits| - scale] + "." + digits[|digits| - scale..]
    else "0." + Zeros(scale - |digits|) + digits
  }

  lemma {:induction false} PointDigitsChars(digits: string, scale: nat)
    requires |digits| > 0 && AllDigits(digits)
    ensures var s := PointDigits(digits, scale);
      |s| > 0 && IsDigit(s[0]) && forall i :: 0 <= i < |s| ==> IsDigit(s[i]) || s[i] == '.'
  {
  }

  /** BigDecimal.toString in plain notation: a minus sign for negative values, then the digits with their point. */
  function FormatDecimal(d: Decimal): string {
    var digits := NatDigits(Abs(d.unscaled));
    var body := PointDigits(digits, d.scale);
    if d.unscaled < 0 then "-" + body else body
  }

  /** Digits, a point and digits read as the digits' value with the fraction's length as scale. */
  lemma {:induction false} UnsignedWithPoint(whole: string, fraction: string)
    requires AllDigits(whole) && AllDigits(fraction) && |whole| + |fraction| > 0
    ensures ParseUnsignedDecimal(whole + "." + fraction) == Some(Decimal(DigitsValue(whole + fraction), |fraction|))
  {
    var body := whole + "." + fraction;
    assert body[|whole|] == '.';
    IndexOfFirst(body, '.', |whole|);
    assert body[..|whole|] == whole;
    assert body[|whole| + 1..] == fraction;
  }

  lemma {:induction false} PointDigitsWhole(digits: string)
    requires |digits| > 0 && AllDigits(digits)
    ensures ParseUnsignedDecimal(PointDigits(digits, 0)) == Some(Decimal(DigitsValue(digits), 0))
  {
    IndexOfAbsent(digits, '.');
    assert digits + "" == digits;
  }

  lemma {:induction false} PointDigitsInside(digits: string, scale: nat)
    requires AllDigits(digits) && 0 < scale < |digits|
    ensures ParseUnsignedDecimal(PointDigits(digits, scale)) == Some(Decimal(DigitsValue(digits), scale))
  {
    var k := |digits| - scale;
    var whole, fraction := digits[..k], digits[k..];
    assert AllDigits(whole) && AllDigits(fraction) by {
      AllDigitsSplit(digits, k);
    }
    calc {
      ParseUnsignedDecimal(PointDigits(digits, scale));
      ParseUnsignedDecimal(whole + "." + fraction);
      { UnsignedWithPoint(whole, fraction); }
      Some(Decimal(DigitsValue(whole + fraction), |fraction|));
      { assert whole + fraction == digits; }
      Some(Decimal(DigitsValue(digits), scale));
    }
  }

  lemma {:induction false} PointDigitsBeforeShape(digits: string, scale: nat)
    requires 0 < scale && |digits| <= scale
    ensures PointDigits(digits, scale) == "0" + "." + (Zeros(scale - |digits|) + digits)
  {
  }

  lemma {:induction false} ZerosPrepend(n: nat, s: string)
    ensures "0" + (Zeros(n) + s) == Zeros(n + 1) + s
  {
    assert Zeros(n + 1) == "0" + Zeros(n);
  }

  /** "0." and a fraction reads as the value of "0" and the fraction, with the fraction's length as scale. */
  lemma {:induction false} ZeroPoint(fraction: string, v: nat)
    requires AllDigits(fraction) && DigitsValue("0" + fraction) == v
    ensures ParseUnsignedDecimal("0" + "." + fraction) == Some(Decimal(v, |fraction|))
  {
    assert AllDigits("0");
    UnsignedWithPoint("0", fraction);
  }

  lemma {:induction false} ZeroPrefixValue(n: nat, digits: string)
    ensures DigitsValue("0" + (Zeros(n) + digits)) == DigitsValue(digits)
  {
    ZerosPrepend(n, digits);
    LeadingZeros(n + 1, digits);
  }

  lemma {:induction false} PointDigitsBefore(digits: string, scale: nat)
    requires AllDigits(digits) && 0 < scale && |digits| <= scale
    ensures ParseUnsignedDecimal(PointDigits(digits, scale)) == Some(Decimal(DigitsValue(digits), scale))
  {
    var n := scale - |digits|;
    PointDigitsBeforeShape(digits, scale);
    AllDigitsConcat(Zeros(n), digits);
    ZeroPrefixValue(n, digits);
    ZeroPoint(Zeros(n) + digits, DigitsValue(digits));
  }

  /** The unsigned part of a printed decimal reads back as its magnitude and scale. */
  lemma {:induction false} PointDigitsRoundTrip(digits: string, scale: nat)
    requires |digits| > 0 && AllDigits(digits)
    ensures ParseUnsignedDecimal(PointDigits(digits, scale)) == Some(Decimal(DigitsValue(digits), scale))
    ensures IsDigit(PointDigits(digits, scale)[0])
  {
    if scale == 0 {
      PointDigitsWhole(digits);
    } else if |digits| > scale {
      PointDigitsInside(digits, scale);
    } else {
      PointDigitsBefore(digits, scale);
    }
  }

  /** Without a sign, a decimal string is read by its unsigned part. */
  lemma {:induction false} ParseDecimalUnsigned(body: string)
    requires |body| > 0 && IsDigit(body[0]) && ParseUnsignedDecimal(body).Some?
    ensures ParseDecimal(body) == Ok(ParseUnsignedDecimal(body).value)
  {
  }

  /** A leading minus sign negates what the unsigned part reads as. */
  lemma {:induction false} ParseDecimalNegative(body: string)
    requires |body| > 0 && IsDigit(body[0]) && ParseUnsignedDecimal(body).Some?
    ensures ParseDecimal("-" + body) == Ok(Decimal(-ParseUnsignedDecimal(body).value.unscaled, ParseUnsignedDecimal(body).value.scale))
  {
    assert ("-" + body)[1..] == body;
  }

  /** A printed decimal is a minus sign or a digit, followed by digits, minus signs and points. */
  lemma {:induction false} FormatDecimalChars(d: Decimal)
    ensures var s := FormatDecimal(d);
      |s| > 0 && (IsDigit(s[0]) || s[0] == '-')
      && forall i :: 0 <= i < |s| ==> IsDigit(s[i]) || s[i] == '-' || s[i] == '.'
  {
    PointDigitsChars(NatDigits(Abs(d.unscaled)), d.scale);
  }

  /** new BigDecimal(String) reads back exactly what BigDecimal.toString prints, scale included. */
  lemma {:induction false} ParseDecimalFormatDecimal(d: Decimal)
    ensures ParseDecimal(FormatDecimal(d)) == Ok(d)
  {
    var body := PointDigits(NatDigits(Abs(d.unscaled)), d.scale);
    UnsignedPrinted(d);
    if d.unscaled < 0 {
      assert FormatDecimal(d) == "-" + body;
      ParseDecimalNegative(body);
    } else {
      assert FormatDecimal(d) == body;
      ParseDecimalUnsigned(body);
    }
  }

  /** The printed digits and point of a decimal read back as its magnitude. */
  lemma {:induction false} UnsignedPrinted(d: Decimal)
    ensures var body := PointDigits(NatDigits(Abs(d.unscaled)), d.scale);
      |body| > 0 && IsDigit(body[0]) && ParseUnsignedDecimal(body) == Some(Decimal(Abs(d.unscaled), d.scale))
  {
    PointDigitsRoundTrip(NatDigits(Abs(d.unscaled)), d.scale);
  }
}
