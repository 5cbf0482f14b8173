/**
 * `Decimal(str)` and `str(Decimal)` for plain decimal notation: an optional sign,
 * digits with at most one decimal point, surrounding whitespace ignored.
 */
module Decimals {
  import opened Wrappers
  import opened Money
  import opened Text

  predicate AllDigits(s: string)
  {
    forall i :: 0 <= i < |s| ==> IsDigit(s[i])
  }

  /** The unsigned part of a decimal literal: `ddd`, `ddd.ddd`, `ddd.` or `.ddd`. */
  function ParseUnsigned(body: string): (r: Option<Dec>)
    ensures r.Some? ==> r.value.units >= 0
  {
    match LastIndexOf(body, '.')
    case None =>
      if AllDigits(body) && |body| > 0 then Some(Dec(DigitsToNat(body), 0)) else None
    case Some(i) =>
      var whole := body[..i];
      var frac := body[i + 1..];
      if AllDigits(whole) && AllDigits(frac) && |whole| + |frac| > 0 then
        Some(Dec(DigitsToNat(whole + frac), |frac|))
      else None
  }

  /**
   * `Decimal(s)` for plain literals; None for any other text, including forms Python
   * accepts: underscores between digits, exponents, `Infinity` and `NaN`.
   */
  function ParseDecimal(s: string): (r: Option<Dec>)
  {
    var t := Strip(s);
    if |t| > 0 && (t[0] == '-' || t[0] == '+') then
      match ParseUnsigned(t[1..])
      case None => None
      case Some(d) => Some(if t[0] == '-' then Dec(-d.units, d.exp) else d)
    else ParseUnsigned(t)
  }

  /** The unsigned part of `str(Decimal)`: integer digits and, when `e > 0`, a point and exactly `e` fraction digits. */
  function UnsignedText(magnitude: nat, e: nat): (s: string)
    ensures |s| > 0 && IsDigit(s[0]) && IsDigit(s[|s| - 1])
  {
    var digits := PadNat(magnitude, e + 1);
    var whole := digits[..|digits| - e];
    var frac := digits[|digits| - e..];
    whole + (if e > 0 then "." + frac else "")
  }

  /**
   * `str(Decimal)` in plain notation. Python switches to scientific notation when the
   * adjusted exponent is below -6; that form is not modelled.
   */
  function FormatDec(d: Dec): (s: string)
    ensures |s| > 0
  {
    (if d.units < 0 then "-" else "") + UnsignedText(if d.units < 0 then -d.units else d.units, d.exp)
  }

  lemma NoPointInDigits(s: string)
    requires AllDigits(s)
    ensures LastIndexOf(s, '.').None?
  {
  }

  /** In `whole.frac` with a digit-only `frac`, the last point is the one after `whole`. */
  lemma {:induction false} LastPointBeforeDigits(whole: string, frac: string)
    requires AllDigits(frac)
    ensures LastIndexOf(whole + "." + frac, '.') == Some(|whole|)
    decreases |frac|
  {
    var body := whole + "." + frac;
    if frac != [] {
      assert body[..|body| - 1] == whole + "." + frac[..|frac| - 1];
      LastPointBeforeDigits(whole, frac[..|frac| - 1]);
    }
  }

  /** Parsing `whole.frac` with digit-only parts. */
  lemma ParsePointed(whole: string, frac: string)
    requires AllDigits(whole) && AllDigits(frac) && |whole| > 0
    ensures ParseUnsigned(whole + "." + frac) == Some(Dec(DigitsToNat(whole + frac), |frac|))
  {
    var body := whole + "." + frac;
    LastPointBeforeDigits(whole, frac);
    assert body[..|whole|] == whole;
    assert body[|whole| + 1..] == frac;
  }

  /** Parsing the unsigned rendering of a Decimal gives it back. */
  lemma ParseUnsignedFormat(magnitude: nat, e: nat)
    ensures ParseUnsigned(UnsignedText(magnitude, e)) == Some(Dec(magnitude, e))
  {
    var digits := PadNat(magnitude, e + 1);
    var whole := digits[..|digits| - e];
    var frac := digits[|digits| - e..];
    PadNatRoundTrip(magnitude, e + 1);
    assert whole + frac == digits;
    if e > 0 {
      assert UnsignedText(magnitude, e) == whole + "." + frac;
      ParsePointed(whole, frac);
    } else {
      assert UnsignedText(magnitude, e) == digits;
      NoPointInDigits(digits);
    }
  }

  /** A literal that starts and ends with a digit is parsed without a sign. */
  lemma ParseUnsignedLiteral(body: string)
    requires |body| > 0 && IsDigit(body[0]) && IsDigit(body[|body| - 1])
    ensures ParseDecimal(body) == ParseUnsigned(body)
  {
    StripNoop(body);
  }

  /** A minus sign in front of such a literal negates it. */
  lemma ParseNegatedLiteral(body: string)
    requires |body| > 0 && IsDigit(body[0]) && IsDigit(body[|body| - 1])
    requires ParseUnsigned(body).Some?
    ensures ParseDecimal("-" + body) == Some(Dec(-ParseUnsigned(body).value.units, ParseUnsigned(body).value.exp))
  {
    var s := "-" + body;
    assert s[0] == '-' && s[|s| - 1] == body[|body| - 1];
    StripNoop(s);
    assert s[1..] == body;
  }

  /** `Decimal(str(d)) == d`: formatting then parsing is the identity. */
  lemma ParseFormatRoundTrip(d: Dec)
    ensures ParseDecimal(FormatDec(d)) == Some(d)
  {
    var magnitude := if d.units < 0 then -d.units else d.units;
    var body := UnsignedText(magnitude, d.exp);
    ParseUnsignedFormat(magnitude, d.exp);
    if d.units < 0 {
      assert FormatDec(d) == "-" + body;
      ParseNegatedLiteral(body);
    } else {
      assert FormatDec(d) == body;
      ParseUnsignedLiteral(body);
    }
  }

  /** `Decimal(str(n))` for a whole number. */
  lemma ParseNatString(n: nat)
    ensures ParseDecimal(NatToString(n)) == Some(Dec(n, 0))
  {
    var s := NatToString(n);
    NatToStringRoundTrip(n);
    NoPointInDigits(s);
    StripNoop(s);
  }
}
