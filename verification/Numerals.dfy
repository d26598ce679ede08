/** Decimal digits, and the number texts of RFC 8259 section 6 that the request printer writes and the parser reads. */
module Numerals {

  predicate IsDigit(c: char) { '0' <= c <= '9' }

  ghost predicate AllDigits(s: string) { forall i :: 0 <= i < |s| ==> IsDigit(s[i]) }

  function DigitChar(d: nat): (c: char)
    requires d < 10
    ensures IsDigit(c)
  {
    ('0' as int + d) as char
  }

  function DigitValue(c: char): nat {
    if IsDigit(c) then c as int - '0' as int else 0
  }

  function Digits(n: nat): (s: string)
    ensures |s| >= 1 && AllDigits(s)
  {
    if n < 10 then [DigitChar(n)] else Digits(n / 10) + [DigitChar(n % 10)]
  }

  function NatOf(s: string): nat {
    if s == "" then 0 else NatOf(s[..|s| - 1]) * 10 + DigitValue(s[|s| - 1])
  }

  lemma {:induction false} DigitsRoundTrip(n: nat)
    ensures NatOf(Digits(n)) == n
  {
    if n >= 10 {
      DigitsRoundTrip(n / 10);
      assert Digits(n)[..|Digits(n)| - 1] == Digits(n / 10);
    } else {
      assert Digits(n)[..0] == "";
    }
  }

  lemma {:induction false} NoLeadingZero(n: nat)
    ensures Digits(n)[0] == '0' <==> n == 0
    ensures n == 0 ==> Digits(n) == "0"
  {
    if n >= 10 { NoLeadingZero(n / 10); }
  }

  function Zeros(n: nat): (s: string)
    ensures |s| == n && AllDigits(s)
  {
    if n == 0 then "" else Zeros(n - 1) + "0"
  }

  lemma {:induction false} LeadingZeros(n: nat, s: string)
    ensures NatOf(Zeros(n) + s) == NatOf(s)
  {
    var t := Zeros(n) + s;
    if s != "" {
      LeadingZeros(n, s[..|s| - 1]);
      assert t[..|t| - 1] == Zeros(n) + s[..|s| - 1];
    } else if n > 0 {
      LeadingZeros(n - 1, "");
      assert Zeros(n - 1) + "" == Zeros(n - 1);
      assert t[..|t| - 1] == Zeros(n - 1);
    }
  }

  // --- Number texts -----------------------------------------------------------------------------

  /** A number as its text has it: an absent fraction is "", an absent exponent is None. */
  datatype Parts = Parts(negative: bool, whole: string, fraction: string, exponent: Exponent)
  datatype Exponent = NoExponent | TenTo(power: int)

  ghost predicate WellFormed(p: Parts) {
    && p.whole != "" && AllDigits(p.whole) && AllDigits(p.fraction)
    && (p.whole[0] == '0' ==> p.whole == "0")
  }

  function Signed(negative: bool, s: string): string { if negative then "-" + s else s }

  function IntText(n: int): string { Signed(n < 0, Digits(if n < 0 then -n else n)) }

  /** Python's `%+d`. */
  function SignedIntText(n: int): string {
    if n < 0 then "-" + Digits(-n) else "+" + Digits(n)
  }

  function FractionText(fraction: string): string { if fraction == "" then "" else "." + fraction }

  function ExponentText(e: Exponent): string {
    match e case NoExponent => "" case TenTo(power) => "E" + SignedIntText(power)
  }

  function PartsText(p: Parts): string {
    Signed(p.negative,
      p.whole + FractionText(p.fraction) + ExponentText(p.exponent))
  }

  // --- Reading --------------------------------------------------------------------------------

  /** The length of the leading run of digits. */
  function Span(t: string): (n: nat)
    ensures n <= |t|
  {
    if t == "" || !IsDigit(t[0]) then 0 else 1 + Span(t[1..])
  }

  lemma {:induction false} SpanOfDigits(d: string, rest: string)
    requires AllDigits(d) && (rest == "" || !IsDigit(rest[0]))
    ensures Span(d + rest) == |d|
  {
    if d != "" {
      SpanOfDigits(d[1..], rest);
      assert (d + rest)[1..] == d[1..] + rest;
    } else {
      assert d + rest == rest;
    }
  }

  /** Split the leading digits off a text. */
  function TakeDigits(t: string): (r: (string, string))
    ensures |r.0| + |r.1| == |t|
  {
    (t[..Span(t)], t[Span(t)..])
  }

  lemma TakeDigitsOf(d: string, rest: string)
    requires AllDigits(d) && (rest == "" || !IsDigit(rest[0]))
    ensures TakeDigits(d + rest) == (d, rest)
  {
    SpanOfDigits(d, rest);
    assert (d + rest)[..|d|] == d && (d + rest)[|d|..] == rest;
  }

  /** The integer group: a lone zero, or digits that do not begin with zero. */
  function TakeWhole(t: string): (r: (string, string))
    ensures |r.0| + |r.1| == |t|
  {
    if t != "" && t[0] == '0' then ("0", t[1..]) else TakeDigits(t)
  }

  /** The optional `.digits` group; a dot that no digit follows is not a fraction. */
  function TakeFraction(t: string): (r: (string, string))
    ensures |r.1| <= |t|
  {
    if t != "" && t[0] == '.' && TakeDigits(t[1..]).0 != "" then TakeDigits(t[1..]) else ("", t)
  }

  /** The optional exponent group; an `e` that no digit follows is not an exponent. */
  function TakeExponent(t: string): (r: (Exponent, string))
    ensures |r.1| <= |t|
  {
    if t != "" && (t[0] == 'e' || t[0] == 'E') then
      var signed := |t| > 1 && (t[1] == '+' || t[1] == '-');
      var split := TakeDigits(if signed then t[2..] else t[1..]);
      if split.0 == "" then (NoExponent, t)
      else (TenTo(if signed && t[1] == '-' then 0 - NatOf(split.0) else NatOf(split.0)), split.1)
    else (NoExponent, t)
  }

  datatype Scan = NoNumber | Number(negative: bool, whole: string, fraction: string, exponent: Exponent, rest: string)

  /** Split a number off the front of a text, longest groups first. */
  function ScanNumber(t: string): (r: Scan)
    ensures r.Number? ==> |r.rest| < |t|
  {
    if t != "" && t[0] == '-' then ScanUnsigned(true, t[1..]) else ScanUnsigned(false, t)
  }

  function ScanUnsigned(negative: bool, t: string): (r: Scan)
    ensures r.Number? ==> |r.rest| < |t|
  {
    var (whole, afterWhole) := TakeWhole(t);
    if whole == "" then NoNumber
    else
      var (fraction, afterFraction) := TakeFraction(afterWhole);
      var (exponent, rest) := TakeExponent(afterFraction);
      Number(negative, whole, fraction, exponent, rest)
  }

  /** What may follow a printed number without being read into it. */
  predicate EndsNumber(rest: string) {
    rest == "" || !(IsDigit(rest[0]) || rest[0] == '.' || rest[0] == 'e' || rest[0] == 'E')
  }

  lemma TakeExponentOf(e: Exponent, rest: string)
    requires EndsNumber(rest)
    ensures TakeExponent(ExponentText(e) + rest) == (e, rest)
  {
    hide Digits, NatOf, TakeDigits;
    match e
    case NoExponent =>
      assert "" + rest == rest;
    case TenTo(p) =>
      var size := if p < 0 then -p else p;
      var t := "E" + SignedIntText(p) + rest;
      assert t[2..] == Digits(size) + rest;
      TakeDigitsOf(Digits(size), rest);
      DigitsRoundTrip(size);
  }

  lemma TakeFractionOf(fraction: string, rest: string)
    requires AllDigits(fraction) && (rest == "" || !(IsDigit(rest[0]) || rest[0] == '.'))
    ensures TakeFraction(FractionText(fraction) + rest) == (fraction, rest)
  {
    if fraction == "" {
      assert "" + rest == rest;
    } else {
      assert ("." + fraction + rest)[1..] == fraction + rest;
      TakeDigitsOf(fraction, rest);
    }
  }

  lemma TakeWholeOf(whole: string, rest: string)
    requires whole != "" && AllDigits(whole) && (whole[0] == '0' ==> whole == "0")
    requires rest == "" || !IsDigit(rest[0])
    ensures TakeWhole(whole + rest) == (whole, rest)
  {
    TakeDigitsOf(whole, rest);
    if whole[0] == '0' { assert ("0" + rest)[1..] == rest; }
  }

  lemma ScanParts(p: Parts, rest: string)
    requires WellFormed(p) && EndsNumber(rest)
    ensures ScanUnsigned(p.negative, p.whole + (FractionText(p.fraction) + (ExponentText(p.exponent) + rest)))
         == Number(p.negative, p.whole, p.fraction, p.exponent, rest)
  {
    var x := ExponentText(p.exponent) + rest;
    assert x == "" || x[0] == 'E' || x == rest;
    var v := FractionText(p.fraction) + x;
    assert v == "" || v[0] == '.' || v == x;
    TakeExponentOf(p.exponent, rest);
    TakeFractionOf(p.fraction, x);
    TakeWholeOf(p.whole, v);
  }

  /** Reading a printed number gives its parts back and stops exactly where it ends. */
  lemma ScanRoundTrip(p: Parts, rest: string)
    requires WellFormed(p) && EndsNumber(rest)
    ensures ScanNumber(PartsText(p) + rest) == Number(p.negative, p.whole, p.fraction, p.exponent, rest)
  {
    ScanParts(p, rest);
    SignedRegroup(p.negative, p.whole, FractionText(p.fraction), ExponentText(p.exponent), rest);
  }

  lemma SignedRegroup(negative: bool, a: string, b: string, c: string, d: string)
    requires a != "" && IsDigit(a[0])
    ensures
      var t := Signed(negative, a + b + c) + d;
      && t != "" && (t[0] == '-' <==> negative)
      && (if negative then t[1..] else t) == a + (b + (c + d))
  {
    assert a + b + c + d == a + (b + (c + d));
    if negative { assert ("-" + (a + b + c) + d)[1..] == a + b + c + d; }
  }

  // --- Python's Decimal -------------------------------------------------------------------------

  /** A finite `Decimal`: (-1)^negative * coefficient * 10^exponent. */
  datatype Decimal = Decimal(negative: bool, coefficient: nat, exponent: int)

  /** `Decimal.__str__`: plain notation for exponents up to zero unless the value is tiny, scientific otherwise. */
  function DecimalParts(d: Decimal): Parts {
    var text := Digits(d.coefficient);
    var leftDigits := d.exponent + |text|;
    var plain := d.exponent <= 0 && leftDigits > -6;
    var dotPlace := if plain then leftDigits else 1;
    var exponent := if plain then NoExponent else TenTo(leftDigits - dotPlace);
    if dotPlace <= 0 then Parts(d.negative, "0", Zeros(-dotPlace) + text, exponent)
    else if dotPlace >= |text| then Parts(d.negative, text + Zeros(dotPlace - |text|), "", exponent)
    else Parts(d.negative, text[..dotPlace], text[dotPlace..], exponent)
  }

  function DecimalText(d: Decimal): string { PartsText(DecimalParts(d)) }

  /** `Decimal(text)` for the groups of a scanned number. */
  function DecimalOf(negative: bool, whole: string, fraction: string, exponent: Exponent): Decimal {
    var power := match exponent case NoExponent => 0 case TenTo(p) => p;
    Decimal(negative, NatOf(whole + fraction), power - |fraction|)
  }

  /** A printed decimal is a well-formed number text that denotes the same decimal; it has neither a
      fraction nor an exponent, so that it reads as an integer, exactly when its exponent is zero. */
  lemma DecimalRoundTrip(d: Decimal)
    ensures
      var p := DecimalParts(d);
      && WellFormed(p)
      && DecimalOf(p.negative, p.whole, p.fraction, p.exponent) == d
      && ((p.fraction == "" && p.exponent == NoExponent) <==> d.exponent == 0)
  {
    var text := Digits(d.coefficient);
    NoLeadingZero(d.coefficient);
    DigitsRoundTrip(d.coefficient);
    var plain := d.exponent <= 0 && d.exponent + |text| > -6;
    var dotPlace := if plain then d.exponent + |text| else 1;
    if dotPlace <= 0 {
      SmallDecimal(d, text, -dotPlace);
    } else {
      SplitDecimal(d, text, dotPlace, plain);
    }
  }

  lemma OneZero()
    ensures Zeros(1) == "0" && Zeros(0) == ""
  {
    assert Zeros(0) + "0" == "0";
  }

  lemma SmallDecimal(d: Decimal, text: string, zeros: nat)
    requires text == Digits(d.coefficient) && NatOf(text) == d.coefficient
    requires d.exponent + zeros + |text| == 0 && zeros < 6
    ensures DecimalParts(d) == Parts(d.negative, "0", Zeros(zeros) + text, NoExponent)
    ensures DecimalOf(d.negative, "0", Zeros(zeros) + text, NoExponent) == d
  {
    hide NatOf, Digits;
    OneZero();
    hide Zeros;
    LeadingZeros(zeros, text);
    LeadingZeros(1, Zeros(zeros) + text);
  }

  lemma SplitDecimal(d: Decimal, text: string, dotPlace: nat, plain: bool)
    requires text == Digits(d.coefficient) && NatOf(text) == d.coefficient
    requires text[0] == '0' ==> text == "0"
    requires plain == (d.exponent <= 0 && d.exponent + |text| > -6)
    requires dotPlace == if plain then d.exponent + |text| else 1
    requires dotPlace > 0
    ensures
      var p := Parts(d.negative, text[..dotPlace], text[dotPlace..],
                     if plain then NoExponent else TenTo(d.exponent + |text| - dotPlace));
      && DecimalParts(d) == p
      && WellFormed(p)
      && DecimalOf(p.negative, p.whole, p.fraction, p.exponent) == d
  {
    hide NatOf, Digits;
    assert text[..dotPlace] + text[dotPlace..] == text;
    assert Zeros(0) == "";
    if dotPlace == |text| { assert text[..dotPlace] == text == text + Zeros(0); }
  }

  /** The text of a decimal, digit by digit: its digits alone when the exponent is zero; with a point inside them, or
      after a zero and at most five more, when the exponent is negative and the number no smaller than a millionth;
      in scientific notation otherwise. */
  lemma {:induction false} DecimalTextExactly(d: Decimal)
    ensures
      var (sign, digits) := (if d.negative then "-" else "", Digits(d.coefficient));
      var left := d.exponent + |digits|;
      && (d.exponent == 0 ==> DecimalText(d) == sign + digits)
      && (d.exponent < 0 < left ==> DecimalText(d) == sign + (digits[..left] + "." + digits[left..]))
      && (d.exponent < 0 && -5 <= left <= 0 ==> DecimalText(d) == sign + ("0." + Zeros(-left) + digits))
      && (d.exponent > 0 || left < -5 ==>
            var mantissa := if |digits| == 1 then digits else digits[..1] + "." + digits[1..];
            DecimalText(d) == sign + (mantissa + "E" + SignedIntText(left - 1)))
  {
    var digits := Digits(d.coefficient);
    var left := d.exponent + |digits|;
    hide Digits, DecimalText, Zeros;
    if d.exponent == 0 {
      WholeText(d, digits);
    } else if d.exponent < 0 && left > 0 {
      PointedText(d, digits, left);
    } else if d.exponent < 0 && left >= -5 {
      SmallText(d, digits, left);
    } else {
      ScientificText(d, digits, left);
    }
  }

  lemma {:induction false} WholeText(d: Decimal, digits: string)
    requires digits == Digits(d.coefficient) && d.exponent == 0
    ensures DecimalText(d) == (if d.negative then "-" else "") + digits
  {
    hide Digits;
    assert Zeros(0) == "" && digits + "" == digits;
  }

  lemma {:induction false} PointedText(d: Decimal, digits: string, left: int)
    requires digits == Digits(d.coefficient) && left == d.exponent + |digits| && d.exponent < 0 < left
    ensures DecimalText(d) == (if d.negative then "-" else "") + (digits[..left] + "." + digits[left..])
  {
    hide Digits;
    assert digits[..left] + ("." + digits[left..]) + "" == digits[..left] + "." + digits[left..];
  }

  lemma {:induction false} SmallText(d: Decimal, digits: string, left: int)
    requires digits == Digits(d.coefficient) && left == d.exponent + |digits| && d.exponent < 0 && -5 <= left <= 0
    ensures DecimalText(d) == (if d.negative then "-" else "") + ("0." + Zeros(-left) + digits)
  {
    hide Digits, Zeros;
    assert "0" + ("." + (Zeros(-left) + digits)) + "" == "0." + Zeros(-left) + digits;
  }

  lemma {:induction false} ScientificText(d: Decimal, digits: string, left: int)
    requires digits == Digits(d.coefficient) && left == d.exponent + |digits|
    requires d.exponent > 0 || (d.exponent < 0 && left < -5)
    ensures
      var mantissa := if |digits| == 1 then digits else digits[..1] + "." + digits[1..];
      DecimalText(d) == (if d.negative then "-" else "") + (mantissa + "E" + SignedIntText(left - 1))
  {
    hide Digits, SignedIntText;
    var power := SignedIntText(left - 1);
    assert Zeros(0) == "" && digits + "" == digits;
    if |digits| == 1 {
      assert digits + "" + ("E" + power) == digits + "E" + power;
    } else {
      assert digits[..1] + ("." + digits[1..]) + ("E" + power) == digits[..1] + "." + digits[1..] + "E" + power;
    }
  }
}
