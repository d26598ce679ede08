/** What the parser refuses: text after a value, numbers and strings that JSON does not have. */
module JsonStrictness {
  import opened JsonParser
  import opened JsonRoundTrip
  import opened JsonText
  import opened JsonTheorems
  import opened Numerals
  import opened Ordering

  predicate Blank(t: string) { forall i :: 0 <= i < |t| ==> t[i] in {' ', '\t', '\n', '\r'} }

  lemma {:induction false} SkipsBlank(t: string)
    ensures Skip(t) == "" <==> Blank(t)
  {
    if t != "" && IsSpace(t[0]) {
      SkipsBlank(t[1..]);
      if Blank(t) {
        forall i | 0 <= i < |t[1..]| ensures t[1..][i] in {' ', '\t', '\n', '\r'} { assert t[1..][i] == t[i + 1]; }
      }
      if Blank(t[1..]) {
        forall i | 0 < i < |t| ensures t[i] in {' ', '\t', '\n', '\r'} { assert t[1..][i - 1] == t[i]; }
      }
    } else if t != "" {
      assert t[0] !in {' ', '\t', '\n', '\r'};
    }
  }

  /** A printed value followed by anything that is not read into its last number is accepted, as that value, if and
      only if what follows is blank. */
  lemma {:induction false} NothingFollows(v: Value, rest: string)
    requires Keyed(v) && Printable(v) && EndsNumber(rest)
    ensures Parse(Text(v) + rest) == if Blank(rest) then Loaded(Plain(Canon(v))) else Rejected
  {
    SkipsBlank(rest);
    hide Leaves, Keyed, Ordered, Flat, Text, Canon, Plain, ParseValue, Blank, EndsNumber;
    TextIsFlatCanon(v);
    CanonLeaves(PrintableLeaf, v);
    CanonOrdered(v);
    OrderedIsKeyed(Canon(v));
    FlatParses(Canon(v), rest);
    FlatStarts(Canon(v));
    assert Skip(Flat(Canon(v)) + rest) == Flat(Canon(v)) + rest;
  }

  /** Whatever number the reader splits off a text is one of RFC 8259: its integer part has digits and no leading zero,
      and a fraction is made of digits. */
  lemma {:induction false} NumbersAreWellFormed(t: string)
    ensures
      var s := ScanNumber(t);
      s.Number? ==> WellFormed(Parts(s.negative, s.whole, s.fraction, s.exponent)) && (s.negative <==> t[0] == '-')
  {
    var u := if t != "" && t[0] == '-' then t[1..] else t;
    WholeIsWellFormed(u);
    var afterWhole := TakeWhole(u).1;
    FractionIsDigits(afterWhole);
  }

  lemma {:induction false} SpanIsDigits(t: string)
    ensures AllDigits(t[..Span(t)])
  {
    if t != "" && IsDigit(t[0]) {
      SpanIsDigits(t[1..]);
      assert t[..Span(t)] == [t[0]] + t[1..][..Span(t[1..])];
    }
  }

  lemma {:induction false} WholeIsWellFormed(t: string)
    ensures
      var whole := TakeWhole(t).0;
      AllDigits(whole) && (whole != "" && whole[0] == '0' ==> whole == "0")
  {
    SpanIsDigits(t);
  }

  lemma {:induction false} FractionIsDigits(t: string)
    ensures AllDigits(TakeFraction(t).0)
  {
    if t != "" { SpanIsDigits(t[1..]); }
  }

  predicate Raw(c: char) { c >= ' ' }

  /** `rest` is what is left of `t` after at least one character, none of them a control character. */
  predicate RawBefore(t: string, rest: string) {
    var used := |t| - |rest|;
    used > 0 && rest == t[used..] && forall i :: 0 <= i < used ==> Raw(t[i])
  }

  lemma {:induction false} RawThrough(t: string, u: string, v: string)
    requires RawBefore(t, u) && RawBefore(u, v)
    ensures RawBefore(t, v)
  {
    var (n, m) := (|t| - |u|, |u| - |v|);
    assert t[n..][m..] == t[n + m..];
    forall i | 0 <= i < n + m ensures Raw(t[i]) {
      if i >= n { assert u[i - n] == t[i]; }
    }
  }

  /** No control character stands unescaped in a string that is read. */
  lemma {:induction false} StringsAreRaw(t: string)
    requires ScanString(t).Got?
    ensures RawBefore(t, ScanString(t).rest)
    decreases |t|
  {
    if t[0] != '\"' {
      var first := if t[0] == '\\' then ScanEscape(t[1..]) else Got(t[0], t[1..]);
      FirstIsRaw(t);
      hide RawBefore, ScanEscape;
      StringsAreRaw(first.rest);
      RawThrough(t, first.rest, ScanString(first.rest).rest);
    }
  }

  lemma {:induction false} FirstIsRaw(t: string)
    requires t != "" && t[0] >= ' '
    requires t[0] == '\\' ==> ScanEscape(t[1..]).Got?
    ensures RawBefore(t, if t[0] == '\\' then ScanEscape(t[1..]).rest else t[1..])
  {
    assert RawBefore(t, t[1..]);
    if t[0] == '\\' {
      EscapesAreRaw(t[1..]);
      hide RawBefore, ScanEscape;
      RawThrough(t, t[1..], ScanEscape(t[1..]).rest);
    }
  }

  lemma {:induction false} EscapesAreRaw(t: string)
    requires ScanEscape(t).Got?
    ensures RawBefore(t, ScanEscape(t).rest)
  {
    if t[0] == 'u' {
      UnitIsRaw(t[1..5]);
      forall i | 1 <= i < 5 ensures Raw(t[i]) { assert t[1..5][i - 1] == t[i]; }
      if |t| - |ScanEscape(t).rest| == 11 {
        UnitIsRaw(t[7..11]);
        forall i | 7 <= i < 11 ensures Raw(t[i]) { assert t[7..11][i - 7] == t[i]; }
      }
    }
  }

  lemma {:induction false} UnitIsRaw(t: string)
    requires |t| == 4 && Unit(t) >= 0
    ensures forall i :: 0 <= i < 4 ==> Raw(t[i])
  {
    assert HexValue(t[0]) >= 0 && HexValue(t[1]) >= 0 && HexValue(t[2]) >= 0 && HexValue(t[3]) >= 0;
  }
}
