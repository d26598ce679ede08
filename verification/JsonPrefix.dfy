/** What the parser has accepted it accepts under any continuation, so a printed object that is cut short is
    never accepted. */
module JsonPrefix {
  import opened JsonParser
  import opened JsonRoundTrip
  import opened JsonText
  import opened JsonTheorems
  import opened Numerals
  import opened Ordering

  lemma {:induction false} SkipExtends(t: string, x: string)
    requires Skip(t) != ""
    ensures Skip(t + x) == Skip(t) + x
  {
    if t != "" && IsSpace(t[0]) {
      SkipExtends(t[1..], x);
      assert (t + x)[1..] == t[1..] + x;
    }
  }

  // --- Strings ----------------------------------------------------------------------------------------------

  lemma EscapeExtends(t: string, x: string)
    requires ScanEscape(t).Got?
    ensures ScanEscape(t + x) == Got(ScanEscape(t).value, ScanEscape(t).rest + x)
  {
    hide Unit;
    assert (t + x)[1..] == t[1..] + x;
    if |t| >= 5 {
      assert (t + x)[1..5] == t[1..5] && (t + x)[5..] == t[5..] + x;
      if |t| >= 11 { assert (t + x)[7..11] == t[7..11] && (t + x)[11..] == t[11..] + x; }
    }
  }

  lemma {:induction false} StringExtends(t: string, x: string)
    requires ScanString(t).Got?
    ensures ScanString(t + x) == Got(ScanString(t).value, ScanString(t).rest + x)
    decreases |t|
  {
    assert (t + x)[1..] == t[1..] + x;
    if t[0] != '\"' {
      if t[0] == '\\' {
        EscapeExtends(t[1..], x);
        StringExtends(ScanEscape(t[1..]).rest, x);
      } else {
        StringExtends(t[1..], x);
      }
    }
  }

  // --- Numbers ------------------------------------------------------------------------------------------------

  lemma {:induction false} SpanExtends(t: string, x: string)
    requires Span(t) < |t|
    ensures Span(t + x) == Span(t)
  {
    if IsDigit(t[0]) {
      SpanExtends(t[1..], x);
      assert (t + x)[1..] == t[1..] + x;
    }
  }

  lemma DigitsExtend(t: string, x: string)
    requires TakeDigits(t).1 != ""
    ensures TakeDigits(t + x) == (TakeDigits(t).0, TakeDigits(t).1 + x)
  {
    SpanExtends(t, x);
    var n := Span(t);
    assert (t + x)[..n] == t[..n] && (t + x)[n..] == t[n..] + x;
  }

  lemma WholeExtends(t: string, x: string)
    requires TakeWhole(t).1 != ""
    ensures TakeWhole(t + x) == (TakeWhole(t).0, TakeWhole(t).1 + x)
  {
    if t != "" && t[0] == '0' { assert (t + x)[1..] == t[1..] + x; } else { DigitsExtend(t, x); }
  }

  lemma FractionExtends(t: string, x: string)
    requires TakeFraction(t).1 != "" && TakeFraction(t).1[0] != '.'
    ensures TakeFraction(t + x) == (TakeFraction(t).0, TakeFraction(t).1 + x)
  {
    if t[0] == '.' {
      assert (t + x)[1..] == t[1..] + x;
      DigitsExtend(t[1..], x);
    }
  }

  lemma ExponentExtends(t: string, x: string)
    requires TakeExponent(t).1 != "" && TakeExponent(t).1[0] != 'e' && TakeExponent(t).1[0] != 'E'
    ensures TakeExponent(t + x) == (TakeExponent(t).0, TakeExponent(t).1 + x)
  {
    if t[0] == 'e' || t[0] == 'E' {
      assert (t + x)[1..] == t[1..] + x;
      if |t| > 1 && (t[1] == '+' || t[1] == '-') {
        assert (t + x)[2..] == t[2..] + x;
        DigitsExtend(t[2..], x);
      } else {
        DigitsExtend(t[1..], x);
      }
    }
  }

  lemma UnsignedExtends(negative: bool, t: string, x: string)
    requires ScanUnsigned(negative, t).Number?
    requires ScanUnsigned(negative, t).rest != "" && EndsNumber(ScanUnsigned(negative, t).rest)
    ensures
      var s := ScanUnsigned(negative, t);
      ScanUnsigned(negative, t + x) == s.(rest := s.rest + x)
  {
    var (whole, afterWhole) := TakeWhole(t);
    var (fraction, afterFraction) := TakeFraction(afterWhole);
    ExponentExtends(afterFraction, x);
    FractionExtends(afterWhole, x);
    WholeExtends(t, x);
  }

  lemma NumberExtends(t: string, x: string)
    requires ParseNumber(t).Got? && ParseNumber(t).rest != "" && EndsNumber(ParseNumber(t).rest)
    ensures ParseNumber(t + x) == Got(ParseNumber(t).value, ParseNumber(t).rest + x)
  {
    if t[0] == '-' {
      assert (t + x)[1..] == t[1..] + x;
      UnsignedExtends(true, t[1..], x);
    } else {
      UnsignedExtends(false, t, x);
    }
  }

  // --- Values -------------------------------------------------------------------------------------------------

  lemma LiteralExtends(t: string, name: string, v: Value, x: string)
    requires name != "" && Literal(t, name, v).Got?
    ensures Literal(t + x, name, v) == Got(v, Literal(t, name, v).rest + x)
  {
    assert (t + x)[..|name|] == t[..|name|] && (t + x)[|name|..] == t[|name|..] + x;
  }

  lemma WordExtends(t: string, x: string)
    requires ParseWord(t).Got?
    ensures ParseWord(t + x) == Got(ParseWord(t).value, ParseWord(t).rest + x)
  {
    if t[0] == 'n' { LiteralExtends(t, "null", Null, x); }
    else if t[0] == 't' { LiteralExtends(t, "true", Bool(true), x); }
    else if t[0] == 'f' { LiteralExtends(t, "false", Bool(false), x); }
    else if t[0] == 'N' { LiteralExtends(t, "NaN", Foreign, x); }
    else if t[0] == 'I' { LiteralExtends(t, "Infinity", Foreign, x); }
    else { LiteralExtends(t, "-Infinity", Foreign, x); }
  }

  /** What may follow an item: spacing, a comma or a closing bracket. */
  predicate Delimits(rest: string) {
    Skip(rest) != "" && (Skip(rest)[0] == ',' || Skip(rest)[0] == ']' || Skip(rest)[0] == '}')
  }

  lemma DelimitsEndsNumber(rest: string)
    requires Delimits(rest)
    ensures rest != "" && EndsNumber(rest)
  {}

  lemma {:induction false} ValueExtends(t: string, x: string)
    requires ParseValue(t).Got? && (t[0] == '{' || Delimits(ParseValue(t).rest))
    ensures ParseValue(t + x) == Got(ParseValue(t).value, ParseValue(t).rest + x)
    decreases |t|, 2
  {
    assert (t + x)[1..] == t[1..] + x;
    if t[0] == '\"' {
      StringExtends(t[1..], x);
    } else if t[0] == '{' {
      SkipExtends(t[1..], x);
      ObjectExtends(Skip(t[1..]), x);
    } else if t[0] == '[' {
      SkipExtends(t[1..], x);
      ArrayExtends(Skip(t[1..]), x);
    } else if IsDigit(t[0]) || (t[0] == '-' && !(|t| > 1 && t[1] == 'I')) {
      DelimitsEndsNumber(ParseValue(t).rest);
      NumberExtends(t, x);
    } else {
      WordExtends(t, x);
    }
  }

  lemma {:induction false} ArrayExtends(t: string, x: string)
    requires ParseArray(t).Got?
    ensures ParseArray(t + x) == Got(ParseArray(t).value, ParseArray(t).rest + x)
    decreases |t|, 4
  {
    if t != "" && t[0] == ']' { assert (t + x)[1..] == t[1..] + x; } else { ItemsExtend(t, x); }
  }

  lemma {:induction false} ItemsExtend(t: string, x: string)
    requires ParseItems(t).Got?
    ensures ParseItems(t + x) == Got(ParseItems(t).value, ParseItems(t).rest + x)
    decreases |t|, 3
  {
    var first := ParseValue(t);
    var u := Skip(first.rest);
    ValueExtends(t, x);
    SkipExtends(first.rest, x);
    assert (u + x)[1..] == u[1..] + x;
    if u[0] == ',' {
      SkipExtends(u[1..], x);
      ItemsExtend(Skip(u[1..]), x);
    }
  }

  lemma {:induction false} ObjectExtends(t: string, x: string)
    requires ParseObject(t).Got?
    ensures ParseObject(t + x) == Got(ParseObject(t).value, ParseObject(t).rest + x)
    decreases |t|, 4
  {
    if t != "" && t[0] == '}' { assert (t + x)[1..] == t[1..] + x; } else { FieldsExtend(t, x); }
  }

  lemma {:induction false} FieldsExtend(t: string, x: string)
    requires ParseFields(t).Got?
    ensures ParseFields(t + x) == Got(ParseFields(t).value, ParseFields(t).rest + x)
    decreases |t|, 3
  {
    hide ParseValue, ScanString, UniqueKeys;
    assert (t + x)[1..] == t[1..] + x;
    var key := ScanString(t[1..]);
    StringExtends(t[1..], x);
    var u := Skip(key.rest);
    SkipExtends(key.rest, x);
    assert (u + x)[1..] == u[1..] + x;
    SkipExtends(u[1..], x);
    FieldRestExtends(Skip(u[1..]), x);
    var after := Skip(ParseValue(Skip(u[1..])).rest);
    if after[0] == ',' {
      SkipExtends(after[1..], x);
      FieldsExtend(Skip(after[1..]), x);
    }
  }

  lemma {:induction false} FieldRestExtends(t: string, x: string)
    requires ParseValue(t).Got? && Delimits(ParseValue(t).rest)
    ensures ParseValue(t + x) == Got(ParseValue(t).value, ParseValue(t).rest + x)
    ensures Skip(ParseValue(t).rest + x) == Skip(ParseValue(t).rest) + x
    ensures (Skip(ParseValue(t).rest) + x)[1..] == Skip(ParseValue(t).rest)[1..] + x
    decreases |t|, 3
  {
    ValueExtends(t, x);
    SkipExtends(ParseValue(t).rest, x);
  }

  lemma TextParsesWhole(v: Value)
    requires Keyed(v) && Printable(v)
    ensures ParseValue(Text(v)) == Got(Plain(Canon(v)), "")
  {
    TextIsFlatCanon(v);
    CanonLeaves(PrintableLeaf, v);
    CanonOrdered(v);
    OrderedIsKeyed(Canon(v));
    FlatParses(Canon(v), "");
    assert Flat(Canon(v)) + "" == Flat(Canon(v));
  }

  /** A printed object that is cut short anywhere is refused. */
  lemma CutObjectIsRejected(fields: seq<Field<Value>>, n: nat)
    requires Keyed(Obj(fields)) && Printable(Obj(fields)) && n < |Text(Obj(fields))|
    ensures Parse(Text(Obj(fields))[..n]) == Rejected
  {
    var text := Text(Obj(fields));
    var head, tail := text[..n], text[n..];
    assert tail != "";
    assert head + tail == text && text[0] == '{';
    if n > 0 {
      assert head[0] == '{' && Skip(head) == head;
      if ParseValue(head).Got? {
        ValueExtends(head, tail);
        TextParsesWhole(Obj(fields));
      }
    }
  }
}
