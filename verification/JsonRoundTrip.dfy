/** Printing then parsing: what comes back, when it is the same value, and when printing it again gives the same
    text. */
module JsonRoundTrip {
  import opened JsonParser
  import opened JsonText
  import opened Numerals
  import opened Ordering

  /** A decimal with exponent zero prints without point or exponent, so it reads back as an integer. */
  function Plain(v: Value): Value {
    match v
    case Dec(d) => if d.exponent == 0 then Int(if d.negative then 0 - d.coefficient else d.coefficient) else v
    case Arr(items) => Arr(PlainItems(items))
    case Obj(fields) => Obj(PlainFields(fields))
    case _ => v
  }

  function PlainItems(items: seq<Value>): (r: seq<Value>)
    ensures |r| == |items|
  {
    if items == [] then [] else [Plain(items[0])] + PlainItems(items[1..])
  }

  function PlainFields(fields: seq<Field<Value>>): (r: seq<Field<Value>>)
    ensures |r| == |fields| && forall i :: 0 <= i < |r| ==> r[i].key == fields[i].key
  {
    if fields == [] then [] else [Field(fields[0].key, Plain(fields[0].value))] + PlainFields(fields[1..])
  }

  // --- Strings ----------------------------------------------------------------------------------

  lemma EscapeScans(c: char, rest: string)
    ensures Escaped(c)[0] == '\\' ==> ScanEscape(Escaped(c)[1..] + rest) == Got(c, rest)
    ensures Escaped(c)[0] != '\\' ==> Escaped(c) == [c] && c >= ' ' && c != '\"'
  {
    if Escaped(c)[0] == '\\' {
      var t := Escaped(c)[1..] + rest;
      if |Escaped(c)| == 2 {
        assert t[1..] == rest;
      } else {
        assert t[1..5] == "00" + [HexChar(c as int / 16), HexChar(c as int % 16)];
        assert t[5..] == rest;
      }
    }
  }

  lemma ScanFirst(t: string, c: char, u: string, s: string, rest: string)
    requires t != "" && t[0] >= ' ' && t[0] != '\"'
    requires if t[0] == '\\' then ScanEscape(t[1..]) == Got(c, u) else t[0] == c && t[1..] == u
    requires ScanString(u) == Got(s, rest)
    ensures ScanString(t) == Got([c] + s, rest)
  {
    hide ScanEscape;
  }

  /** One escaped character before a text that scans. */
  lemma EscapeStep(c: char, u: string, s: string, rest: string)
    requires ScanString(u) == Got(s, rest)
    ensures ScanString(Escaped(c) + u) == Got([c] + s, rest)
  {
    hide Escaped, ScanEscape, ScanString;
    EscapeScans(c, u);
    assert (Escaped(c) + u)[1..] == Escaped(c)[1..] + u;
    ScanFirst(Escaped(c) + u, c, u, s, rest);
  }

  lemma {:induction false} StringScans(s: string, rest: string)
    ensures ScanString(EscapedAll(s) + "\"" + rest) == Got(s, rest)
  {
    hide Escaped, ScanEscape;
    var t := EscapedAll(s) + "\"" + rest;
    if s == "" {
      assert t[1..] == rest;
    } else {
      var u := EscapedAll(s[1..]) + "\"" + rest;
      assert t == Escaped(s[0]) + u;
      assert s == [s[0]] + s[1..];
      hide ScanString;
      StringScans(s[1..], rest);
      EscapeStep(s[0], u, s[1..], rest);
    }
  }

  lemma QuoteScans(s: string, rest: string)
    ensures
      var t := Quote(s) + rest;
      t[0] == '\"' && ScanString(t[1..]) == Got(s, rest)
  {
    StringScans(s, rest);
    assert (Quote(s) + rest)[1..] == EscapedAll(s) + "\"" + rest;
  }

  // --- Numbers ----------------------------------------------------------------------------------

  lemma NumberDispatch(t: string)
    requires t != "" && (IsDigit(t[0]) || (t[0] == '-' && |t| > 1 && IsDigit(t[1])))
    ensures ParseValue(t) == ParseNumber(t)
  {
    hide ParseNumber, ParseObject, ParseArray, ParseWord, ScanString, Skip;
  }

  lemma NumberParses(p: Parts, rest: string)
    requires WellFormed(p) && EndsNumber(rest)
    ensures ParseValue(PartsText(p) + rest) ==
        Got(NumberValue(Number(p.negative, p.whole, p.fraction, p.exponent, rest)), rest)
    ensures PartsText(p) != "" && (PartsText(p)[0] == '-' || IsDigit(PartsText(p)[0]))
  {
    hide ParseValue, NumberValue, FractionText, ExponentText, Digits;
    SignedRegroup(p.negative, p.whole, FractionText(p.fraction), ExponentText(p.exponent), rest);
    NumberDispatch(PartsText(p) + rest);
    ScanRoundTrip(p, rest);
  }

  lemma IntParses(n: int, rest: string)
    requires EndsNumber(rest)
    ensures ParseValue(IntText(n) + rest) == Got(Int(n), rest)
    ensures IntText(n) != "" && (IntText(n)[0] == '-' || IsDigit(IntText(n)[0]))
  {
    hide ParseValue, Digits, NatOf, DecimalOf;
    var size := if n < 0 then -n else n;
    var p := Parts(n < 0, Digits(size), "", NoExponent);
    NoLeadingZero(size);
    DigitsRoundTrip(size);
    assert Digits(size) + "" + "" == Digits(size);
    NumberParses(p, rest);
  }

  lemma DecimalParses(d: Decimal, rest: string)
    requires EndsNumber(rest)
    ensures ParseValue(DecimalText(d) + rest) == Got(Plain(Dec(d)), rest)
    ensures DecimalText(d) != "" && (DecimalText(d)[0] == '-' || IsDigit(DecimalText(d)[0]))
  {
    DecimalRoundTrip(d);
    DecimalPartsParse(d, DecimalParts(d), rest);
  }

  lemma DecimalPartsParse(d: Decimal, p: Parts, rest: string)
    requires EndsNumber(rest) && WellFormed(p) && DecimalOf(p.negative, p.whole, p.fraction, p.exponent) == d
    requires (p.fraction == "" && p.exponent == NoExponent) <==> d.exponent == 0
    ensures ParseValue(PartsText(p) + rest) == Got(Plain(Dec(d)), rest)
    ensures PartsText(p) != "" && (PartsText(p)[0] == '-' || IsDigit(PartsText(p)[0]))
  {
    NumberParses(p, rest);
    assert p.whole + "" == p.whole;
  }

  // --- Values -----------------------------------------------------------------------------------

  predicate Starter(c: char) {
    c == '-' || IsDigit(c) || c == '\"' || c == '{' || c == '[' || c == 'n' || c == 't' || c == 'f'
  }

  lemma FlatStarts(v: Value)
    requires Printable(v)
    ensures Flat(v) != "" && Starter(Flat(v)[0])
  {
    match v
    case Int(n) => IntParses(n, "");
    case Dec(d) => DecimalParses(d, "");
    case _ =>
  }

  lemma LiteralParses(v: Value, rest: string)
    requires v.Null? || v.Bool?
    ensures ParseValue(Flat(v) + rest) == Got(v, rest)
  {
    var t := Flat(v) + rest;
    match v
    case Null => assert t[..4] == "null" && t[4..] == rest;
    case Bool(b) =>
      if b { assert t[..4] == "true" && t[4..] == rest; } else { assert t[..5] == "false" && t[5..] == rest; }
  }

  lemma StringParses(s: string, rest: string)
    ensures ParseValue(Quote(s) + rest) == Got(Str(s), rest)
  {
    QuoteScans(s, rest);
  }

  lemma {:induction false} FlatParses(v: Value, rest: string)
    requires Printable(v) && Keyed(v) && EndsNumber(rest)
    ensures ParseValue(Flat(v) + rest) == Got(Plain(v), rest)
    decreases v, 2
  {
    match v
    case Null => LiteralParses(v, rest);
    case Bool(b) => LiteralParses(v, rest);
    case Int(n) => IntParses(n, rest);
    case Dec(d) => DecimalParses(d, rest);
    case Str(s) => StringParses(s, rest);
    case Arr(items) =>
      if items != [] { ItemsParse(v, items, rest); }
      ArrayParses(items, rest);
    case Obj(fields) =>
      if fields != [] { FieldsParse(v, fields, rest); }
      ObjectParses(fields, rest);
  }

  lemma JoinSplit(parts: seq<string>, tail: string)
    requires |parts| > 1
    ensures Join(parts) + tail == parts[0] + ("," + (Join(parts[1..]) + tail))
  {}

  lemma JoinStart(parts: seq<string>, tail: string)
    requires parts != [] && parts[0] != ""
    ensures Join(parts) + tail != "" && (Join(parts) + tail)[0] == parts[0][0]
  {}

  lemma Enclosed(open: char, s: string, close: char, rest: string)
    ensures [open] + s + [close] + rest == [open] + (s + ([close] + rest))
  {}

  lemma BracketDispatch(open: char, u: string)
    requires (open == '[' || open == '{') && Skip(u) == u
    ensures ParseValue([open] + u) == if open == '[' then ParseArray(u) else ParseObject(u)
  {
    assert ([open] + u)[1..] == u;
  }

  lemma EmptyArrayParses(rest: string)
    ensures ParseValue(Flat(Arr([])) + rest) == Got(Plain(Arr([])), rest)
  {
    hide ParseValue;
    Enclosed('[', "", ']', rest);
    assert "" + ("]" + rest) == "]" + rest && ("]" + rest)[1..] == rest;
    BracketDispatch('[', "]" + rest);
  }

  lemma ArrayParses(items: seq<Value>, rest: string)
    requires items != [] ==> Printable(items[0])
    requires items != [] ==> ParseItems(Join(Flats(items)) + ("]" + rest)) == Got(PlainItems(items), rest)
    ensures ParseValue(Flat(Arr(items)) + rest) == Got(Plain(Arr(items)), rest)
  {
    hide ParseValue, ParseItems, Join;
    if items == [] {
      EmptyArrayParses(rest);
    } else {
      var u := Join(Flats(items)) + ("]" + rest);
      Enclosed('[', Join(Flats(items)), ']', rest);
      FlatStarts(items[0]);
      JoinStart(Flats(items), "]" + rest);
      BracketDispatch('[', u);
    }
  }

  lemma ObjectParses(fields: seq<Field<Value>>, rest: string)
    requires UniqueKeys(fields)
    requires fields != [] ==>
      ParseFields(Join(Members(FlatFields(fields))) + ("}" + rest)) == Got(PlainFields(fields), rest)
    ensures ParseValue(Flat(Obj(fields)) + rest) == Got(Plain(Obj(fields)), rest)
  {
    hide ParseValue, ParseFields, EscapedAll;
    var parts := Members(FlatFields(fields));
    var u := Join(parts) + ("}" + rest);
    Enclosed('{', Join(parts), '}', rest);
    if fields == [] {
      assert u[1..] == rest;
    } else {
      hide Join;
      assert parts[0][0] == '\"';
      JoinStart(parts, "}" + rest);
    }
    BracketDispatch('{', u);
  }

  lemma LastItem(t: string, v: Value, rest: string)
    requires ParseValue(t) == Got(v, "]" + rest)
    ensures ParseItems(t) == Got([v], rest)
  {
    assert ("]" + rest)[1..] == rest;
  }

  lemma NextItem(t: string, v: Value, after: string, tail: seq<Value>, rest: string)
    requires ParseValue(t) == Got(v, "," + after)
    requires Skip(after) == after && ParseItems(after) == Got(tail, rest)
    ensures ParseItems(t) == Got([v] + tail, rest)
  {
    assert ("," + after)[1..] == after;
  }

  lemma {:induction false} ItemsParse(context: Value, items: seq<Value>, rest: string)
    requires items != [] && forall i :: 0 <= i < |items| ==>
        items[i] < context && Printable(items[i]) && Keyed(items[i])
    ensures ParseItems(Join(Flats(items)) + ("]" + rest)) == Got(PlainItems(items), rest)
    decreases context, 1, |items|
  {
    hide ParseValue, ParseItems, Plain, Flat;
    if |items| == 1 {
      FlatParses(items[0], "]" + rest);
      LastItem(Flat(items[0]) + ("]" + rest), Plain(items[0]), rest);
      assert PlainItems(items) == [Plain(items[0])];
      assert Flats(items) == [Flat(items[0])];
    } else {
      var parts := Flats(items);
      assert parts[1..] == Flats(items[1..]);
      var after := Join(parts[1..]) + ("]" + rest);
      FlatParses(items[0], "," + after);
      ItemsParse(context, items[1..], rest);
      FlatStarts(items[1]);
      JoinStart(parts[1..], "]" + rest);
      JoinSplit(parts, "]" + rest);
      NextItem(parts[0] + ("," + after), Plain(items[0]), after, PlainItems(items[1..]), rest);
    }
  }

  lemma MemberRegroup(key: string, item: string, tail: string)
    ensures Member(Field(key, item)) + tail == Quote(key) + (":" + (item + tail))
  {}

  lemma DropFirst(c: char, s: string)
    ensures ([c] + s)[0] == c && ([c] + s)[1..] == s
  {}

  /** The text `t` begins with the quoted `key` and a colon, and then `u`. */
  ghost predicate KeyThen(t: string, key: string, u: string) {
    t != "" && t[0] == '\"' && ScanString(t[1..]) == Got(key, [':'] + u) && Skip(u) == u
  }

  lemma MemberReads(key: string, item: string, tail: string)
    requires item != "" && Starter(item[0])
    ensures KeyThen(Member(Field(key, item)) + tail, key, item + tail)
  {
    QuoteScans(key, [':'] + (item + tail));
    MemberRegroup(key, item, tail);
  }

  lemma LastField(t: string, key: string, u: string, v: Value, rest: string)
    requires KeyThen(t, key, u) && ParseValue(u) == Got(v, ['}'] + rest)
    ensures ParseFields(t) == Got([Field(key, v)], rest)
  {
    DropFirst(':', u);
    DropFirst('}', rest);
  }

  lemma NextField(t: string, key: string, u: string, v: Value, after: string, tail: seq<Field<Value>>, rest: string)
    requires KeyThen(t, key, u) && ParseValue(u) == Got(v, [','] + after)
    requires Skip(after) == after && ParseFields(after) == Got(tail, rest)
    ensures ParseFields(t) == Got([Field(key, v)] + tail, rest)
  {
    DropFirst(':', u);
    DropFirst(',', after);
  }

  lemma {:induction false} FieldsParse(context: Value, fields: seq<Field<Value>>, rest: string)
    requires fields != []
    requires forall i :: 0 <= i < |fields| ==>
      fields[i].value < context && Printable(fields[i].value) && Keyed(fields[i].value)
    ensures ParseFields(Join(Members(FlatFields(fields))) + ("}" + rest)) == Got(PlainFields(fields), rest)
    decreases context, 1, |fields|
  {
    hide ParseValue, ParseFields, Plain, Flat, ScanString;
    var key, v := fields[0].key, fields[0].value;
    var parts := Members(FlatFields(fields));
    FlatStarts(v);
    if |fields| == 1 {
      FlatParses(v, "}" + rest);
      MemberReads(key, Flat(v), "}" + rest);
      assert fields[1..] == [] && FlatFields(fields[1..]) == [] && FlatFields(fields)[1..] == [];
      LastField(parts[0] + ("}" + rest), key, Flat(v) + ("}" + rest), Plain(v), rest);
      assert PlainFields(fields) == [Field(key, Plain(v))];
    } else {
      var after := Join(parts[1..]) + ("}" + rest);
      assert parts[1..] == Members(FlatFields(fields[1..]));
      FlatParses(v, "," + after);
      FieldsParse(context, fields[1..], rest);
      MembersStart(fields[1..], rest);
      JoinSplit(parts, "}" + rest);
      MemberReads(key, Flat(v), "," + after);
      NextField(parts[0] + ("," + after), key, Flat(v) + ("," + after), Plain(v), after, PlainFields(fields[1..]),
          rest);
    }
  }

  lemma MembersStart(fields: seq<Field<Value>>, rest: string)
    requires fields != []
    ensures
      var after := Join(Members(FlatFields(fields))) + ("}" + rest);
      after != "" && Skip(after) == after
  {
    var parts := Members(FlatFields(fields));
    assert parts[0] == Member(Field(fields[0].key, Flat(fields[0].value)));
    assert parts[0][0] == '\"';
    JoinStart(parts, "}" + rest);
  }
}
