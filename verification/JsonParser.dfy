/** The unique-key JSON parser: `json.loads` with decimal numbers and a hook that rejects repeated keys. */
module JsonParser {
  import opened JsonText
  import opened Numerals
  import opened Ordering

  datatype Parsed<+T> = Got(value: T, rest: string) | Bad

  predicate IsSpace(c: char) { c == ' ' || c == '\t' || c == '\n' || c == '\r' }

  function Skip(t: string): (r: string)
    ensures |r| <= |t|
  {
    if t != "" && IsSpace(t[0]) then Skip(t[1..]) else t
  }

  // --- Strings ----------------------------------------------------------------------------------

  function HexValue(c: char): int {
    if '0' <= c <= '9' then c as int - '0' as int
    else if 'a' <= c <= 'f' then c as int - 'a' as int + 10
    else if 'A' <= c <= 'F' then c as int - 'A' as int + 10
    else -1
  }

  /** The code unit that four hexadecimal digits name, or -1. */
  function Unit(t: string): (u: int)
    ensures u < 0x10000
  {
    if |t| < 4 then -1
    else
      var (a, b, c, d) := (HexValue(t[0]), HexValue(t[1]), HexValue(t[2]), HexValue(t[3]));
      if a < 0 || b < 0 || c < 0 || d < 0 then -1 else ((a * 16 + b) * 16 + c) * 16 + d
  }

  /** One escape, after its backslash. A pair of surrogates is one character; half a pair is refused. */
  function ScanEscape(t: string): (r: Parsed<char>)
    ensures r.Got? ==> |r.rest| < |t|
  {
    if t == "" then Bad
    else if t[0] == '\"' || t[0] == '\\' || t[0] == '/' then Got(t[0], t[1..])
    else if t[0] == 'b' then Got(8 as char, t[1..])
    else if t[0] == 'f' then Got(12 as char, t[1..])
    else if t[0] == 'n' then Got('\n', t[1..])
    else if t[0] == 'r' then Got('\r', t[1..])
    else if t[0] == 't' then Got('\t', t[1..])
    else if t[0] == 'u' && |t| >= 5 && Unit(t[1..5]) >= 0 then
      var high := Unit(t[1..5]);
      if !(0xD800 <= high < 0xE000) then Got(high as char, t[5..])
      else if high < 0xDC00 && |t| >= 11 && t[5] == '\\' && t[6] == 'u' && 0xDC00 <= Unit(t[7..11]) < 0xE000 then
        Got((0x10000 + (high - 0xD800) * 0x400 + (Unit(t[7..11]) - 0xDC00)) as char, t[11..])
      else Bad
    else Bad
  }

  /** The rest of a string, after its opening quote. */
  function ScanString(t: string): (r: Parsed<string>)
    ensures r.Got? ==> |r.rest| < |t|
    decreases |t|
  {
    if t == "" || t[0] < ' ' then Bad
    else if t[0] == '\"' then Got("", t[1..])
    else
      var first := if t[0] == '\\' then ScanEscape(t[1..]) else Got(t[0], t[1..]);
      if first.Bad? then Bad
      else
        var tail := ScanString(first.rest);
        if tail.Bad? then Bad else Got([first.value] + tail.value, tail.rest)
  }

  // --- Values -----------------------------------------------------------------------------------

  predicate Starts(t: string, prefix: string) { |prefix| <= |t| && t[..|prefix|] == prefix }

  function Literal(t: string, name: string, v: Value): (r: Parsed<Value>)
    requires name != ""
    ensures r.Got? ==> |r.rest| < |t|
  {
    if Starts(t, name) then Got(v, t[|name|..]) else Bad
  }

  /** An integer when the text has neither fraction nor exponent, a `Decimal` otherwise. */
  function NumberValue(s: Scan): Value
    requires s.Number?
  {
    if s.fraction == "" && s.exponent.NoExponent?
    then Int(if s.negative then 0 - NatOf(s.whole) else NatOf(s.whole))
    else Dec(DecimalOf(s.negative, s.whole, s.fraction, s.exponent))
  }

  function ParseNumber(t: string): (r: Parsed<Value>)
    ensures r.Got? ==> |r.rest| < |t|
  {
    var s := ScanNumber(t);
    if s.NoNumber? then Bad else Got(NumberValue(s), s.rest)
  }

  function ParseWord(t: string): (r: Parsed<Value>)
    ensures r.Got? ==> |r.rest| < |t|
  {
    if t == "" then Bad
    else if t[0] == 'n' then Literal(t, "null", Null)
    else if t[0] == 't' then Literal(t, "true", Bool(true))
    else if t[0] == 'f' then Literal(t, "false", Bool(false))
    else if t[0] == 'N' then Literal(t, "NaN", Foreign)
    else if t[0] == 'I' then Literal(t, "Infinity", Foreign)
    else Literal(t, "-Infinity", Foreign)
  }

  function ParseValue(t: string): (r: Parsed<Value>)
    ensures r.Got? ==> |r.rest| < |t|
    decreases |t|, 2
  {
    if t == "" then Bad
    else if t[0] == '\"' then
      var s := ScanString(t[1..]);
      if s.Bad? then Bad else Got(Str(s.value), s.rest)
    else if t[0] == '{' then ParseObject(Skip(t[1..]))
    else if t[0] == '[' then ParseArray(Skip(t[1..]))
    else if IsDigit(t[0]) || (t[0] == '-' && !(|t| > 1 && t[1] == 'I')) then ParseNumber(t)
    else ParseWord(t)
  }

  function ParseArray(t: string): (r: Parsed<Value>)
    ensures r.Got? ==> |r.rest| < |t|
    decreases |t|, 4
  {
    if t != "" && t[0] == ']' then Got(Arr([]), t[1..])
    else
      var items := ParseItems(t);
      if items.Bad? then Bad else Got(Arr(items.value), items.rest)
  }

  function ParseItems(t: string): (r: Parsed<seq<Value>>)
    ensures r.Got? ==> |r.rest| < |t|
    decreases |t|, 3
  {
    var first := ParseValue(t);
    if first.Bad? then Bad
    else
      var u := Skip(first.rest);
      if u == "" then Bad
      else if u[0] == ']' then Got([first.value], u[1..])
      else if u[0] != ',' then Bad
      else
        var tail := ParseItems(Skip(u[1..]));
        if tail.Bad? then Bad else Got([first.value] + tail.value, tail.rest)
  }

  /** An object whose keys repeat is refused once all its pairs have been read. */
  function ParseObject(t: string): (r: Parsed<Value>)
    ensures r.Got? ==> |r.rest| < |t|
    decreases |t|, 4
  {
    if t != "" && t[0] == '}' then Got(Obj([]), t[1..])
    else
      var fields := ParseFields(t);
      if fields.Bad? || !UniqueKeys(fields.value) then Bad else Got(Obj(fields.value), fields.rest)
  }

  function ParseFields(t: string): (r: Parsed<seq<Field<Value>>>)
    ensures r.Got? ==> |r.rest| < |t|
    decreases |t|, 3
  {
    if t == "" || t[0] != '\"' then Bad
    else
      var key := ScanString(t[1..]);
      if key.Bad? then Bad
      else
        var u := Skip(key.rest);
        if u == "" || u[0] != ':' then Bad
        else
          var item := ParseValue(Skip(u[1..]));
          if item.Bad? then Bad
          else
            var x := Skip(item.rest);
            var field := Field(key.value, item.value);
            if x == "" then Bad
            else if x[0] == '}' then Got([field], x[1..])
            else if x[0] != ',' then Bad
            else
              var tail := ParseFields(Skip(x[1..]));
              if tail.Bad? then Bad else Got([field] + tail.value, tail.rest)
  }

  datatype Document = Loaded(value: Value) | Rejected

  /** `_parse_request`: one value, and nothing but spacing around it. */
  function Parse(t: string): Document {
    var r := ParseValue(Skip(t));
    if r.Got? && Skip(r.rest) == "" then Loaded(r.value) else Rejected
  }
}
