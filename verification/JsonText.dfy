/** The hand-written canonical JSON printer of the model gateway, and the shared canonical serializer. */
module JsonText {
  import opened Numerals
  import opened Ordering

  /** A Python value on its way to the printer. `Foreign` stands for anything it refuses: a float, a
      decimal that is not finite, or an object of another type. Fields keep their insertion order. */
  datatype Value =
    | Null
    | Bool(b: bool)
    | Int(n: int)
    | Dec(d: Decimal)
    | Str(s: string)
    | Arr(items: seq<Value>)
    | Obj(fields: seq<Field<Value>>)
    | Foreign

  datatype Printed = Ok(text: string) | ValueError

  // --- Strings ----------------------------------------------------------------------------------

  function HexChar(n: nat): char
    requires n < 16
  {
    if n < 10 then ('0' as int + n) as char else ('a' as int + n - 10) as char
  }

  /** What `json.dumps(..., ensure_ascii=False)` writes for one character. */
  function Escaped(c: char): (r: string)
    ensures r != ""
  {
    if c == '\"' then "\\\""
    else if c == '\\' then "\\\\"
    else if c == '\n' then "\\n"
    else if c == '\r' then "\\r"
    else if c == '\t' then "\\t"
    else if c == 8 as char then "\\b"
    else if c == 12 as char then "\\f"
    else if c < ' ' then "\\u00" + [HexChar(c as int / 16), HexChar(c as int % 16)]
    else [c]
  }

  function EscapedAll(s: string): string {
    if s == "" then "" else Escaped(s[0]) + EscapedAll(s[1..])
  }

  function Quote(s: string): string { "\"" + EscapedAll(s) + "\"" }

  // --- The printer --------------------------------------------------------------------------------

  /** Python's `",".join(parts)`. */
  function Join(parts: seq<string>): string {
    if parts == [] then "" else if |parts| == 1 then parts[0] else parts[0] + "," + Join(parts[1..])
  }

  function Member(f: Field<string>): string { Quote(f.key) + ":" + f.value }

  function Members(fields: seq<Field<string>>): seq<string> {
    if fields == [] then [] else [Member(fields[0])] + Members(fields[1..])
  }

  /** Every part of the value that is not a list or an object satisfies `p`. */
  predicate Leaves(p: Value -> bool, v: Value) {
    match v
    case Arr(items) => forall i :: 0 <= i < |items| ==> Leaves(p, items[i])
    case Obj(fields) => forall i :: 0 <= i < |fields| ==> Leaves(p, fields[i].value)
    case _ => p(v)
  }

  predicate Printable(v: Value) { Leaves(PrintableLeaf, v) }

  predicate PrintableLeaf(v: Value) { !v.Foreign? }

  /** The text of a printable value: object keys in code-point order, no insignificant spacing. */
  function Text(v: Value): string {
    match v
    case Null => "null"
    case Bool(b) => if b then "true" else "false"
    case Int(n) => IntText(n)
    case Dec(d) => DecimalText(d)
    case Str(s) => Quote(s)
    case Arr(items) => "[" + Join(Texts(items)) + "]"
    case Obj(fields) => "{" + Join(Members(Sort(FieldTexts(fields)))) + "}"
    case Foreign => ""
  }

  function Texts(items: seq<Value>): seq<string> {
    if items == [] then [] else [Text(items[0])] + Texts(items[1..])
  }

  function FieldTexts(fields: seq<Field<Value>>): seq<Field<string>> {
    if fields == [] then [] else [Field(fields[0].key, Text(fields[0].value))] + FieldTexts(fields[1..])
  }

  function RequestJson(v: Value): Printed {
    if Printable(v) then Ok(Text(v)) else ValueError
  }

  /** The canonical serializer takes integers only: every decimal and float is refused. */
  predicate Normal(v: Value) { Leaves(NormalLeaf, v) }

  predicate NormalLeaf(v: Value) { !v.Foreign? && !v.Dec? }

  function CanonicalJson(v: Value): Printed {
    if Normal(v) then Ok(Text(v)) else ValueError
  }

  // --- Python dictionaries ------------------------------------------------------------------------

  /** Every object in the value is a dictionary: no key repeats. */
  predicate Keyed(v: Value) {
    match v
    case Arr(items) => forall i :: 0 <= i < |items| ==> Keyed(items[i])
    case Obj(fields) => UniqueKeys(fields) && forall i :: 0 <= i < |fields| ==> Keyed(fields[i].value)
    case _ => true
  }

  /** Equality that compares dictionaries by key, whatever their insertion orders, and leaves by their type and
      representation. It is finer than Python's, to which True is 1 and the decimal 5 is the integer 5. */
  ghost predicate Same(v: Value, w: Value) {
    match (v, w)
    case (Arr(a), Arr(b)) => |a| == |b| && forall i :: 0 <= i < |a| ==> Same(a[i], b[i])
    case (Obj(a), Obj(b)) => |a| == |b| && forall i :: 0 <= i < |a| ==> HasSame(a[i], b)
    case _ => v == w
  }

  ghost predicate HasSame(f: Field<Value>, b: seq<Field<Value>>) {
    exists j :: 0 <= j < |b| && f.key == b[j].key && Same(f.value, b[j].value)
  }

  /** The same value with every object's fields in key order. */
  function Canon(v: Value): Value {
    match v
    case Arr(items) => Arr(CanonItems(items))
    case Obj(fields) => Obj(Sort(CanonFields(fields)))
    case _ => v
  }

  function CanonItems(items: seq<Value>): (r: seq<Value>)
    ensures |r| == |items| && forall i :: 0 <= i < |items| ==> r[i] == Canon(items[i])
  {
    if items == [] then [] else [Canon(items[0])] + CanonItems(items[1..])
  }

  function CanonFields(fields: seq<Field<Value>>): (r: seq<Field<Value>>)
    ensures |r| == |fields|
    ensures forall i :: 0 <= i < |fields| ==> r[i] == Field(fields[i].key, Canon(fields[i].value))
  {
    if fields == [] then [] else [Field(fields[0].key, Canon(fields[0].value))] + CanonFields(fields[1..])
  }

  // --- Printing in stored order --------------------------------------------------------------------

  /** The text of a value whose fields are written in the order in which they are stored. */
  function Flat(v: Value): string {
    match v
    case Arr(items) => "[" + Join(Flats(items)) + "]"
    case Obj(fields) => "{" + Join(Members(FlatFields(fields))) + "}"
    case _ => Text(v)
  }

  function Flats(items: seq<Value>): seq<string> {
    if items == [] then [] else [Flat(items[0])] + Flats(items[1..])
  }

  function FlatFields(fields: seq<Field<Value>>): seq<Field<string>> {
    if fields == [] then [] else [Field(fields[0].key, Flat(fields[0].value))] + FlatFields(fields[1..])
  }

  lemma {:induction false} FlatFieldsIsMap(fields: seq<Field<Value>>)
    ensures FlatFields(fields) == MapValues(Flat, fields)
  {
    if fields != [] { FlatFieldsIsMap(fields[1..]); }
  }

  /** Printing sorts, and nothing else: it writes the canonical form in stored order. */
  lemma {:induction false} TextIsFlatCanon(v: Value)
    ensures Text(v) == Flat(Canon(v))
  {
    match v
    case Arr(items) => TextsAreFlat(items);
    case Obj(fields) =>
      FieldTextsAreFlat(fields);
      FlatFieldsIsMap(CanonFields(fields));
      FlatFieldsIsMap(Sort(CanonFields(fields)));
      SortMapsValues(Flat, CanonFields(fields));
    case _ =>
  }

  lemma {:induction false} TextsAreFlat(items: seq<Value>)
    ensures Texts(items) == Flats(CanonItems(items))
  {
    if items != [] {
      TextIsFlatCanon(items[0]);
      TextsAreFlat(items[1..]);
      assert CanonItems(items)[1..] == CanonItems(items[1..]);
    }
  }

  lemma {:induction false} FieldTextsAreFlat(fields: seq<Field<Value>>)
    ensures FieldTexts(fields) == FlatFields(CanonFields(fields))
  {
    if fields != [] {
      TextIsFlatCanon(fields[0].value);
      FieldTextsAreFlat(fields[1..]);
      assert CanonFields(fields)[1..] == CanonFields(fields[1..]);
    }
  }

  // --- How a text looks -----------------------------------------------------------------------------------------

  predicate LowerHex(c: char) { '0' <= c <= '9' || 'a' <= c <= 'f' }

  function HexDigit(c: char): int
    requires LowerHex(c)
  {
    if c <= '9' then c as int - '0' as int else c as int - 'a' as int + 10
  }

  /** Only the quotation mark, the backslash and the control characters are escaped: seven of them by a letter or
      themselves, the other control characters by four lower-case hexadecimal digits. */
  lemma {:induction false} EscapedExactly(c: char)
    ensures
      var r := Escaped(c);
      && (r == [c] <==> c >= ' ' && c != '\"' && c != '\\')
      && (c == '\"' || c == '\\' ==> r == ['\\', c])
      && (c == '\n' ==> r == "\\n") && (c == '\r' ==> r == "\\r") && (c == '\t' ==> r == "\\t")
      && (c as int == 8 ==> r == "\\b") && (c as int == 12 ==> r == "\\f")
      && (c < ' ' && c as int !in {8, 9, 10, 12, 13} ==>
            && |r| == 6 && r[..4] == "\\u00" && LowerHex(r[4]) && LowerHex(r[5])
            && HexDigit(r[4]) * 16 + HexDigit(r[5]) == c as int)
  {
    if c < ' ' && c as int !in {8, 9, 10, 12, 13} { HexShape(c); }
  }

  lemma {:induction false} HexShape(c: char)
    requires c < ' '
    ensures
      var r := "\\u00" + [HexChar(c as int / 16), HexChar(c as int % 16)];
      && |r| == 6 && r[..4] == "\\u00" && LowerHex(r[4]) && LowerHex(r[5])
      && HexDigit(r[4]) * 16 + HexDigit(r[5]) == c as int
  {}

  /** Lists and objects have no spacing: items are parted by commas, keys from their values by colons, and the words
      are the three of JSON. */
  lemma {:induction false} TextsLook(v: Value, w: Value, k: string, l: string)
    requires Below(k, l)
    ensures Text(Null) == "null" && Text(Bool(true)) == "true" && Text(Bool(false)) == "false"
    ensures Text(Arr([])) == "[]" && Text(Obj([])) == "{}"
    ensures Text(Arr([v, w])) == "[" + (Text(v) + "," + Text(w)) + "]"
    ensures Text(Obj([Field(l, w), Field(k, v)])) ==
      "{" + (Quote(k) + ":" + Text(v) + "," + (Quote(l) + ":" + Text(w))) + "}"
  {
    assert [v, w][1..] == [w] && [w][1..] == [];
    assert Texts([w]) == [Text(w)] && Texts([v, w]) == [Text(v), Text(w)];
    JoinTwo(Text(v), Text(w));
    TwoFields(Field(l, w), Field(k, v));
  }

  lemma {:induction false} JoinTwo(x: string, y: string)
    ensures Join([x, y]) == x + "," + y
  {
    assert [x, y][1..] == [y] && Join([y]) == y;
  }

  lemma {:induction false} SortTwo(a: Field<string>, b: Field<string>)
    requires Below(b.key, a.key)
    ensures Sort([a, b]) == [b, a]
  {
    var one := [b];
    assert [a, b][1..] == one && one[1..] == [];
    assert Sort(one[1..]) == [] && Insert(b, one[1..]) == one;
    assert Sort(one) == one;
    assert Insert(a, one) == [b] + Insert(a, one[1..]) == [b] + [a];
  }

  lemma {:induction false} FieldTextsTwo(f: Field<Value>, g: Field<Value>)
    ensures FieldTexts([f, g]) == [Field(f.key, Text(f.value)), Field(g.key, Text(g.value))]
  {
    var two, one := [f, g], [g];
    assert two[1..] == one && one[1..] == [];
    assert FieldTexts(one) == [Field(g.key, Text(g.value))];
  }

  lemma {:induction false} MembersTwo(a: Field<string>, b: Field<string>)
    ensures Members([a, b]) == [Member(a), Member(b)]
  {
    var two, one := [a, b], [b];
    assert two[1..] == one && one[1..] == [];
    assert Members(one) == [Member(b)];
  }

  lemma {:induction false} TwoFields(f: Field<Value>, g: Field<Value>)
    requires Below(g.key, f.key)
    ensures Text(Obj([f, g])) ==
      "{" + (Quote(g.key) + ":" + Text(g.value) + "," + (Quote(f.key) + ":" + Text(f.value))) + "}"
  {
    var (a, b) := (Field(f.key, Text(f.value)), Field(g.key, Text(g.value)));
    FieldTextsTwo(f, g);
    SortTwo(a, b);
    MembersTwo(b, a);
    JoinTwo(Member(b), Member(a));
  }
}
