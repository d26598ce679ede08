/** What the request printer, its parser and the canonical serializer guarantee together. */
module JsonTheorems {
  import opened JsonParser
  import opened JsonRoundTrip
  import opened JsonText
  import opened Numerals
  import opened Ordering
  import opened Sequences

  // --- The canonical form ---------------------------------------------------------------------------

  lemma {:induction false} CanonLeaves(p: Value -> bool, v: Value)
    ensures Leaves(p, Canon(v)) <==> Leaves(p, v)
  {
    hide Sort;
    match v
    case Arr(items) =>
      forall i | 0 <= i < |items| ensures Leaves(p, CanonItems(items)[i]) <==> Leaves(p, items[i]) {
        CanonLeaves(p, items[i]);
      }
    case Obj(fields) =>
      var c := CanonFields(fields);
      SortElements(c);
      forall i | 0 <= i < |fields| ensures c[i] in c && (Leaves(p, c[i].value) <==> Leaves(p, fields[i].value)) {
        CanonLeaves(p, fields[i].value);
      }
      forall i | 0 <= i < |c| ensures Sort(c)[i] in Sort(c) {}
    case _ =>
  }

  /** Every object in the value has its fields in key order. */
  ghost predicate Ordered(v: Value) {
    match v
    case Arr(items) => forall i :: 0 <= i < |items| ==> Ordered(items[i])
    case Obj(fields) => KeySorted(fields) && forall i :: 0 <= i < |fields| ==> Ordered(fields[i].value)
    case _ => true
  }

  lemma {:induction false} CanonOrdered(v: Value)
    requires Keyed(v)
    ensures Ordered(Canon(v))
  {
    match v
    case Arr(items) =>
      forall i | 0 <= i < |items| ensures Ordered(CanonItems(items)[i]) { CanonOrdered(items[i]); }
    case Obj(fields) =>
      var c := CanonFields(fields);
      SortElements(c);
      SortSorted(c);
      forall i | 0 <= i < |fields| ensures Ordered(c[i].value) { CanonOrdered(fields[i].value); }
      forall i | 0 <= i < |c| ensures Ordered(Sort(c)[i].value) {
        var f := Sort(c)[i];
        assert f in Sort(c);
      }
    case _ =>
  }

  lemma {:induction false} OrderedIsKeyed(v: Value)
    requires Ordered(v)
    ensures Keyed(v)
  {
    match v
    case Arr(items) =>
      forall i | 0 <= i < |items| ensures Keyed(items[i]) { OrderedIsKeyed(items[i]); }
    case Obj(fields) =>
      SortedIsUnique(fields);
      forall i | 0 <= i < |fields| ensures Keyed(fields[i].value) { OrderedIsKeyed(fields[i].value); }
    case _ =>
  }

  lemma {:induction false} CanonOfOrdered(v: Value)
    requires Ordered(v)
    ensures Canon(v) == v
  {
    match v
    case Arr(items) =>
      forall i | 0 <= i < |items| ensures CanonItems(items)[i] == items[i] { CanonOfOrdered(items[i]); }
    case Obj(fields) =>
      forall i | 0 <= i < |fields| ensures CanonFields(fields)[i] == fields[i] { CanonOfOrdered(fields[i].value); }
      assert CanonFields(fields) == fields;
      SortOfSorted(fields);
    case _ =>
  }

  lemma {:induction false} PlainItemsAt(items: seq<Value>, i: nat)
    requires i < |items|
    ensures PlainItems(items)[i] == Plain(items[i])
  {
    if i > 0 { PlainItemsAt(items[1..], i - 1); }
  }

  lemma {:induction false} PlainFieldsAt(fields: seq<Field<Value>>, i: nat)
    requires i < |fields|
    ensures PlainFields(fields)[i] == Field(fields[i].key, Plain(fields[i].value))
  {
    if i > 0 { PlainFieldsAt(fields[1..], i - 1); }
  }

  lemma {:induction false} PlainOrdered(v: Value)
    requires Ordered(v)
    ensures Ordered(Plain(v))
  {
    match v
    case Arr(items) =>
      forall i | 0 <= i < |items| ensures Ordered(PlainItems(items)[i]) {
        PlainItemsAt(items, i);
        PlainOrdered(items[i]);
      }
    case Obj(fields) =>
      forall i | 0 <= i < |fields| ensures Ordered(PlainFields(fields)[i].value) {
        PlainFieldsAt(fields, i);
        PlainOrdered(fields[i].value);
      }
    case _ =>
  }

  // --- Equality of Python values ----------------------------------------------------------------------

  ghost function Keys<T(!new)>(fields: seq<Field<T>>): (r: set<string>)
    ensures forall i :: 0 <= i < |fields| ==> fields[i].key in r
  {
    set i | 0 <= i < |fields| :: fields[i].key
  }

  lemma {:induction false} KeysSplit<T(!new)>(fields: seq<Field<T>>)
    requires fields != []
    ensures Keys(fields) == {fields[0].key} + Keys(fields[1..])
  {
    var rest := fields[1..];
    forall k | k in Keys(fields) ensures k in {fields[0].key} + Keys(rest) {
      var i :| 0 <= i < |fields| && fields[i].key == k;
      if i > 0 { assert rest[i - 1].key == k; }
    }
    forall k | k in Keys(rest) ensures k in Keys(fields) {
      var i :| 0 <= i < |rest| && rest[i].key == k;
      assert fields[i + 1].key == k;
    }
  }

  lemma {:induction false} KeysCount<T(!new)>(fields: seq<Field<T>>)
    requires UniqueKeys(fields)
    ensures |Keys(fields)| == |fields|
    decreases |fields|
  {
    if fields != [] {
      var rest := fields[1..];
      assert forall i :: 0 <= i < |rest| ==> rest[i] == fields[i + 1];
      KeysCount(rest);
      KeysSplit(fields);
      assert fields[0].key !in Keys(rest);
    }
  }

  lemma SubsetOfEqualSize(a: set<string>, b: set<string>)
    requires a <= b && |a| == |b|
    ensures a == b
  {
    if a != b {
      var x :| x in b && x !in a;
      assert a <= b - {x};
      SubsetSize(a, b - {x});
    }
  }

  /** Two dictionaries of one size, each of whose fields of the first occurs in the second, hold the same fields. */
  lemma FieldsAgree<T(!new)>(a: seq<Field<T>>, b: seq<Field<T>>)
    requires UniqueKeys(a) && UniqueKeys(b) && |a| == |b|
    requires forall i :: 0 <= i < |a| ==> a[i] in b
    ensures forall x :: x in a <==> x in b
  {
    KeysCount(a);
    KeysCount(b);
    forall k | k in Keys(a) ensures k in Keys(b) {
      var i :| 0 <= i < |a| && a[i].key == k;
      assert a[i] in b;
    }
    SubsetOfEqualSize(Keys(a), Keys(b));
    forall x | x in b ensures x in a {
      var j :| 0 <= j < |b| && b[j] == x;
      assert x.key in Keys(a);
      var i :| 0 <= i < |a| && a[i].key == x.key;
      var m :| 0 <= m < |b| && b[m] == a[i];
      assert m == j;
    }
    forall x | x in a ensures x in b {
      var i :| 0 <= i < |a| && a[i] == x;
    }
  }

  lemma SortsAgree<T(!new)>(c: seq<Field<T>>, d: seq<Field<T>>)
    requires UniqueKeys(c) && UniqueKeys(d) && |c| == |d|
    ensures (forall i :: 0 <= i < |c| ==> c[i] in d) <==> Sort(c) == Sort(d)
  {
    SortElements(c);
    SortElements(d);
    if forall i :: 0 <= i < |c| ==> c[i] in d {
      FieldsAgree(c, d);
      SortSorted(c);
      SortSorted(d);
      SortedDetermined(Sort(c), Sort(d));
    }
    if Sort(c) == Sort(d) {
      forall i | 0 <= i < |c| ensures c[i] in d {
        var x := c[i];
        assert x in c && x in Sort(d);
      }
    }
  }

  lemma MatchIffMember(f: Field<Value>, b: seq<Field<Value>>)
    requires forall j :: 0 <= j < |b| ==> (Same(f.value, b[j].value) <==> Canon(f.value) == Canon(b[j].value))
    ensures HasSame(f, b) <==> Field(f.key, Canon(f.value)) in CanonFields(b)
  {
    var d, x := CanonFields(b), Field(f.key, Canon(f.value));
    if x in d {
      var j :| 0 <= j < |d| && d[j] == x;
      assert f.key == b[j].key;
    }
    if j :| 0 <= j < |b| && f.key == b[j].key && Same(f.value, b[j].value) { assert d[j] == x; }
  }

  /** The canonical form decides equality of Python values. */
  lemma {:induction false} SameIffCanonEqual(v: Value, w: Value)
    requires Keyed(v) && Keyed(w)
    ensures Same(v, w) <==> Canon(v) == Canon(w)
  {
    match (v, w)
    case (Arr(a), Arr(b)) =>
      if |a| == |b| {
        forall i | 0 <= i < |a| ensures Same(a[i], b[i]) <==> CanonItems(a)[i] == CanonItems(b)[i] {
          SameIffCanonEqual(a[i], b[i]);
        }
      }
    case (Obj(a), Obj(b)) =>
      SortElements(CanonFields(a));
      SortElements(CanonFields(b));
      if |a| == |b| {
        forall i | 0 <= i < |a|
          ensures HasSame(a[i], b) <==> CanonFields(a)[i] in CanonFields(b)
        {
          forall j | 0 <= j < |b| ensures Same(a[i].value, b[j].value) <==> Canon(a[i].value) == Canon(b[j].value) {
            SameIffCanonEqual(a[i].value, b[j].value);
          }
          MatchIffMember(a[i], b);
        }
        SortsAgree(CanonFields(a), CanonFields(b));
      }
    case _ =>
  }

  // --- Round trips --------------------------------------------------------------------------------------

  lemma ParsesWhole(t: string, v: Value)
    requires t != "" && Starter(t[0]) && ParseValue(t) == Got(v, "")
    ensures Parse(t) == Loaded(v)
  {
    hide ParseValue;
  }

  lemma TextParses(v: Value)
    requires Keyed(v) && Printable(v)
    ensures Parse(Text(v)) == Loaded(Plain(Canon(v)))
  {
    hide Leaves, Keyed, Ordered, Flat, Text, Canon, Plain, ParseValue, Parse;
    TextIsFlatCanon(v);
    CanonLeaves(PrintableLeaf, v);
    CanonOrdered(v);
    OrderedIsKeyed(Canon(v));
    FlatParses(Canon(v), "");
    FlatStarts(Canon(v));
    assert Flat(Canon(v)) + "" == Flat(Canon(v));
    ParsesWhole(Flat(Canon(v)), Plain(Canon(v)));
  }

  /** Whatever the printer accepts, the parser reads back: key order is normalised, and each decimal
      with exponent zero comes back as the integer it denotes. */
  lemma RoundTrip(v: Value)
    requires Keyed(v)
    ensures RequestJson(v).ValueError? <==> !Printable(v)
    ensures Printable(v) ==> Parse(RequestJson(v).text) == Loaded(Plain(Canon(v)))
  {
    if Printable(v) { TextParses(v); }
  }

  predicate ExactLeaf(v: Value) { v.Dec? ==> v.d.exponent != 0 }

  lemma {:induction false} PlainFixed(v: Value)
    ensures Plain(v) == v <==> Leaves(ExactLeaf, v)
  {
    match v
    case Arr(items) =>
      forall i | 0 <= i < |items| ensures PlainItems(items)[i] == items[i] <==> Leaves(ExactLeaf, items[i]) {
        PlainItemsAt(items, i);
        PlainFixed(items[i]);
      }
    case Obj(fields) =>
      forall i | 0 <= i < |fields| ensures PlainFields(fields)[i] == fields[i] <==> Leaves(ExactLeaf, fields[i].value) {
        PlainFieldsAt(fields, i);
        PlainFixed(fields[i].value);
      }
    case _ =>
  }

  /** The value itself comes back, as Python compares values and types, exactly when it holds no
      decimal whose exponent is zero. */
  lemma RoundTripIsExact(v: Value)
    requires Keyed(v) && Printable(v)
    ensures
      (match Parse(RequestJson(v).text) case Loaded(w) => Keyed(w) && Same(v, w) case Rejected => false)
      <==> Leaves(ExactLeaf, v)
  {
    var c := Canon(v);
    RoundTrip(v);
    CanonOrdered(v);
    PlainOrdered(c);
    OrderedIsKeyed(Plain(c));
    SameIffCanonEqual(v, Plain(c));
    CanonOfOrdered(Plain(c));
    PlainFixed(c);
    CanonLeaves(ExactLeaf, v);
  }

  /** A client that writes 5e0 is re-parsed as having written 5. */
  lemma WholeDecimalChangesType()
    ensures Parse(RequestJson(Dec(Decimal(false, 5, 0))).text) == Loaded(Int(5))
  {
    RoundTrip(Dec(Decimal(false, 5, 0)));
  }

  // --- Printing again -------------------------------------------------------------------------------------

  predicate KeptLeaf(v: Value) { v.Dec? ==> !(v.d.negative && v.d.coefficient == 0 && v.d.exponent == 0) }

  lemma WholeDecimalText(d: Decimal)
    requires d.exponent == 0
    ensures DecimalText(d) == Signed(d.negative, Digits(d.coefficient))
  {
    var text := Digits(d.coefficient);
    assert text + Zeros(0) == text && text + "" + "" == text;
  }

  lemma PlainDecimalText(d: Decimal)
    ensures KeptLeaf(Dec(d)) ==> Flat(Plain(Dec(d))) == Flat(Dec(d))
    ensures !KeptLeaf(Dec(d)) ==> |Flat(Plain(Dec(d)))| < |Flat(Dec(d))|
  {
    if d.exponent == 0 { WholeDecimalText(d); }
  }

  lemma {:induction false} PlainLength(v: Value)
    ensures |Flat(Plain(v))| <= |Flat(v)|
    ensures Leaves(KeptLeaf, v) ==> Flat(Plain(v)) == Flat(v)
    ensures !Leaves(KeptLeaf, v) ==> |Flat(Plain(v))| < |Flat(v)|
    decreases v, 1
  {
    hide Quote, IntText, DecimalText, Join;
    match v
    case Dec(d) => PlainDecimalText(d);
    case Arr(items) => PlainItemsLength(v, items);
    case Obj(fields) => PlainFieldsLength(v, fields);
    case _ =>
  }

  lemma {:induction false} PlainItemsLength(context: Value, items: seq<Value>)
    requires forall i :: 0 <= i < |items| ==> items[i] < context
    ensures |Join(Flats(PlainItems(items)))| <= |Join(Flats(items))|
    ensures (forall i :: 0 <= i < |items| ==> Leaves(KeptLeaf, items[i])) ==> Flats(PlainItems(items)) == Flats(items)
    ensures (exists i :: 0 <= i < |items| && !Leaves(KeptLeaf, items[i])) ==>
        |Join(Flats(PlainItems(items)))| < |Join(Flats(items))|
    ensures |Flats(PlainItems(items))| == |Flats(items)| == |items|
    decreases context, 0, |items|
  {
    hide Flat, Plain, Join;
    if items != [] {
      var rest := items[1..];
      PlainLength(items[0]);
      PlainItemsLength(context, rest);
      JoinLength(Flats(items));
      JoinLength(Flats(PlainItems(items)));
      assert PlainItems(items)[1..] == PlainItems(rest);
      assert Flats(items)[1..] == Flats(rest) && Flats(PlainItems(items))[1..] == Flats(PlainItems(rest));
      if i :| 0 <= i < |items| && !Leaves(KeptLeaf, items[i]) {
        if i > 0 { assert rest[i - 1] == items[i]; }
      } else {
        assert forall i :: 0 <= i < |rest| ==> rest[i] == items[i + 1];
      }
    }
  }

  lemma JoinLength(parts: seq<string>)
    requires parts != []
    ensures |Join(parts)| == |parts[0]| + (if |parts| == 1 then 0 else 1) + |Join(parts[1..])|
  {
    if |parts| == 1 { assert parts[1..] == []; }
  }

  lemma {:induction false} PlainFieldsLength(context: Value, fields: seq<Field<Value>>)
    requires forall i :: 0 <= i < |fields| ==> fields[i].value < context
    ensures |Members(FlatFields(PlainFields(fields)))| == |Members(FlatFields(fields))| == |fields|
    ensures |Join(Members(FlatFields(PlainFields(fields))))| <= |Join(Members(FlatFields(fields)))|
    ensures (forall i :: 0 <= i < |fields| ==> Leaves(KeptLeaf, fields[i].value)) ==>
        FlatFields(PlainFields(fields)) == FlatFields(fields)
    ensures (exists i :: 0 <= i < |fields| && !Leaves(KeptLeaf, fields[i].value)) ==>
              |Join(Members(FlatFields(PlainFields(fields))))| < |Join(Members(FlatFields(fields)))|
    decreases context, 0, |fields|
  {
    hide Flat, Plain, Join, Quote;
    if fields != [] {
      var rest := fields[1..];
      var a, b := Members(FlatFields(PlainFields(fields))), Members(FlatFields(fields));
      PlainLength(fields[0].value);
      PlainFieldsLength(context, rest);
      JoinLength(a);
      JoinLength(b);
      assert PlainFields(fields)[1..] == PlainFields(rest);
      assert FlatFields(PlainFields(fields))[1..] == FlatFields(PlainFields(rest))
          && FlatFields(fields)[1..] == FlatFields(rest);
      assert a[1..] == Members(FlatFields(PlainFields(rest))) && b[1..] == Members(FlatFields(rest));
      if i :| 0 <= i < |fields| && !Leaves(KeptLeaf, fields[i].value) {
        if i > 0 { assert rest[i - 1] == fields[i]; }
      } else {
        assert forall i :: 0 <= i < |rest| ==> rest[i] == fields[i + 1];
      }
    }
  }

  /** Printing what was parsed gives the same text again, exactly when the value holds no decimal
      zero that is written "-0". */
  lemma PrintingIsStable(v: Value)
    requires Keyed(v) && Printable(v)
    ensures
      (match Parse(RequestJson(v).text) case Loaded(w) => Text(w) == RequestJson(v).text case Rejected => false)
      <==> Leaves(KeptLeaf, v)
  {
    var c := Canon(v);
    RoundTrip(v);
    TextIsFlatCanon(v);
    TextIsFlatCanon(Plain(c));
    CanonOrdered(v);
    PlainOrdered(c);
    CanonOfOrdered(Plain(c));
    PlainLength(c);
    CanonLeaves(KeptLeaf, v);
  }

  /** The text "-0e0" of a client is re-printed as "-0", and that as "0". */
  lemma MinusZeroIsNotStable()
    ensures RequestJson(Dec(Decimal(true, 0, 0))).text == "-0"
    ensures Parse("-0") == Loaded(Int(0)) && Text(Int(0)) == "0"
  {
    WholeDecimalText(Decimal(true, 0, 0));
    RoundTrip(Dec(Decimal(true, 0, 0)));
  }

  // --- Identity of texts --------------------------------------------------------------------------------

  /** Insertion order never shows: equal values print equal texts. Among values without
      integer-looking decimals the converse holds too, so the printer is injective on them. */
  lemma TextIdentifies(v: Value, w: Value)
    requires Keyed(v) && Keyed(w) && Printable(v) && Printable(w)
    ensures Same(v, w) ==> RequestJson(v) == RequestJson(w)
    ensures Leaves(ExactLeaf, v) && Leaves(ExactLeaf, w) ==> (RequestJson(v) == RequestJson(w) <==> Same(v, w))
  {
    SameIffCanonEqual(v, w);
    TextIsFlatCanon(v);
    TextIsFlatCanon(w);
    RoundTrip(v);
    RoundTrip(w);
    PlainFixed(Canon(v));
    PlainFixed(Canon(w));
    CanonLeaves(ExactLeaf, v);
    CanonLeaves(ExactLeaf, w);
  }

  // --- The canonical serializer -------------------------------------------------------------------------

  lemma {:induction false} LeavesImply(p: Value -> bool, q: Value -> bool, v: Value)
    requires forall x :: p(x) ==> q(x)
    requires Leaves(p, v)
    ensures Leaves(q, v)
  {
    match v
    case Arr(items) => forall i | 0 <= i < |items| ensures Leaves(q, items[i]) { LeavesImply(p, q, items[i]); }
    case Obj(fields) =>
      forall i | 0 <= i < |fields| ensures Leaves(q, fields[i].value) { LeavesImply(p, q, fields[i].value); }
    case _ =>
  }

  /** The canonical serializer refuses exactly the values that hold a decimal, a float or a foreign
      object; what it writes reads back as the value, and two values share a text only if they are equal. */
  lemma CanonicalSerializer(v: Value, w: Value)
    requires Keyed(v) && Keyed(w)
    ensures CanonicalJson(v).ValueError? <==> !Leaves(NormalLeaf, v)
    ensures Normal(v) ==> Parse(CanonicalJson(v).text) == Loaded(Canon(v))
    ensures Normal(v) && Normal(w) ==> (CanonicalJson(v) == CanonicalJson(w) <==> Same(v, w))
  {
    if Normal(v) {
      LeavesImply(NormalLeaf, PrintableLeaf, v);
      LeavesImply(NormalLeaf, ExactLeaf, v);
      RoundTrip(v);
      PlainFixed(Canon(v));
      CanonLeaves(ExactLeaf, v);
      if Normal(w) {
        LeavesImply(NormalLeaf, PrintableLeaf, w);
        LeavesImply(NormalLeaf, ExactLeaf, w);
        TextIdentifies(v, w);
      }
    }
  }

  /** Under a collision-free digest, equal digests of canonical documents mean equal documents. */
  lemma DigestIdentifies(digest: string -> nat, v: Value, w: Value)
    requires forall s, t :: digest(s) == digest(t) ==> s == t
    requires Keyed(v) && Keyed(w) && Normal(v) && Normal(w)
    ensures digest(CanonicalJson(v).text) == digest(CanonicalJson(w).text) <==> Same(v, w)
  {
    CanonicalSerializer(v, w);
  }
}
