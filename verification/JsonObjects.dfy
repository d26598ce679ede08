/** JSON objects as dictionaries: lookups, updates, and what they read back as once printed. */
module JsonObjects {
  import opened JsonParser
  import opened JsonRoundTrip
  import opened JsonText
  import opened JsonTheorems
  import opened Options
  import opened Ordering

  // --- Dictionaries -------------------------------------------------------------------------------------

  function Find(fields: seq<Field<Value>>, key: string): Option<Value> {
    if fields == [] then None else if fields[0].key == key then Some(fields[0].value) else Find(fields[1..], key)
  }

  /** Python's `get`: a missing key reads as `None`. */
  function Get(fields: seq<Field<Value>>, key: string): Value {
    if Find(fields, key).Some? then Find(fields, key).value else Null
  }

  function Put(fields: seq<Field<Value>>, key: string, v: Value): seq<Field<Value>> {
    if fields == [] then [Field(key, v)]
    else if fields[0].key == key then [Field(key, v)] + fields[1..]
    else [fields[0]] + Put(fields[1..], key, v)
  }

  function Update(fields: seq<Field<Value>>, updates: seq<Field<Value>>): seq<Field<Value>> {
    if updates == [] then fields
    else
      var last := updates[|updates| - 1];
      Put(Update(fields, updates[..|updates| - 1]), last.key, last.value)
  }

  // --- Everything the parser accepts is a dictionary -----------------------------------------------------

  lemma {:induction false} ParsedIsKeyed(t: string)
    ensures ParseValue(t).Got? ==> Keyed(ParseValue(t).value)
    decreases |t|, 2
  {
    if t != "" && t[0] == '{' { ObjectIsKeyed(Skip(t[1..])); }
    else if t != "" && t[0] == '[' { ArrayIsKeyed(Skip(t[1..])); }
  }

  lemma {:induction false} ArrayIsKeyed(t: string)
    ensures ParseArray(t).Got? ==> Keyed(ParseArray(t).value)
    decreases |t|, 4
  {
    if !(t != "" && t[0] == ']') { ItemsAreKeyed(t); }
  }

  lemma {:induction false} ItemsAreKeyed(t: string)
    ensures ParseItems(t).Got? ==> forall i :: 0 <= i < |ParseItems(t).value| ==> Keyed(ParseItems(t).value[i])
    decreases |t|, 3
  {
    ParsedIsKeyed(t);
    var first := ParseValue(t);
    if first.Got? {
      var u := Skip(first.rest);
      if u != "" && u[0] == ',' { ItemsAreKeyed(Skip(u[1..])); }
    }
  }

  lemma {:induction false} ObjectIsKeyed(t: string)
    ensures ParseObject(t).Got? ==> Keyed(ParseObject(t).value)
    decreases |t|, 4
  {
    if !(t != "" && t[0] == '}') { FieldsAreKeyed(t); }
  }

  lemma {:induction false} FieldsAreKeyed(t: string)
    ensures ParseFields(t).Got? ==> forall i :: 0 <= i < |ParseFields(t).value| ==> Keyed(ParseFields(t).value[i].value)
    decreases |t|, 3
  {
    if t != "" && t[0] == '\"' {
      var key := ScanString(t[1..]);
      if key.Got? {
        var u := Skip(key.rest);
        if u != "" && u[0] == ':' {
          ParsedIsKeyed(Skip(u[1..]));
          var item := ParseValue(Skip(u[1..]));
          if item.Got? {
            var x := Skip(item.rest);
            if x != "" && x[0] == ',' { FieldsAreKeyed(Skip(x[1..])); }
          }
        }
      }
    }
  }

  /** The parser accepts no object, at any depth, in which a key repeats. */
  lemma AcceptedIsKeyed(t: string)
    ensures Parse(t).Loaded? ==> Keyed(Parse(t).value)
  {
    ParsedIsKeyed(Skip(t));
  }

  // --- Lookups ----------------------------------------------------------------------------------------------

  lemma {:induction false} FindIffMember(fields: seq<Field<Value>>, key: string, v: Value)
    requires UniqueKeys(fields)
    ensures Find(fields, key) == Some(v) <==> Field(key, v) in fields
  {
    if fields != [] {
      FindIffMember(fields[1..], key, v);
      assert fields == [fields[0]] + fields[1..];
      assert fields[0].key == key ==> Field(key, v) !in fields[1..];
    }
  }

  predicate HasKey(fields: seq<Field<Value>>, key: string) { exists i :: 0 <= i < |fields| && fields[i].key == key }

  lemma {:induction false} PutKeys(fields: seq<Field<Value>>, key: string, v: Value)
    requires UniqueKeys(fields)
    ensures UniqueKeys(Put(fields, key, v))
    ensures forall i :: 0 <= i < |Put(fields, key, v)| ==>
        Put(fields, key, v)[i].key == key || HasKey(fields, Put(fields, key, v)[i].key)
    ensures forall j :: Find(Put(fields, key, v), j) == if j == key then Some(v) else Find(fields, j)
  {
    if fields != [] && fields[0].key != key {
      var rest := Put(fields[1..], key, v);
      PutKeys(fields[1..], key, v);
      forall i | 0 <= i < |rest|
        ensures rest[i].key != fields[0].key && (rest[i].key == key || HasKey(fields, rest[i].key))
      {
        if rest[i].key != key {
          var m :| 0 <= m < |fields[1..]| && fields[1..][m].key == rest[i].key;
          assert fields[m + 1].key == rest[i].key;
        }
      }
    } else if fields != [] {
      forall i | 1 <= i < |fields| ensures HasKey(fields, fields[i].key) {}
    }
  }

  lemma {:induction false} UpdateKeys(fields: seq<Field<Value>>, updates: seq<Field<Value>>)
    requires UniqueKeys(fields) && UniqueKeys(updates)
    ensures UniqueKeys(Update(fields, updates))
    ensures forall j :: Find(Update(fields, updates), j) == if Find(updates, j).Some? then Find(updates, j)
        else Find(fields, j)
  {
    if updates != [] {
      var init, last := updates[..|updates| - 1], updates[|updates| - 1];
      UpdateKeys(fields, init);
      PutKeys(Update(fields, init), last.key, last.value);
      assert updates == init + [last];
      forall j ensures Find(updates, j) == if j == last.key then Some(last.value) else Find(init, j) {
        FindLast(init, last, j);
      }
    }
  }

  lemma {:induction false} FindLast(init: seq<Field<Value>>, last: Field<Value>, j: string)
    requires UniqueKeys(init + [last])
    ensures Find(init + [last], j) == if j == last.key then Some(last.value) else Find(init, j)
  {
    if init != [] {
      assert (init + [last])[1..] == init[1..] + [last];
      assert (init + [last])[0].key != (init + [last])[|init|].key;
      FindLast(init[1..], last, j);
    }
  }

  // --- Reading back ---------------------------------------------------------------------------------------

  /** What a value reads back as, once printed. */
  function Norm(v: Value): Value { Plain(Canon(v)) }

  function NormOption(o: Option<Value>): Option<Value> { if o.Some? then Some(Norm(o.value)) else None }

  function NormFields(fields: seq<Field<Value>>): seq<Field<Value>> { PlainFields(Sort(CanonFields(fields))) }

  lemma NormMember(fields: seq<Field<Value>>, f: Field<Value>)
    requires f in fields
    ensures Field(f.key, Norm(f.value)) in NormFields(fields)
  {
    var i :| 0 <= i < |fields| && fields[i] == f;
    var c := CanonFields(fields);
    SortElements(c);
    assert c[i] in Sort(c);
    var j :| 0 <= j < |Sort(c)| && Sort(c)[j] == c[i];
    PlainFieldsAt(Sort(c), j);
    assert NormFields(fields)[j] == Field(f.key, Norm(f.value));
  }

  lemma NormKey(fields: seq<Field<Value>>, g: Field<Value>)
    requires g in NormFields(fields)
    ensures HasKey(fields, g.key)
  {
    var c := CanonFields(fields);
    SortElements(c);
    var j :| 0 <= j < |NormFields(fields)| && NormFields(fields)[j] == g;
    assert Sort(c)[j] in Sort(c);
    var i :| 0 <= i < |c| && c[i] == Sort(c)[j];
    assert fields[i].key == g.key;
  }

  lemma NormUnique(fields: seq<Field<Value>>)
    requires UniqueKeys(fields)
    ensures UniqueKeys(NormFields(fields))
  {
    var c := CanonFields(fields);
    SortSorted(c);
    SortedIsUnique(Sort(c));
  }

  lemma NormFind(fields: seq<Field<Value>>, key: string)
    requires UniqueKeys(fields)
    ensures Find(NormFields(fields), key) == NormOption(Find(fields, key))
  {
    NormUnique(fields);
    var found := Find(fields, key);
    if found.Some? {
      FindIffMember(fields, key, found.value);
      NormMember(fields, Field(key, found.value));
      FindIffMember(NormFields(fields), key, Norm(found.value));
    } else {
      var sent := Find(NormFields(fields), key);
      if sent.Some? {
        FindIffMember(NormFields(fields), key, sent.value);
        NormKey(fields, Field(key, sent.value));
        var i :| 0 <= i < |fields| && fields[i].key == key;
        FindIffMember(fields, key, fields[i].value);
        assert false;
      }
    }
  }
}
