/** One record of the provider attempt index, as a value, as a document and as a line of text. */
module AttemptRecord {
  import opened JsonObjects
  import opened JsonParser
  import opened JsonPrefix
  import opened JsonRoundTrip
  import opened JsonText
  import opened JsonTheorems
  import opened Numerals
  import opened Options
  import opened Ordering

  datatype Attempt = Attempt(
    id: string, started: string, finished: string, selection: string, provider: string,
    probes: int, charged: int, qualified: bool, record: string, disposition: string, retained: Option<string>)

  const SCHEMA := "provider-qualification-attempt/v1"

  predicate Sane(a: Attempt) { a.probes >= 1 && a.charged >= 1 }

  function Required(a: Attempt): seq<Field<Value>> {
    [Field("schema_version", Str(SCHEMA)), Field("attempt_id", Str(a.id)), Field("started_at", Str(a.started)),
     Field("finished_at", Str(a.finished)), Field("selection_digest", Str(a.selection)),
     Field("selected_provider", Str(a.provider)), Field("probe_count", Int(a.probes)),
     Field("charged_usd_nanos", Int(a.charged)), Field("qualified", Bool(a.qualified)),
     Field("record_digest", Str(a.record)), Field("disposition", Str(a.disposition))]
  }

  function Fields(a: Attempt): seq<Field<Value>> {
    Required(a) + if a.retained.Some? then [Field("retained_record", Str(a.retained.value))] else []
  }

  function LineText(a: Attempt): string { Text(Obj(Fields(a))) }

  // --- Reading ----------------------------------------------------------------------------------------------

  function FindString(fields: seq<Field<Value>>, key: string): Option<string> {
    match Find(fields, key) case Some(Str(s)) => Some(s) case _ => None
  }

  function FindInt(fields: seq<Field<Value>>, key: string): Option<int> {
    match Find(fields, key) case Some(Int(n)) => Some(n) case _ => None
  }

  function FindBool(fields: seq<Field<Value>>, key: string): Option<bool> {
    match Find(fields, key) case Some(Bool(b)) => Some(b) case _ => None
  }

  /** The validator's checks on one record: exactly the required keys and perhaps `retained_record`, the
      schema, positive counts and a boolean verdict. */
  function Read(fields: seq<Field<Value>>): Option<Attempt> {
    var (id, started, finished) :=
      (FindString(fields, "attempt_id"), FindString(fields, "started_at"), FindString(fields, "finished_at"));
    var (selection, provider, record) :=
      (FindString(fields, "selection_digest"), FindString(fields, "selected_provider"),
          FindString(fields, "record_digest"));
    var (probes, charged, qualified) :=
      (FindInt(fields, "probe_count"), FindInt(fields, "charged_usd_nanos"), FindBool(fields, "qualified"));
    var (disposition, retained) := (FindString(fields, "disposition"), FindString(fields, "retained_record"));
    if FindString(fields, "schema_version") != Some(SCHEMA) || id.None? || started.None? || finished.None? then None
    else if selection.None? || provider.None? || record.None? || disposition.None? then None
    else if probes.None? || probes.value < 1 || charged.None? || charged.value < 1 || qualified.None? then None
    else if |fields| != (if retained.Some? then 12 else 11) then None
    else Some(Attempt(id.value, started.value, finished.value, selection.value, provider.value,
                      probes.value, charged.value, qualified.value, record.value, disposition.value, retained))
  }

  function ReadLine(line: string): Option<Attempt> {
    match Parse(line) case Loaded(Obj(fields)) => Read(fields) case _ => None
  }

  // --- Writing then reading ---------------------------------------------------------------------------------

  lemma DocumentKeys(a: Attempt)
    ensures UniqueKeys(Fields(a))
  {
    var d := Fields(a);
    assert |d[0].key| == 14 && |d[1].key| == 10 && |d[2].key| == 10 && |d[3].key| == 11 && |d[4].key| == 16;
    assert |d[5].key| == 17 && |d[6].key| == 11 && |d[7].key| == 17 && |d[8].key| == 9 && |d[9].key| == 13
        && |d[10].key| == 11;
    assert d[1].key[0] == 'a' && d[2].key[0] == 's';
    assert d[3].key[0] == 'f' && d[6].key[0] == 'p' && d[10].key[0] == 'd';
    assert d[5].key[0] == 's' && d[7].key[0] == 'c';
    if a.retained.Some? { assert |d[11].key| == 15; }
  }

  lemma FoundAt(a: Attempt, i: nat)
    requires i < |Fields(a)|
    ensures Find(NormFields(Fields(a)), Fields(a)[i].key) == Some(Norm(Fields(a)[i].value))
  {
    DocumentKeys(a);
    NormFind(Fields(a), Fields(a)[i].key);
    FindIffMember(Fields(a), Fields(a)[i].key, Fields(a)[i].value);
  }

  lemma FieldsFound(a: Attempt)
    ensures
      var f := NormFields(Fields(a));
      && FindString(f, "schema_version") == Some(SCHEMA)
      && FindString(f, "attempt_id") == Some(a.id) && FindString(f, "started_at") == Some(a.started)
      && FindString(f, "finished_at") == Some(a.finished) && FindString(f, "selection_digest") == Some(a.selection)
      && FindString(f, "selected_provider") == Some(a.provider)
  {
    hide NormFields, Find;
    FoundAt(a, 0); FoundAt(a, 1); FoundAt(a, 2); FoundAt(a, 3); FoundAt(a, 4); FoundAt(a, 5);
  }

  lemma MoreFieldsFound(a: Attempt)
    ensures
      var f := NormFields(Fields(a));
      && FindInt(f, "probe_count") == Some(a.probes) && FindInt(f, "charged_usd_nanos") == Some(a.charged)
      && FindBool(f, "qualified") == Some(a.qualified) && FindString(f, "record_digest") == Some(a.record)
      && FindString(f, "disposition") == Some(a.disposition)
  {
    hide NormFields, Find;
    FoundAt(a, 6); FoundAt(a, 7); FoundAt(a, 8); FoundAt(a, 9); FoundAt(a, 10);
  }

  lemma NoRetainedKey(a: Attempt)
    requires a.retained.None?
    ensures forall i :: 0 <= i < |Fields(a)| ==> Fields(a)[i].key != "retained_record"
  {
    var d := Fields(a);
    assert |d[0].key| == 14 && |d[1].key| == 10 && |d[2].key| == 10 && |d[3].key| == 11 && |d[4].key| == 16;
    assert |d[5].key| == 17 && |d[6].key| == 11 && |d[7].key| == 17 && |d[8].key| == 9 && |d[9].key| == 13
        && |d[10].key| == 11;
  }

  lemma KeyAbsent(fields: seq<Field<Value>>, key: string)
    requires UniqueKeys(fields) && forall i :: 0 <= i < |fields| ==> fields[i].key != key
    ensures Find(NormFields(fields), key) == None
  {
    NormFind(fields, key);
    hide NormFields;
    var found := Find(fields, key);
    if found.Some? { FindIffMember(fields, key, found.value); }
  }

  lemma RetainedFound(a: Attempt)
    ensures FindString(NormFields(Fields(a)), "retained_record") == a.retained
  {
    if a.retained.Some? {
      FoundAt(a, 11);
    } else {
      DocumentKeys(a);
      NoRetainedKey(a);
      hide Fields, NormFields, Find;
      KeyAbsent(Fields(a), "retained_record");
    }
  }

  lemma DocumentPrints(a: Attempt)
    ensures Keyed(Obj(Fields(a))) && Printable(Obj(Fields(a))) && Normal(Obj(Fields(a)))
  {
    DocumentKeys(a);
    DocumentScalar(a);
    hide Fields;
    forall i | 0 <= i < |Fields(a)|
      ensures Leaves(PrintableLeaf, Fields(a)[i].value) && Leaves(NormalLeaf, Fields(a)[i].value)
      ensures Keyed(Fields(a)[i].value)
    {
      assert Fields(a)[i] in Fields(a);
    }
  }

  /** A record that the writer prints reads back as itself. */
  lemma ReadsBack(a: Attempt)
    requires Sane(a)
    ensures ReadLine(LineText(a)) == Some(a)
  {
    hide Find, FindString, FindInt, FindBool, Text;
    DocumentPrints(a);
    RoundTrip(Obj(Fields(a)));
    FieldsFound(a);
    MoreFieldsFound(a);
    RetainedFound(a);
    SortElements(CanonFields(Fields(a)));
  }

  // --- No control characters --------------------------------------------------------------------------------

  /** Every character of a printed text is a space or comes after it. */
  ghost predicate Clean(s: string) { forall i :: 0 <= i < |s| ==> s[i] >= ' ' }

  lemma {:induction false} EscapedClean(s: string)
    ensures Clean(EscapedAll(s))
  {
    if s != "" { EscapedClean(s[1..]); assert Clean(Escaped(s[0])); }
  }

  lemma QuoteClean(s: string)
    ensures Clean(Quote(s))
  {
    EscapedClean(s);
  }

  lemma {:induction false} JoinClean(parts: seq<string>)
    requires forall p :: p in parts ==> Clean(p)
    ensures Clean(Join(parts))
  {
    if parts != [] { assert parts[0] in parts; }
    if |parts| > 1 { JoinClean(parts[1..]); }
  }

  lemma {:induction false} MembersClean(fields: seq<Field<string>>)
    requires forall f :: f in fields ==> Clean(f.value)
    ensures forall p :: p in Members(fields) ==> Clean(p)
  {
    if fields != [] {
      MembersClean(fields[1..]);
      QuoteClean(fields[0].key);
    }
  }

  predicate Scalar(v: Value) { v.Str? || v.Int? || v.Bool? }

  lemma {:induction false} FieldTextsClean(fields: seq<Field<Value>>)
    requires forall f :: f in fields ==> Scalar(f.value)
    ensures forall g :: g in FieldTexts(fields) ==> Clean(g.value)
  {
    if fields != [] {
      FieldTextsClean(fields[1..]);
      var v := fields[0].value;
      assert Scalar(v);
      if v.Str? { QuoteClean(v.s); }
    }
  }

  lemma ObjectClean(fields: seq<Field<Value>>)
    requires forall f :: f in fields ==> Scalar(f.value)
    ensures Clean(Text(Obj(fields)))
  {
    var texts := FieldTexts(fields);
    FieldTextsClean(fields);
    SortElements(texts);
    MembersClean(Sort(texts));
    JoinClean(Members(Sort(texts)));
  }

  lemma DocumentScalar(a: Attempt)
    ensures forall f :: f in Fields(a) ==> Scalar(f.value)
  {
    var d := Fields(a);
    assert d[0].value.Str? && d[1].value.Str? && d[2].value.Str? && d[3].value.Str? && d[4].value.Str?
        && d[5].value.Str?;
    assert d[6].value.Int? && d[7].value.Int? && d[8].value.Bool? && d[9].value.Str? && d[10].value.Str?;
    assert |d| > 11 ==> d[11].value.Str?;
    assert forall i :: 0 <= i < |d| ==> Scalar(d[i].value);
  }

  lemma LineTextClean(a: Attempt)
    ensures Clean(LineText(a)) && LineText(a) != "" && LineText(a)[0] == '{'
  {
    hide Fields, FieldTexts, Sort, Members, Join;
    DocumentScalar(a);
    ObjectClean(Fields(a));
  }

  /** A record cut short anywhere is not a record. */
  lemma CutLineUnread(a: Attempt, n: nat)
    requires n < |LineText(a)|
    ensures Parse(LineText(a)[..n]) == Rejected && ReadLine(LineText(a)[..n]) == None
  {
    DocumentPrints(a);
    CutObjectIsRejected(Fields(a), n);
  }

  // --- Exactly the writer's documents -----------------------------------------------------------------------------

  predicate Holds(fields: seq<Field<Value>>, key: string, v: Value) { Find(fields, key) == Some(v) }

  /** The validator reads a document as the record `a` if and only if it has exactly the eleven keys of the writer,
      or these and `retained_record`, with the values of `a`, and both counts are positive. */
  lemma {:induction false} ReadExactly(fields: seq<Field<Value>>, a: Attempt)
    ensures Read(fields) == Some(a) <==>
      && Holds(fields, "schema_version", Str("provider-qualification-attempt/v1"))
      && Holds(fields, "attempt_id", Str(a.id)) && Holds(fields, "started_at", Str(a.started))
      && Holds(fields, "finished_at", Str(a.finished)) && Holds(fields, "selection_digest", Str(a.selection))
      && Holds(fields, "selected_provider", Str(a.provider)) && Holds(fields, "probe_count", Int(a.probes))
      && Holds(fields, "charged_usd_nanos", Int(a.charged)) && Holds(fields, "qualified", Bool(a.qualified))
      && Holds(fields, "record_digest", Str(a.record)) && Holds(fields, "disposition", Str(a.disposition))
      && a.probes >= 1 && a.charged >= 1
      && |fields| == (if a.retained.Some? then 12 else 11)
      && FindString(fields, "retained_record") == a.retained
  {
    hide Find;
  }
}
