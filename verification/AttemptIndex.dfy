/** The append-only attempt index: its writer, its validator, and their agreement over time. */
module AttemptIndex {
  import opened AttemptRecord
  import opened JsonObjects
  import opened JsonParser
  import opened JsonRoundTrip
  import opened JsonText
  import opened JsonTheorems
  import opened Options
  import opened Ordering

  // --- Lines ------------------------------------------------------------------------------------------------

  /** Where `bytes.splitlines` breaks; the bytes of these two characters occur in no other character. */
  predicate ByteBreak(c: char) { c == '\n' || c == '\r' }

  /** The breaks that `str.splitlines` adds beyond the control characters. */
  predicate Separator(c: char) { c == 0x85 as char || c == 0x2028 as char || c == 0x2029 as char }

  /** Where `str.splitlines` breaks. */
  predicate TextBreak(c: char) {
    || ByteBreak(c) || c == 0x0B as char || c == 0x0C as char
    || c == 0x1C as char || c == 0x1D as char || c == 0x1E as char || Separator(c)
  }

  /** The length of the first line, without its end. */
  function LineLength(brk: char -> bool, t: string): (n: nat)
    ensures n <= |t|
    ensures forall i :: 0 <= i < n ==> !brk(t[i])
    ensures n < |t| ==> brk(t[n])
  {
    if t == "" || brk(t[0]) then 0 else 1 + LineLength(brk, t[1..])
  }

  /** The length of the first line with its end; a carriage return and a line feed end it together. */
  function LineEnd(brk: char -> bool, t: string): (n: nat)
    ensures LineLength(brk, t) <= n <= |t|
    ensures t != "" ==> n > 0
  {
    var n := LineLength(brk, t);
    if n == |t| then n
    else if t[n] == '\r' && n + 1 < |t| && t[n + 1] == '\n' then n + 2
    else n + 1
  }

  function Lines(t: string): seq<string>
    decreases |t|
  {
    if t == "" then [] else [t[..LineLength(TextBreak, t)]] + Lines(t[LineEnd(TextBreak, t)..])
  }

  // --- The writer -------------------------------------------------------------------------------------------

  datatype Written = Wrote(file: string) | Refused

  /** What the writer finds among the lines: nothing, its own record, or a reason to stop. */
  datatype Scan = Absent | Present | Conflict

  ghost function ScanLines(lines: seq<string>, a: Attempt): Scan {
    if lines == [] then Absent
    else match Parse(lines[0])
    case Rejected => Conflict
    case Loaded(v) =>
      if v.Obj? && Find(v.fields, "attempt_id") == Some(Str(a.id)) then
        if Same(v, Obj(Fields(a))) then Present else Conflict
      else ScanLines(lines[1..], a)
  }

  /** `_append_attempt`. */
  ghost function Append(file: string, a: Attempt): Written {
    match ScanLines(Lines(file), a)
    case Conflict => Refused
    case Present => Wrote(file)
    case Absent => Wrote(file + LineText(a) + "\n")
  }

  // --- The validator ----------------------------------------------------------------------------------------

  /** The pinned qualification: the digest of the index snapshot, and what the selected record must say. */
  datatype Pin = Pin(index: string, id: string, retained: string, record: string, selection: string, charged: int)

  /** The first prefix that ends at a line boundary and has the pinned digest. */
  function FirstMatch(h: string -> string, pinned: string, done: string, rest: string): Option<string>
    decreases |rest|
  {
    if rest == "" then None
    else
      var n := LineEnd(ByteBreak, rest);
      if h(done + rest[..n]) == pinned then Some(done + rest[..n])
      else FirstMatch(h, pinned, done + rest[..n], rest[n..])
  }

  function ReadLines(lines: seq<string>): Option<seq<Attempt>> {
    if lines == [] then Some([])
    else
      var first, tail := ReadLine(lines[0]), ReadLines(lines[1..]);
      if first.None? || tail.None? then None else Some([first.value] + tail.value)
  }

  predicate DistinctIds(attempts: seq<Attempt>) {
    forall i, j :: 0 <= i < j < |attempts| ==> attempts[i].id != attempts[j].id
  }

  /** Comparing with `sorted` is comparing neighbours. */
  ghost predicate Chronological(attempts: seq<Attempt>) {
    forall i :: 0 <= i < |attempts| - 1 ==> !Below(attempts[i + 1].started, attempts[i].started)
  }

  predicate HasId(attempts: seq<Attempt>, id: string) { exists a :: a in attempts && a.id == id }

  predicate Answers(a: Attempt, q: Pin) {
    && a.id == q.id && a.disposition == "retained_qualification" && a.retained == Some(q.retained)
    && a.record == q.record && a.selection == q.selection && a.charged == q.charged && a.qualified
  }

  /** `_validate_attempt_index`. */
  ghost predicate Validated(h: string -> string, q: Pin, file: string) {
    var prefix := FirstMatch(h, q.index, "", file);
    var attempts := ReadLines(Lines(file));
    && prefix.Some? && attempts.Some?
    && DistinctIds(attempts.value) && Chronological(attempts.value)
    && (exists a :: a in attempts.value && Answers(a, q))
    && ReadLines(Lines(prefix.value)).Some? && HasId(ReadLines(Lines(prefix.value)).value, q.id)
  }

  /** The search for the pinned snapshot, as the loop that grows a prefix line by line. */
  method MatchSnapshot(h: string -> string, pinned: string, file: string) returns (r: Option<string>)
    ensures r == FirstMatch(h, pinned, "", file)
  {
    var prefix, rest := "", file;
    while rest != ""
      invariant FirstMatch(h, pinned, "", file) == FirstMatch(h, pinned, prefix, rest)
      decreases |rest|
    {
      var n := LineEnd(ByteBreak, rest);
      prefix := prefix + rest[..n];
      rest := rest[n..];
      if h(prefix) == pinned { return Some(prefix); }
    }
    return None;
  }

  // --- Files that the writer wrote --------------------------------------------------------------------------

  function Render(attempts: seq<Attempt>): string {
    if attempts == [] then "" else LineText(attempts[0]) + "\n" + Render(attempts[1..])
  }

  /** No separator occurs anywhere in the printed record. */
  predicate Unbroken(a: Attempt) { forall i :: 0 <= i < |LineText(a)| ==> !Separator(LineText(a)[i]) }

  lemma {:induction false} LineLengthIs(brk: char -> bool, t: string, n: nat)
    requires n <= |t| && (forall i :: 0 <= i < n ==> !brk(t[i])) && (n < |t| ==> brk(t[n]))
    ensures LineLength(brk, t) == n
  {}

  /** A line feed ends a record's line, for both kinds of reader, when no separator is in it. */
  lemma FirstLine(a: Attempt, rest: string)
    ensures
      var t := LineText(a) + "\n" + rest;
      && LineEnd(ByteBreak, t) == |LineText(a)| + 1
      && t[..|LineText(a)| + 1] == LineText(a) + "\n" && t[|LineText(a)| + 1..] == rest
  {
    var t, n := LineText(a) + "\n" + rest, |LineText(a)|;
    LineTextClean(a);
    assert forall i :: 0 <= i < n ==> t[i] == LineText(a)[i];
    LineLengthIs(ByteBreak, t, n);
  }

  lemma FirstTextLine(a: Attempt, rest: string)
    requires Unbroken(a)
    ensures Lines(LineText(a) + "\n" + rest) == [LineText(a)] + Lines(rest)
  {
    var t, n := LineText(a) + "\n" + rest, |LineText(a)|;
    LineTextClean(a);
    forall i | 0 <= i < n ensures !TextBreak(t[i]) { assert t[i] == LineText(a)[i] && !Separator(LineText(a)[i]); }
    LineLengthIs(TextBreak, t, n);
    assert t[..n] == LineText(a) && t[n + 1..] == rest;
  }

  /** Text and byte readers see the same lines, the ones that were written. */
  lemma {:induction false} RenderedLines(attempts: seq<Attempt>)
    requires forall a :: a in attempts ==> Unbroken(a) && Sane(a)
    ensures ReadLines(Lines(Render(attempts))) == Some(attempts)
  {
    if attempts != [] {
      var a := attempts[0];
      assert a in attempts;
      FirstTextLine(a, Render(attempts[1..]));
      ReadsBack(a);
      RenderedLines(attempts[1..]);
      assert attempts == [a] + attempts[1..];
      var lines := Lines(Render(attempts));
      assert lines[0] == LineText(a) && lines[1..] == Lines(Render(attempts[1..]));
    }
  }

  lemma {:induction false} RenderConcat(a: seq<Attempt>, b: seq<Attempt>)
    ensures Render(a + b) == Render(a) + Render(b)
    decreases |a|
  {
    hide LineText;
    if a == [] {
      assert a + b == b;
    } else {
      RenderConcat(a[1..], b);
      assert (a + b)[1..] == a[1..] + b;
      Regroup(LineText(a[0]) + "\n", Render(a[1..]), Render(b));
    }
  }

  lemma Regroup(x: string, y: string, z: string)
    ensures x + (y + z) == x + y + z
  {}

  // --- The snapshot is found again --------------------------------------------------------------------------

  ghost predicate Injective(h: string -> string) { forall x, y :: h(x) == h(y) ==> x == y }

  /** The search meets every earlier state of the file, and stops at the pinned one. */
  lemma {:induction false} SnapshotFound(h: string -> string, done: string, earlier: seq<Attempt>, later: seq<Attempt>)
    requires Injective(h) && earlier != []
    ensures FirstMatch(h, h(done + Render(earlier)), done, Render(earlier + later)) == Some(done + Render(earlier))
    decreases |earlier|
  {
    hide LineEnd, LineText;
    var a, pinned := earlier[0], h(done + Render(earlier));
    var rest := Render(earlier[1..] + later);
    assert (earlier + later)[1..] == earlier[1..] + later;
    FirstLine(a, rest);
    var next := done + (LineText(a) + "\n");
    assert next + Render(earlier[1..]) == done + Render(earlier);
    if |earlier| == 1 {
      assert next + "" == next;
    } else {
      SnapshotFound(h, next, earlier[1..], later);
      LineTextClean(earlier[1]);
      assert Render(earlier[1..]) != "";
      assert |next| < |done + Render(earlier)|;
    }
  }

  // --- Separators -------------------------------------------------------------------------------------------

  /** A separator inside a record makes text readers see a line that is no record at all. */
  lemma {:induction false} BrokenUnread(attempts: seq<Attempt>)
    requires exists a :: a in attempts && !Unbroken(a)
    ensures ReadLines(Lines(Render(attempts))) == None
  {
    var a, rest := attempts[0], Render(attempts[1..]);
    var t := LineText(a) + "\n" + rest;
    if Unbroken(a) {
      FirstTextLine(a, rest);
      BrokenUnread(attempts[1..]);
      var lines := Lines(t);
      assert lines[1..] == Lines(rest);
    } else {
      var n := LineLength(TextBreak, t);
      FirstBreakInside(a, rest);
      CutLineUnread(a, n);
      assert t[..n] == LineText(a)[..n];
      assert Lines(t)[0] == LineText(a)[..n];
    }
  }

  lemma FirstBreakInside(a: Attempt, rest: string)
    requires !Unbroken(a)
    ensures LineLength(TextBreak, LineText(a) + "\n" + rest) < |LineText(a)|
  {
    var t := LineText(a) + "\n" + rest;
    var i :| 0 <= i < |LineText(a)| && Separator(LineText(a)[i]);
    assert t[i] == LineText(a)[i] && TextBreak(t[i]);
  }

  // --- Agreement over time ------------------------------------------------------------------------------------

  ghost predicate Pinned(h: string -> string, q: Pin, earlier: seq<Attempt>) {
    q.index == h(Render(earlier)) && exists a :: a in earlier && Answers(a, q)
  }

  lemma {:induction false} PinnedPrefix(h: string -> string, q: Pin, earlier: seq<Attempt>, later: seq<Attempt>)
    requires Injective(h) && Pinned(h, q, earlier)
    ensures FirstMatch(h, q.index, "", Render(earlier + later)) == Some(Render(earlier))
  {
    SnapshotFound(h, "", earlier, later);
    assert "" + Render(earlier) == Render(earlier);
  }

  lemma {:induction false} UnbrokenValidates(h: string -> string, q: Pin, earlier: seq<Attempt>, later: seq<Attempt>)
    requires Injective(h) && Pinned(h, q, earlier) && DistinctIds(earlier + later)
    requires forall a :: a in earlier + later ==> Sane(a) && Unbroken(a)
    ensures Validated(h, q, Render(earlier + later)) <==> Chronological(earlier + later)
  {
    PinnedPrefix(h, q, earlier, later);
    RenderedLines(earlier + later);
    assert forall a :: a in earlier ==> a in earlier + later;
    RenderedLines(earlier);
  }

  /** A record pinned to an earlier snapshot that holds it validates against every later state of the index
      if and only if no record in it contains a separator and its start times never decrease. */
  lemma {:induction false} LaterStateValidates(h: string -> string, q: Pin, earlier: seq<Attempt>, later: seq<Attempt>)
    requires Injective(h) && Pinned(h, q, earlier) && DistinctIds(earlier + later)
    requires forall a :: a in earlier + later ==> Sane(a)
    ensures Validated(h, q, Render(earlier + later)) <==>
      Chronological(earlier + later) && forall a :: a in earlier + later ==> Unbroken(a)
  {
    if forall a :: a in earlier + later ==> Unbroken(a) {
      UnbrokenValidates(h, q, earlier, later);
    } else {
      BrokenUnread(earlier + later);
    }
  }

  // --- The writer keeps it so ---------------------------------------------------------------------------------

  /** What a printed record reads back as. */
  lemma LineParses(b: Attempt)
    ensures Parse(LineText(b)) == Loaded(Obj(NormFields(Fields(b))))
  {
    DocumentPrints(b);
    RoundTrip(Obj(Fields(b)));
  }

  lemma {:induction false} NoDecimalIsExact(fields: seq<Field<Value>>)
    requires forall f :: f in fields ==> Scalar(f.value)
    ensures Leaves(ExactLeaf, Obj(fields))
  {
    forall i | 0 <= i < |fields| ensures Leaves(ExactLeaf, fields[i].value) { assert Scalar(fields[i].value); }
  }

  lemma {:induction false} NormIsCanon(b: Attempt)
    ensures Obj(NormFields(Fields(b))) == Canon(Obj(Fields(b)))
  {
    DocumentScalar(b);
    ScalarNorm(Fields(b));
  }

  lemma {:induction false} ScalarNorm(fields: seq<Field<Value>>)
    requires forall f :: f in fields ==> Scalar(f.value)
    ensures Obj(NormFields(fields)) == Canon(Obj(fields))
  {
    NoDecimalIsExact(fields);
    CanonLeaves(ExactLeaf, Obj(fields));
    PlainFixed(Canon(Obj(fields)));
  }

  /** It equals the writer's record only when that is the same record. */
  lemma SameRecord(a: Attempt, b: Attempt)
    ensures Same(Obj(NormFields(Fields(b))), Obj(Fields(a))) <==> a == b
  {
    DocumentPrints(a);
    DocumentPrints(b);
    var w := Canon(Obj(Fields(b)));
    CanonOrdered(Obj(Fields(b)));
    OrderedIsKeyed(w);
    CanonOfOrdered(w);
    NormIsCanon(a);
    NormIsCanon(b);
    SameIffCanonEqual(w, Obj(Fields(a)));
    if Canon(Obj(Fields(a))) == w { SameFields(a, b); }
  }

  lemma SameFields(a: Attempt, b: Attempt)
    requires NormFields(Fields(a)) == NormFields(Fields(b))
    ensures a == b
  {
    FieldsFound(a); FieldsFound(b);
    MoreFieldsFound(a); MoreFieldsFound(b);
    RetainedFound(a); RetainedFound(b);
  }

  lemma {:induction false} ScanRendered(attempts: seq<Attempt>, a: Attempt)
    requires forall b :: b in attempts ==> Unbroken(b)
    requires DistinctIds(attempts)
    ensures ScanLines(Lines(Render(attempts)), a) ==
      if !HasId(attempts, a.id) then Absent else if a in attempts then Present else Conflict
  {
    hide Same, Parse, LineText, NormFields, Fields, Find;
    if attempts != [] {
      var b := attempts[0];
      assert b in attempts;
      FirstTextLine(b, Render(attempts[1..]));
      var lines := Lines(Render(attempts));
      assert lines[0] == LineText(b) && lines[1..] == Lines(Render(attempts[1..]));
      LineParses(b);
      SameRecord(a, b);
      FieldsFound(b);
      assert attempts == [b] + attempts[1..];
      ScanRendered(attempts[1..], a);
    }
  }

  /** Appending to an index whose records hold no separator adds the record at its end, unless it is there
      already or another one has its identifier: nothing before it ever changes, and identifiers stay
      distinct. */
  lemma AppendExtends(attempts: seq<Attempt>, a: Attempt)
    requires forall b :: b in attempts ==> Unbroken(b)
    requires DistinctIds(attempts)
    ensures Append(Render(attempts), a) ==
      if !HasId(attempts, a.id) then Wrote(Render(attempts + [a]))
      else if a in attempts then Wrote(Render(attempts)) else Refused
    ensures !HasId(attempts, a.id) ==> DistinctIds(attempts + [a])
  {
    hide ScanLines, Lines, LineText;
    ScanRendered(attempts, a);
    RenderConcat(attempts, [a]);
    assert [a][1..] == [];
    assert LineText(a) + "\n" + "" == LineText(a) + "\n";
    assert Render(attempts) + (LineText(a) + "\n") == Render(attempts) + LineText(a) + "\n";
    if !HasId(attempts, a.id) {
      forall i | 0 <= i < |attempts| ensures attempts[i].id != a.id { assert attempts[i] in attempts; }
    }
  }

  // --- Any sequence of appends ----------------------------------------------------------------------------------

  /** The index after a sequence of calls of the writer; a refused call leaves it alone. */
  ghost function AppendAll(file: string, calls: seq<Attempt>): string {
    if calls == [] then file
    else
      var before := AppendAll(file, calls[..|calls| - 1]);
      match Append(before, calls[|calls| - 1]) case Wrote(after) => after case Refused => before
  }

  /** The records that such calls leave: each identifier keeps its first record. */
  function Kept(attempts: seq<Attempt>, calls: seq<Attempt>): seq<Attempt> {
    if calls == [] then attempts
    else
      var (before, last) := (Kept(attempts, calls[..|calls| - 1]), calls[|calls| - 1]);
      if HasId(before, last.id) then before else before + [last]
  }

  lemma {:induction false} KeptFrom(attempts: seq<Attempt>, calls: seq<Attempt>)
    ensures attempts <= Kept(attempts, calls)
    ensures forall b :: b in Kept(attempts, calls) ==> b in attempts || b in calls
    decreases |calls|
  {
    if calls != [] {
      var init, last := calls[..|calls| - 1], calls[|calls| - 1];
      KeptFrom(attempts, init);
      assert calls == init + [last];
    }
  }

  lemma {:induction false} AppendAllRenders(attempts: seq<Attempt>, calls: seq<Attempt>)
    requires DistinctIds(attempts) && forall b :: b in attempts || b in calls ==> Unbroken(b)
    ensures AppendAll(Render(attempts), calls) == Render(Kept(attempts, calls)) && DistinctIds(Kept(attempts, calls))
    decreases |calls|
  {
    hide Append, Render, Unbroken, DistinctIds, HasId;
    if calls != [] {
      var init, last := calls[..|calls| - 1], calls[|calls| - 1];
      assert calls == init + [last];
      AppendAllRenders(attempts, init);
      KeptFrom(attempts, init);
      AppendExtends(Kept(attempts, init), last);
    }
  }

  /** After any sequence of appends the earlier index is a prefix of the file, and a record pinned to it
      still validates if and only if the start times of the records kept never decrease. */
  lemma {:induction false} PinnedOverAppends(h: string -> string, q: Pin, attempts: seq<Attempt>, calls: seq<Attempt>)
    requires Injective(h) && Pinned(h, q, attempts) && DistinctIds(attempts)
    requires forall a :: a in attempts || a in calls ==> Sane(a) && Unbroken(a)
    ensures Render(attempts) <= AppendAll(Render(attempts), calls)
    ensures Validated(h, q, AppendAll(Render(attempts), calls)) <==> Chronological(Kept(attempts, calls))
  {
    hide Validated, Chronological, Pinned, Injective, Unbroken, Sane, AppendAll, Render;
    AppendAllRenders(attempts, calls);
    KeptFrom(attempts, calls);
    var later := Kept(attempts, calls)[|attempts|..];
    assert Kept(attempts, calls) == attempts + later;
    RenderConcat(attempts, later);
    UnbrokenValidates(h, q, attempts, later);
  }

  // --- In the file's own terms ---------------------------------------------------------------------------------------

  /** Text lines end at these ten characters and at no other. */
  lemma {:induction false} LinesEndAt(c: char)
    ensures |Lines([c, 'a'])| == 2 <==>
      c as int in {0x0A, 0x0B, 0x0C, 0x0D, 0x1C, 0x1D, 0x1E, 0x85, 0x2028, 0x2029}
  {
    var t := [c, 'a'];
    assert t[1..] == ['a'] && t[2..] == [];
    OneLine(['a']);
    if TextBreak(c) {
      LineLengthIs(TextBreak, t, 0);
      assert Lines(t) == [t[..0]] + Lines(t[1..]);
    } else {
      LineLengthIs(TextBreak, t, 2);
      OneLine(t);
    }
  }

  lemma {:induction false} OneLine(t: string)
    requires t != "" && forall i :: 0 <= i < |t| ==> !TextBreak(t[i])
    ensures Lines(t) == [t]
  {
    LineLengthIs(TextBreak, t, |t|);
    assert LineEnd(TextBreak, t) == |t| && t[..|t|] == t && t[|t|..] == "";
  }

  /** What a validated index says of the pinned qualification: one line of the file is its record, qualified, retained
      under the pinned path and digests and charged as pinned; a line of the matched prefix has its identifier; the
      prefix has the pinned digest; no identifier repeats; and no record started before the one above it. */
  lemma {:induction false} ValidatedMeans(h: string -> string, q: Pin, file: string)
    returns (attempts: seq<Attempt>, k: nat)
    requires Validated(h, q, file)
    ensures ReadLines(Lines(file)) == Some(attempts) && k < |attempts|
    ensures
      var a := attempts[k];
      && a.id == q.id && a.disposition == "retained_qualification" && a.retained == Some(q.retained)
      && a.record == q.record && a.selection == q.selection && a.charged == q.charged && a.qualified
    ensures forall i, j :: 0 <= i < j < |attempts| ==> attempts[i].id != attempts[j].id
    ensures forall i :: 0 <= i < |attempts| - 1 ==> !Below(attempts[i + 1].started, attempts[i].started)
    ensures
      var prefix := FirstMatch(h, q.index, "", file);
      && prefix.Some? && prefix.value <= file && h(prefix.value) == q.index
      && ReadLines(Lines(prefix.value)).Some?
      && exists a :: a in ReadLines(Lines(prefix.value)).value && a.id == q.id
  {
    attempts := ReadLines(Lines(file)).value;
    var a :| a in attempts && Answers(a, q);
    k :| 0 <= k < |attempts| && attempts[k] == a;
    MatchIsPrefix(h, q.index, "", file);
    assert "" + file == file;
  }

  lemma {:induction false} MatchIsPrefix(h: string -> string, pinned: string, done: string, rest: string)
    ensures
      var m := FirstMatch(h, pinned, done, rest);
      m.Some? ==> m.value <= done + rest && h(m.value) == pinned
    decreases |rest|
  {
    if rest != "" {
      var n := LineEnd(ByteBreak, rest);
      MatchIsPrefix(h, pinned, done + rest[..n], rest[n..]);
      assert done + rest[..n] + rest[n..] == done + rest;
    }
  }
}
