/** Histories of one journal directory: any authorities, any operations, any crashes. */
module SpendHistory {
  import opened Options
  import opened Ordering
  import opened Outcomes
  import opened SpendBatch
  import opened SpendJournal
  import opened SpendTypes

  // --- Batches are admitted whole, once ---------------------------------------------------------------

  lemma EarlierNamesDiffer(h: Hashes, a: Authority, d: Disk, s: Snapshot, i: nat)
    requires i + 1 < |a.approvals| && AcceptedUpTo(h, a, d, s, |a.approvals|)
    ensures h.approval(a.approvals[i]) != h.approval(a.approvals[|a.approvals| - 1])
  {
    hide BatchValid, Before, AcceptedUpTo;
    var n := |a.approvals|;
    AcceptedEach(h, a, d, s, n, i);
    AcceptedEach(h, a, d, s, n, n - 1);
    assert a.approvals[i] in a.approvals[..n - 1];
  }

  /** Replacing the files of the last approval by agreeing ones changes nothing before it. */
  lemma ReplaceLast(h: Hashes, a: Authority, d: Disk, c: Disk, s: Snapshot, files: BatchFiles)
    requires a.approvals != [] && BatchesAccepted(h, a, d, s)
    requires c.batches == d.batches[h.approval(a.approvals[|a.approvals| - 1]) := files] && c.strays == d.strays
    requires FilesAgree(h, c, a.approvals[|a.approvals| - 1], true)
    ensures BatchesAccepted(h, a, c, s)
    ensures Before(h, c, a.approvals, s, |a.approvals| - 1) == Before(h, d, a.approvals, s, |a.approvals| - 1)
  {
    hide BatchValid, Before, AfterBatch;
    var n := |a.approvals|;
    forall i | 0 <= i < n - 1
      ensures d.Batch(h.approval(a.approvals[i])) == c.Batch(h.approval(a.approvals[i]))
    {
      EarlierNamesDiffer(h, a, d, s, i);
    }
    BatchesFrame(h, a, d, c, s, n - 1);
    AcceptedEach(h, a, d, s, n, n - 1);
    assert a.approvals[n - 1] in a.approvals;
  }

  ghost predicate ReadyToAdmit(h: Hashes, a: Authority, d: Disk) { a.approvals != [] && Open(h, a, d) }

  function Last(a: Authority): Approval requires a.approvals != [] { a.approvals[|a.approvals| - 1] }

  /** The snapshot that the last approval pins. */
  ghost function Preceding(h: Hashes, a: Authority, d: Disk): Snapshot
    requires a.approvals != []
  {
    Before(h, d, a.approvals, Base(h, a, d), |a.approvals| - 1)
  }

  lemma FilesOfLast(h: Hashes, a: Authority, d: Disk)
    requires ReadyToAdmit(h, a, d)
    ensures FilesAgree(h, d, Last(a), true) && BatchValid(h, a, Last(a), Preceding(h, a, d))
    ensures SnapshotOf(h, a, d) == Done(AfterBatch(h, d, Last(a), Preceding(h, a, d)))
  {
    hide BaseAccepted, Base, BatchValid, AfterBatch, AllPinned;
    assert Accepts(h, a, d, Base(h, a, d), |a.approvals| - 1);
  }

  lemma SnapshotWith(h: Hashes, a: Authority, d: Disk, c: Disk, files: BatchFiles)
    requires ReadyToAdmit(h, a, d)
    requires c == d.(batches := d.batches[h.approval(Last(a)) := files]) && FilesAgree(h, c, Last(a), true)
    ensures ReadyToAdmit(h, a, c) && Preceding(h, a, c) == Preceding(h, a, d)
    ensures SnapshotOf(h, a, c) == Done(AfterBatch(h, c, Last(a), Preceding(h, a, d)))
  {
    hide FilesAgree, BatchValid, AfterBatch, AllPinned, AcceptedUpTo;
    assert BaseAccepted(h, a, c) && Base(h, a, c) == Base(h, a, d);
    ReplaceLast(h, a, d, c, Base(h, a, d), files);
  }

  /** A crash between the two documents of an admission leaves the batch wholly undebited: the journal
      reports what it reported before. */
  lemma ApprovalDebitsNothing(h: Hashes, a: Authority, d: Disk)
    requires ReadyToAdmit(h, a, d)
    ensures SnapshotOf(h, a, WithApproval(h, Last(a), d)) == SnapshotOf(h, a, d)
  {
    FilesOfLast(h, a, d);
    var c := WithApproval(h, Last(a), d);
    SnapshotWith(h, a, d, c, c.Batch(h.approval(Last(a))));
  }

  function AfterAdmission(h: Hashes, a: Authority, d: Disk): Disk
    requires a.approvals != []
  {
    WithAdmission(h, Last(a), WithApproval(h, Last(a), d))
  }

  /** A finished admission debits exactly its inventory on top of the snapshot it pins. */
  lemma AdmissionDebitsAll(h: Hashes, a: Authority, d: Disk)
    requires ReadyToAdmit(h, a, d)
    ensures
      var c := AfterAdmission(h, a, d);
      && Open(h, a, c)
      && SnapshotOf(h, a, c).value.receipts == Preceding(h, a, d).receipts + Last(a).admissions
      && SnapshotOf(h, a, c).value.reserved == Add(Preceding(h, a, d).reserved, Totals(Last(a).admissions))
  {
    FilesOfLast(h, a, d);
    var c := AfterAdmission(h, a, d);
    assert c.batches == d.batches[h.approval(Last(a)) := BatchFiles(Some(Last(a)), Some(AdmissionOf(h, Last(a))))];
    SnapshotWith(h, a, d, c, BatchFiles(Some(Last(a)), Some(AdmissionOf(h, Last(a)))));
  }

  lemma AdmitEnds(h: Hashes, a: Authority, d: Disk)
    requires ReadyToAdmit(h, a, d)
    ensures Final(h, d, Admit(a)) == AfterAdmission(h, a, d)
    ensures
      var c1, c2 := WithApproval(h, Last(a), d), AfterAdmission(h, a, d);
      forall c :: c in Leaves(h, d, Admit(a)) ==> c == d || c == c1 || c == c2 || c.strays > d.strays
  {
    hide Open, AdmissionOf;
  }

  lemma AdmittedTwice(h: Hashes, a: Authority, d: Disk)
    requires a.approvals != []
    ensures AfterAdmission(h, a, WithApproval(h, Last(a), d)) == AfterAdmission(h, a, d)
    ensures AfterAdmission(h, a, AfterAdmission(h, a, d)) == AfterAdmission(h, a, d)
  {
    var b, c := Last(a), WithApproval(h, Last(a), d);
    assert WithApproval(h, b, c) == c;
    var e := WithAdmission(h, b, c);
    assert WithApproval(h, b, e) == e && WithAdmission(h, b, e) == e;
  }

  /** From either side of the crash, admitting again ends in the very directory of an uninterrupted
      admission, and admitting a finished batch changes nothing. */
  lemma AdmissionCompletesOnce(h: Hashes, a: Authority, d: Disk)
    requires ReadyToAdmit(h, a, d)
    ensures
      var c := WithApproval(h, Last(a), d);
      && Final(h, c, Admit(a)) == Final(h, d, Admit(a))
      && Final(h, Final(h, d, Admit(a)), Admit(a)) == Final(h, d, Admit(a))
  {
    ApprovalDebitsNothing(h, a, d);
    AdmissionDebitsAll(h, a, d);
    AdmittedTwice(h, a, d);
    AdmitEnds(h, a, d);
    AdmitEnds(h, a, WithApproval(h, Last(a), d));
    AdmitEnds(h, a, AfterAdmission(h, a, d));
  }

  // --- One step ---------------------------------------------------------------------------------------

  predicate AmendmentsExtend(d: seq<Option<Amendment>>, c: seq<Option<Amendment>>) {
    |c| == |d| && forall j :: 0 <= j < |d| && d[j].Some? ==> c[j] == d[j]
  }

  predicate BatchExtends(f: BatchFiles, g: BatchFiles) {
    (f.approval.Some? ==> g.approval == f.approval) && (f.admission.Some? ==> g.admission == f.admission)
  }

  predicate BatchesExtend(d: Disk, c: Disk) {
    forall name :: name in d.batches ==> BatchExtends(d.batches[name], c.Batch(name))
  }

  /** Nothing retained in `d` is missing or different in `c`. */
  predicate Extends(d: Disk, c: Disk) {
    && (d.plan.Some? ==> c.plan == d.plan)
    && (forall f :: f in d.receipts ==> f in c.receipts)
    && AmendmentsExtend(d.amendments, c.amendments)
    && BatchesExtend(d, c)
    && d.strays <= c.strays
  }

  lemma ExtendsItself(d: Disk)
    ensures Extends(d, d)
  {}

  lemma SameBatchesExtend(d: Disk, c: Disk)
    requires c.batches == d.batches
    ensures BatchesExtend(d, c)
  {}

  lemma BatchPutExtends(d: Disk, name: string, f: BatchFiles)
    requires BatchExtends(d.Batch(name), f)
    ensures BatchesExtend(d, d.(batches := d.batches[name := f]))
  {}

  lemma AdmitExtends(h: Hashes, a: Authority, d: Disk)
    requires ReadyToAdmit(h, a, d)
    ensures Extends(d, WithApproval(h, Last(a), d))
    ensures Extends(d, AfterAdmission(h, a, d))
  {
    FilesOfLast(h, a, d);
    hide Open, BatchValid, AfterBatch, AdmissionOf;
    var name, files := h.approval(Last(a)), d.Batch(h.approval(Last(a)));
    BatchPutExtends(d, name, files.(approval := Some(Last(a))));
    var both := BatchFiles(Some(Last(a)), Some(AdmissionOf(h, Last(a))));
    BatchPutExtends(d, name, both);
    assert AfterAdmission(h, a, d).batches == d.batches[name := both];
    ExtendsItself(d);
    SameBatchesExtend(d.(batches := d.batches[name := both]), AfterAdmission(h, a, d));
  }

  lemma ConstructExtends(h: Hashes, a: Authority, d: Disk)
    requires a.WellFormed() && Open(h, a, WithPlan(a, d)) && (d.plan.Some? ==> d.plan == Some(a.plan))
    ensures Extends(d, WithPlan(a, d)) && Extends(d, WithAmendment(a, WithPlan(a, d)))
  {
    AmendmentWritten(a, d);
    hide Open, BatchesExtend, AmendmentsExtend;
    SameBatchesExtend(d, WithPlan(a, d));
    SameBatchesExtend(d, WithAmendment(a, WithPlan(a, d)));
    ExtendsItself(d);
  }

  /** The amendment file that is written is absent, or holds the amendment already. */
  lemma AmendmentWritten(a: Authority, d: Disk)
    requires a.WellFormed() && AmendmentsAgree(a, WithPlan(a, d))
    ensures AmendmentsExtend(d.amendments, WithAmendment(a, WithPlan(a, d)).amendments)
    ensures AmendmentsExtend(d.amendments, d.amendments)
  {
    var k := |a.Chain()|;
    if k > 0 { assert AmendmentAgrees(a.Chain(), d.amendments[k - 1], k - 1); }
  }

  lemma TornExtends(d: Disk, c: Disk)
    requires Extends(d, c)
    ensures Extends(d, Torn(c))
  {
    forall name | name in d.batches ensures BatchExtends(d.batches[name], Torn(c).Batch(name)) {}
  }

  lemma AdmitStepExtends(h: Hashes, a: Authority, d: Disk, c: Disk)
    requires c in Leaves(h, d, Admit(a))
    ensures Extends(d, c)
  {
    ExtendsItself(d);
    hide Extends, Open;
    if ReadyToAdmit(h, a, d) {
      AdmitExtends(h, a, d);
      TornExtends(d, d);
      TornExtends(d, WithApproval(h, Last(a), d));
      TornExtends(d, AfterAdmission(h, a, d));
    }
  }

  lemma DebitStepExtends(h: Hashes, a: Authority, d: Disk, r: Record, allowExisting: bool, c: Disk)
    requires c in Leaves(h, d, Debit(a, r, allowExisting))
    ensures Extends(d, c)
  {
    hide Open, Fits, ReceiptValid, InScope;
    InsertElements(Field(h.key(r.key), r), d.receipts);
    assert c.batches == d.batches && c.amendments == d.amendments;
  }

  /** Whatever the event and wherever it stops, it only adds. */
  lemma StepExtends(h: Hashes, d: Disk, e: Event, c: Disk)
    requires c in Leaves(h, d, e)
    ensures Extends(d, c)
  {
    match e {
      case Construct(a) => if c != d && c != WithPlan(a, d) { ConstructExtends(h, a, d); }
      case Debit(a, r, allowExisting) => DebitStepExtends(h, a, d, r, allowExisting, c);
      case Admit(a) => AdmitStepExtends(h, a, d, c);
    }
  }

  lemma ExtendsTransitive(a: Disk, b: Disk, c: Disk)
    requires Extends(a, b) && Extends(b, c)
    ensures Extends(a, c)
  {
    BatchesExtendTransitive(a, b, c);
  }

  lemma BatchesExtendTransitive(a: Disk, b: Disk, c: Disk)
    requires BatchesExtend(a, b) && BatchesExtend(b, c)
    ensures BatchesExtend(a, c)
  {
    forall name | name in a.batches ensures BatchExtends(a.batches[name], c.Batch(name)) {
      if name in b.batches { assert BatchExtends(b.batches[name], c.Batch(name)); }
    }
  }

  /** The journal is append-only: along any history, under any authorities and with crashes anywhere,
      every document retained at one time is there unchanged at every later time. */
  lemma {:induction false} AppendOnly(h: Hashes, events: seq<Event>, disks: seq<Disk>, i: nat, j: nat)
    requires Run(h, events, disks) && i <= j < |disks|
    ensures Extends(disks[i], disks[j])
    decreases j
  {
    hide Leaves, Extends;
    if i < j {
      AppendOnly(h, events, disks, i, j - 1);
      StepExtends(h, disks[j - 1], events[j - 1], disks[j]);
      ExtendsTransitive(disks[i], disks[j - 1], disks[j]);
    } else {
      ExtendsItself(disks[i]);
    }
  }

  // --- One receipt for each operation --------------------------------------------------------------------

  ghost predicate Sound(h: Hashes, d: Disk) {
    && |d.amendments| == VERSIONS
    && KeySorted(d.receipts)
    && forall f :: f in d.receipts ==> f.key == h.key(f.value.key)
  }

  lemma StepSound(h: Hashes, d: Disk, e: Event, c: Disk)
    requires c in Leaves(h, d, e) && Sound(h, d)
    ensures Sound(h, c)
  {
    hide Open, Fits, ReceiptValid, InScope, PlanValid;
    if e.Debit? && c != d {
      var f := Field(h.key(e.record.key), e.record);
      InsertElements(f, d.receipts);
      forall i | 0 <= i < |d.receipts| ensures d.receipts[i].key != f.key {
        assert d.receipts[i] in d.receipts;
      }
      InsertSorted(f, d.receipts);
    }
  }

  lemma EmptySound(h: Hashes)
    ensures Sound(h, EmptyDisk())
  {}

  lemma {:induction false} RunSound(h: Hashes, events: seq<Event>, disks: seq<Disk>, i: nat)
    requires Run(h, events, disks) && disks[0] == EmptyDisk() && i < |disks|
    ensures Sound(h, disks[i])
    decreases i
  {
    EmptySound(h);
    hide Leaves, Sound;
    if i > 0 {
      RunSound(h, events, disks, i - 1);
      StepSound(h, disks[i - 1], events[i - 1], disks[i]);
    }
  }

  lemma SoundKeysDistinct(h: Hashes, d: Disk)
    requires Sound(h, d)
    ensures DistinctKeys(Records(d.receipts))
  {
    SortedIsUnique(d.receipts);
    var records := Records(d.receipts);
    forall i, j | 0 <= i < j < |records| ensures records[i].key != records[j].key {
      assert d.receipts[i] in d.receipts && d.receipts[j] in d.receipts;
    }
  }

  /** In every reachable directory no operation key is debited twice: not in the base journal, not in a
      batch, not across the two. */
  lemma OneReceiptPerOperation(h: Hashes, events: seq<Event>, disks: seq<Disk>, i: nat, a: Authority)
    requires Run(h, events, disks) && disks[0] == EmptyDisk() && i < |disks|
    requires Open(h, a, disks[i])
    ensures DistinctKeys(SnapshotOf(h, a, disks[i]).value.receipts)
  {
    RunSound(h, events, disks, i);
    SoundKeysDistinct(h, disks[i]);
    BatchesDistinct(h, a, disks[i], Base(h, a, disks[i]), |a.approvals|);
  }

  // --- What a snapshot promises -----------------------------------------------------------------------

  /** A snapshot that is accepted accounts for exactly what is retained: the receipts on file and the
      admitted batches, less the releases. Nothing remaining is negative, and the total in force holds. */
  lemma SnapshotAccounts(h: Hashes, a: Authority, d: Disk)
    requires Open(h, a, d)
    ensures
      var s := SnapshotOf(h, a, d).value;
      var batched := AdmittedRecords(h, d, a.approvals, |a.approvals|);
      && s.receipts == Records(d.receipts) + batched
      && s.reserved == Add(Debited(a, d), Totals(batched))
      && s.Remaining().modal >= 0 && s.Remaining().openrouter >= 0
      && s.reserved.Sum() <= (if a.approvals == [] then a.Total() else Last(a).total)
      && a.Limits().Within(s.limits)
  {
    BatchesConserve(h, a, d, Base(h, a, d), |a.approvals|);
    if a.approvals != [] { BatchesBounded(h, a, d, Base(h, a, d)); }
  }

  // --- Reserving again ----------------------------------------------------------------------------------

  lemma NameIdentifies(s: seq<Field<Record>>, f: Field<Record>, g: Field<Record>)
    requires KeySorted(s) && f in s && g in s && f.key == g.key
    ensures f == g
  {
    SortedIsUnique(s);
  }

  /** A successful debit, repeated with the same arguments, changes nothing; without leave to find it
      there, it is refused; and any other record under the same key is refused. */
  lemma ReserveIsIdempotent(h: Hashes, a: Authority, d: Disk, r: Record, other: Record, allowExisting: bool)
    requires Sound(h, d) && Reserve(h, a, d, r, allowExisting).Done?
    ensures
      var c := Reserve(h, a, d, r, allowExisting).value;
      && Field(h.key(r.key), r) in c.receipts
      && Reserve(h, a, c, r, true) == Done(c)
      && Reserve(h, a, c, r, false) == Refused
      && (other.key == r.key && other != r ==> Reserve(h, a, c, other, true) == Refused)
  {
    var f := Field(h.key(r.key), r);
    var c := Reserve(h, a, d, r, allowExisting).value;
    StepSound(h, d, Debit(a, r, allowExisting), c);
    InsertElements(f, d.receipts);
    if f.key !in Names(d.receipts) { DebitKeepsOpen(h, a, d, r); }
    assert f in c.receipts && f.key in Names(c.receipts);
    if Field(f.key, other) in c.receipts { NameIdentifies(c.receipts, f, Field(f.key, other)); }
  }

  // --- An authority's own operations never lock it out ------------------------------------------------------

  lemma AdmitKeepsOpen(h: Hashes, a: Authority, d: Disk, c: Disk)
    requires ReadyToAdmit(h, a, d) && c in Leaves(h, d, Admit(a))
    ensures Open(h, a, c) <==> c.strays == 0
  {
    ApprovalDebitsNothing(h, a, d);
    AdmissionDebitsAll(h, a, d);
    AdmitEnds(h, a, d);
  }

  /** Once an authority has taken a snapshot, its own operations leave it a directory that it can still
      open, wherever they crash, with one exception: a crash inside the two writes of an admission, whose
      temporary file is then counted among the batch files. */
  lemma OwnEventsKeepOpen(h: Hashes, d: Disk, e: Event, c: Disk)
    requires Open(h, e.a, d) && c in Leaves(h, d, e)
    ensures Open(h, e.a, c) <==> c.strays == 0
  {
    assert d.strays == 0;
    match e {
      case Construct(a) =>
        assert d.plan == Some(a.plan) && WithPlan(a, d) == d;
        if a.WellFormed() { ConstructKeepsSnapshot(h, a, d); }
      case Debit(a, r, allowExisting) =>
        if c != d { DebitKeepsOpen(h, a, d, r); }
      case Admit(a) =>
        if ReadyToAdmit(h, a, d) { AdmitKeepsOpen(h, a, d, c); }
    }
  }

  lemma StraysStay(h: Hashes, events: seq<Event>, disks: seq<Disk>, i: nat)
    requires Run(h, events, disks) && i + 1 < |disks|
    ensures disks[i].strays <= disks[i + 1].strays
  {
    AppendOnly(h, events, disks, i, i + 1);
  }

  lemma OpenIsUntorn(h: Hashes, a: Authority, d: Disk)
    requires Open(h, a, d)
    ensures d.strays == 0
  {}

  lemma OwnStep(h: Hashes, a: Authority, d: Disk, e: Event, c: Disk)
    requires (Open(h, a, d) <==> d.strays == 0) && d.strays <= c.strays
    requires e.a == a && c in Leaves(h, d, e)
    ensures Open(h, a, c) <==> c.strays == 0
  {
    if d.strays == 0 { OwnEventsKeepOpen(h, d, e, c); }
  }

  ghost predicate AllBy(a: Authority, events: seq<Event>, n: nat)
    requires n <= |events|
  {
    n == 0 || (AllBy(a, events, n - 1) && events[n - 1].a == a)
  }

  /** A whole history of one authority: it can open the directory at the end exactly when no crash tore
      a batch write. */
  lemma {:induction false} OwnHistoryKeepsOpen(h: Hashes, a: Authority, events: seq<Event>, disks: seq<Disk>, i: nat)
    requires Run(h, events, disks) && Open(h, a, disks[0]) && i < |disks| && AllBy(a, events, i)
    ensures Open(h, a, disks[i]) <==> disks[i].strays == 0
    decreases i
  {
    OpenIsUntorn(h, a, disks[0]);
    hide Leaves, Open, Extends;
    if i > 0 {
      OwnHistoryKeepsOpen(h, a, events, disks, i - 1);
      StraysStay(h, events, disks, i - 1);
      OwnStep(h, a, disks[i - 1], events[i - 1], disks[i]);
    }
  }

  // --- Fences -----------------------------------------------------------------------------------------------

  predicate Lacks(a: Authority, j: nat, x: Amendment) { |a.Chain()| <= j || a.Chain()[j] != x }

  /** A retained amendment fences out, forever, every authority whose chain does not hold it in that
      place. */
  lemma AmendmentFences(h: Hashes, events: seq<Event>, disks: seq<Disk>, i: nat, k: nat, a: Authority, j: nat,
      x: Amendment)
    requires Run(h, events, disks) && i <= k < |disks|
    requires j < |disks[i].amendments| && disks[i].amendments[j] == Some(x) && Lacks(a, j, x)
    ensures !Open(h, a, disks[k])
  {
    AppendOnly(h, events, disks, i, k);
    assert !AmendmentAgrees(a.Chain(), disks[k].amendments[j], j);
  }

  predicate AnyBatchFile(d: Disk) { d.strays > 0 || RetainedNames(d.batches) != {} }

  lemma BatchFilesStay(d: Disk, c: Disk)
    requires Extends(d, c) && AnyBatchFile(d)
    ensures AnyBatchFile(c)
  {
    if RetainedNames(d.batches) != {} {
      var name :| name in RetainedNames(d.batches);
      assert BatchExtends(d.batches[name], c.Batch(name));
      assert name in RetainedNames(c.batches);
    }
  }

  lemma BatchFileStopsDebits(h: Hashes, d: Disk, e: Event, c: Disk)
    requires AnyBatchFile(d) && c in Leaves(h, d, e)
    ensures c.receipts == d.receipts
  {
    hide Open, Fits, ReceiptValid, InScope, PlanValid, AnyBatchFile;
    if e.Debit? && e.a.approvals == [] && Open(h, e.a, d) { OpenWithoutBatches(h, e.a, d); }
  }

  lemma OpenWithoutBatches(h: Hashes, a: Authority, d: Disk)
    requires Open(h, a, d) && a.approvals == []
    ensures !AnyBatchFile(d)
  {
    assert PinnedNames(h, a.approvals) == {};
  }

  /** Once any file exists below `batches/` the base journal never grows again, under any authority. */
  lemma {:induction false} BatchFreezesBase(h: Hashes, events: seq<Event>, disks: seq<Disk>, i: nat, j: nat)
    requires Run(h, events, disks) && i <= j < |disks| && AnyBatchFile(disks[i])
    ensures disks[j].receipts == disks[i].receipts
    decreases j
  {
    hide Leaves, Extends, AnyBatchFile;
    if i < j {
      BatchFreezesBase(h, events, disks, i, j - 1);
      AppendOnly(h, events, disks, i, j - 1);
      BatchFilesStay(disks[i], disks[j - 1]);
      BatchFileStopsDebits(h, disks[j - 1], events[j - 1], disks[j]);
    }
  }

  // --- One history --------------------------------------------------------------------------------------------

  ghost predicate DigestsDistinguish(h: Hashes) {
    && (forall x, y :: h.snapshot(x) == h.snapshot(y) ==> x == y)
    && (forall x, y :: h.approval(x) == h.approval(y) ==> x == y)
  }

  /** The snapshot before approval `i` names `i` batches, and keeps what it says of the base. */
  lemma {:induction false} BeforeShape(h: Hashes, d: Disk, approvals: seq<Approval>, s: Snapshot, i: nat)
    requires i <= |approvals|
    ensures
      var t := Before(h, d, approvals, s, i);
      |t.batches| == |s.batches| + i && t.plan == s.plan && t.amendment == s.amendment && t.released == s.released
    decreases i
  {
    if i > 0 { BeforeShape(h, d, approvals, s, i - 1); }
  }

  lemma AgreedSnapshot(h: Hashes, a: Authority, b: Authority, d: Disk, i: nat, k: nat)
    requires DigestsDistinguish(h) && Open(h, a, d) && Open(h, b, d)
    requires i < |a.approvals| && k < |b.approvals| && a.approvals[i] == b.approvals[k]
    ensures i == k && Before(h, d, a.approvals, Base(h, a, d), i) == Before(h, d, b.approvals, Base(h, b, d), k)
  {
    AcceptedEach(h, a, d, Base(h, a, d), |a.approvals|, i);
    AcceptedEach(h, b, d, Base(h, b, d), |b.approvals|, k);
    BeforeShape(h, d, a.approvals, Base(h, a, d), i);
    BeforeShape(h, d, b.approvals, Base(h, b, d), k);
  }

  /** Two authorities that both open a directory agree on its past: an approval that one of them pins and
      that has left a file stands in the same place for the other, and both act under the same plan
      digest, amendment and releases. */
  lemma AgreedHistory(h: Hashes, a: Authority, b: Authority, d: Disk, i: nat)
    requires DigestsDistinguish(h) && Open(h, a, d) && Open(h, b, d)
    requires i < |a.approvals| && h.approval(a.approvals[i]) in RetainedNames(d.batches)
    ensures i < |b.approvals| && b.approvals[i] == a.approvals[i]
    ensures h.plan(a.plan) == h.plan(b.plan) && Base(h, a, d).amendment == Base(h, b, d).amendment
    ensures a.Released() == b.Released()
  {
    var x :| x in b.approvals && h.approval(x) == h.approval(a.approvals[i]);
    var k :| 0 <= k < |b.approvals| && b.approvals[k] == x;
    AgreedSnapshot(h, a, b, d, i, k);
    BeforeShape(h, d, a.approvals, Base(h, a, d), i);
    BeforeShape(h, d, b.approvals, Base(h, b, d), k);
  }
}
