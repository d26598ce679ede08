/** The spend journal: what a snapshot accepts, and what each operation leaves in the directory. */
module SpendJournal {
  import opened Options
  import opened Ordering
  import opened Outcomes
  import opened SpendBatch
  import opened SpendTypes

  // --- Snapshots ----------------------------------------------------------------------------------

  function Records(files: seq<Field<Record>>): seq<Record> {
    seq(|files|, i requires 0 <= i < |files| => files[i].value)
  }

  /** Amendment file `j` is retained only as the pinned chain has it, and every file before the one in
      force must be there. */
  predicate AmendmentAgrees(chain: seq<Amendment>, file: Option<Amendment>, j: nat) {
    && (file.Some? ==> j < |chain| && file.value == chain[j])
    && (j + 1 < |chain| ==> file.Some?)
  }

  predicate AmendmentsAgree(a: Authority, d: Disk) {
    && |d.amendments| == VERSIONS
    && forall j :: 0 <= j < VERSIONS ==> AmendmentAgrees(a.Chain(), d.amendments[j], j)
  }

  predicate FileValid(h: Hashes, a: Authority, f: Field<Record>) {
    ReceiptValid(h, a, f.value) && f.key == h.key(f.value.key)
  }

  predicate FilesValid(h: Hashes, a: Authority, d: Disk) {
    forall f :: f in d.receipts ==> FileValid(h, a, f)
  }

  /** A new operation under a retry must be in the scope of its last amendment and, from version eleven
      on, in its exact inventory. */
  predicate InScope(h: Hashes, a: Authority, r: Record) {
    var chain := a.Chain();
    chain != [] ==>
      && (|| StartsWith(r.key, "pilot:retry-" + h.amendment(chain[|chain| - 1]) + ":")
          || StartsWith(r.key, "pilot:" + chain[|chain| - 1].runId + ":compute:"))
      && (|chain| >= 11 ==> a.retry.value.permits(r))
  }

  /** The records whose key is in `keys`, in order. */
  function OfKeys(records: seq<Record>, keys: set<string>): seq<Record> {
    if records == [] then []
    else
      var last := records[|records| - 1];
      OfKeys(records[..|records| - 1], keys) + if last.key in keys then [last] else []
  }

  predicate PriorHeld(h: Hashes, a: Authority, d: Disk) {
    a.retry.Some? ==>
      && OfKeys(Records(d.receipts), a.PriorKeys()) == a.retry.value.prior
      && forall f :: f in d.receipts ==> f.value.key in a.PriorKeys() || InScope(h, a, f.value)
  }

  function Debited(a: Authority, d: Disk): Money { Totals(Records(d.receipts)).Minus(a.Released()) }

  predicate BaseAccepted(h: Hashes, a: Authority, d: Disk) {
    && AmendmentsAgree(a, d) && d.plan == Some(a.plan)
    && FilesValid(h, a, d) && PriorHeld(h, a, d)
    && Debited(a, d).Within(a.Limits()) && Debited(a, d).Sum() <= a.Total()
  }

  function Base(h: Hashes, a: Authority, d: Disk): Snapshot {
    var chain := a.Chain();
    Snapshot(h.plan(a.plan), if chain == [] then None else Some(chain[|chain| - 1]), a.Released(),
             Debited(a, d), a.Limits(), Records(d.receipts), [])
  }

  ghost function SnapshotOf(h: Hashes, a: Authority, d: Disk): Outcome<Snapshot> {
    if BaseAccepted(h, a, d) then ApplyBatches(h, a, d, Base(h, a, d)) else Refused
  }

  ghost predicate Open(h: Hashes, a: Authority, d: Disk) { SnapshotOf(h, a, d).Done? }

  // --- Operations ---------------------------------------------------------------------------------

  function Names(files: seq<Field<Record>>): set<string> { set f | f in files :: f.key }

  predicate Fits(a: Authority, d: Disk, r: Record) {
    && Debited(a, d).Of(r.provider) + r.maximum <= a.Limits().Of(r.provider)
    && Debited(a, d).Sum() + r.maximum <= a.Total()
  }

  /** `reserve`: the directory it leaves, or a refusal that leaves it alone. */
  ghost function Reserve(h: Hashes, a: Authority, d: Disk, r: Record, allowExisting: bool): Outcome<Disk> {
    var file := Field(h.key(r.key), r);
    if a.approvals != [] || !ReceiptValid(h, a, r) || !InScope(h, a, r) || !Open(h, a, d) then Refused
    else if file.key in Names(d.receipts) then if file in d.receipts && allowExisting then Done(d) else Refused
    else if Fits(a, d, r) then Done(d.(receipts := Insert(file, d.receipts)))
    else Refused
  }

  predicate PlanValid(p: Plan) {
    KeyText(p.id) && p.limits.modal >= 1 && p.limits.openrouter >= 1 && p.limits.Sum() <= p.total
  }

  function WithPlan(a: Authority, d: Disk): Disk { d.(plan := Some(a.plan)) }

  function WithAmendment(a: Authority, d: Disk): Disk {
    var k := |a.Chain()|;
    if 1 <= k <= |d.amendments| then d.(amendments := d.amendments[k - 1 := Some(a.Chain()[k - 1])]) else d
  }

  function WithApproval(h: Hashes, b: Approval, d: Disk): Disk {
    d.(batches := d.batches[h.approval(b) := d.Batch(h.approval(b)).(approval := Some(b))])
  }

  function WithAdmission(h: Hashes, b: Approval, d: Disk): Disk {
    d.(batches := d.batches[h.approval(b) := d.Batch(h.approval(b)).(admission := Some(AdmissionOf(h, b)))])
  }

  /** A crash inside a retained write below `batches/` leaves its temporary file there. */
  function Torn(d: Disk): Disk { d.(strays := d.strays + 1) }

  datatype Event =
    | Construct(a: Authority)
    | Debit(a: Authority, record: Record, allowExisting: bool)
    | Admit(a: Authority)

  /** Every directory that the event can leave, in the order of its durable writes: the last one when it
      runs to its end, an earlier or a torn one when it crashes. */
  ghost function Leaves(h: Hashes, d: Disk, e: Event): seq<Disk> {
    match e
    case Construct(a) =>
      if !PlanValid(a.plan) || !a.WellFormed() || (d.plan.Some? && d.plan != Some(a.plan)) then [d]
      else if !Open(h, a, WithPlan(a, d)) then [d, WithPlan(a, d)]
      else [d, WithPlan(a, d), WithAmendment(a, WithPlan(a, d))]
    case Debit(a, r, allowExisting) =>
      var after := Reserve(h, a, d, r, allowExisting);
      if after.Done? then [d, after.value] else [d]
    case Admit(a) =>
      if a.approvals == [] || !Open(h, a, d) then [d]
      else
        var b := a.approvals[|a.approvals| - 1];
        var d1 := WithApproval(h, b, d);
        var d2 := WithAdmission(h, b, d1);
        [d, Torn(d), d1, Torn(d1), Torn(d2), d2]
  }

  ghost function Final(h: Hashes, d: Disk, e: Event): Disk { Leaves(h, d, e)[|Leaves(h, d, e)| - 1] }

  /** A history of the directory: each event, under whatever authority, ends or crashes somewhere. */
  ghost predicate Run(h: Hashes, events: seq<Event>, disks: seq<Disk>) {
    && |disks| == |events| + 1
    && forall i :: 0 <= i < |events| ==> disks[i + 1] in Leaves(h, disks[i], events[i])
  }

  // --- Facts about records ------------------------------------------------------------------------

  lemma {:induction false} InsertSplits(f: Field<Record>, s: seq<Field<Record>>) returns (k: nat)
    ensures k <= |s| && Insert(f, s) == s[..k] + [f] + s[k..]
  {
    if s != [] && Below(s[0].key, f.key) {
      var m := InsertSplits(f, s[1..]);
      k := m + 1;
      assert s[..k] == [s[0]] + s[1..][..m] && s[k..] == s[1..][m..];
    } else {
      k := 0;
    }
  }

  lemma {:induction false} OfKeysConcat(a: seq<Record>, b: seq<Record>, keys: set<string>)
    ensures OfKeys(a + b, keys) == OfKeys(a, keys) + OfKeys(b, keys)
    decreases |b|
  {
    if b == [] {
      assert a + b == a;
    } else {
      OfKeysConcat(a, b[..|b| - 1], keys);
      assert (a + b)[..|a + b| - 1] == a + b[..|b| - 1];
    }
  }

  lemma {:induction false} OfKeysFrom(records: seq<Record>, keys: set<string>, r: Record)
    requires r in OfKeys(records, keys)
    ensures r in records
    decreases |records|
  {
    if r in OfKeys(records[..|records| - 1], keys) { OfKeysFrom(records[..|records| - 1], keys, r); }
  }

  /** The ordered filter of prior receipts does not see an insertion under another key. */
  lemma InsertionIsInvisible(f: Field<Record>, s: seq<Field<Record>>, keys: set<string>)
    requires f.value.key !in keys
    ensures OfKeys(Records(Insert(f, s)), keys) == OfKeys(Records(s), keys)
    ensures Totals(Records(Insert(f, s))) == Totals(Records(s)).Plus(f.value.provider, f.value.maximum)
  {
    var k := InsertSplits(f, s);
    var a, b := Records(s[..k]), Records(s[k..]);
    assert Records(s) == a + b;
    assert Records(Insert(f, s)) == a + [f.value] + b;
    OfKeysConcat(a, b, keys);
    OfKeysConcat(a, [f.value], keys);
    OfKeysConcat(a + [f.value], b, keys);
    TotalsInsert(a, f.value, b);
  }

  /** A record under a prior key is already on file, so it is never inserted again. */
  lemma PriorIsOnFile(h: Hashes, a: Authority, d: Disk, key: string)
    requires BaseAccepted(h, a, d) && key in a.PriorKeys()
    ensures h.key(key) in Names(d.receipts)
  {
    var r :| r in a.retry.value.prior && r.key == key;
    OfKeysFrom(Records(d.receipts), a.PriorKeys(), r);
    var i :| 0 <= i < |d.receipts| && Records(d.receipts)[i] == r;
    assert d.receipts[i] in d.receipts;
  }

  // --- A directory that an authority has opened stays open to it ------------------------------------

  /** Batches read nothing of the directory but the files of the approvals they go through. */
  lemma {:induction false} BatchesFrame(h: Hashes, a: Authority, d: Disk, c: Disk, s: Snapshot, n: nat)
    requires n <= |a.approvals|
    requires forall i :: 0 <= i < n ==> d.Batch(h.approval(a.approvals[i])) == c.Batch(h.approval(a.approvals[i]))
    ensures Before(h, d, a.approvals, s, n) == Before(h, c, a.approvals, s, n)
    ensures AcceptedUpTo(h, a, d, s, n) <==> AcceptedUpTo(h, a, c, s, n)
    decreases n
  {
    hide BatchValid;
    if n > 0 { BatchesFrame(h, a, d, c, s, n - 1); }
  }

  lemma BatchesUnmoved(h: Hashes, a: Authority, d: Disk, c: Disk, s: Snapshot)
    requires d.batches == c.batches && d.strays == c.strays
    ensures ApplyBatches(h, a, d, s) == ApplyBatches(h, a, c, s)
  {
    BatchesFrame(h, a, d, c, s, |a.approvals|);
    assert AllPinned(h, d, a.approvals) == AllPinned(h, c, a.approvals);
  }

  lemma AmendmentKept(a: Authority, d: Disk)
    requires a.WellFormed() && AmendmentsAgree(a, d)
    ensures AmendmentsAgree(a, WithAmendment(a, d))
  {}

  lemma ConstructKeepsSnapshot(h: Hashes, a: Authority, d: Disk)
    requires Open(h, a, d) && a.WellFormed()
    ensures SnapshotOf(h, a, WithAmendment(a, d)) == SnapshotOf(h, a, d)
  {
    AmendmentKept(a, d);
    hide BatchesAccepted, Before, InScope, FileValid, OfKeys, AmendmentsAgree, Totals;
    var c := WithAmendment(a, d);
    assert BaseAccepted(h, a, c) && Base(h, a, c) == Base(h, a, d);
    BatchesUnmoved(h, a, d, c, Base(h, a, d));
  }

  lemma DebitKeepsBase(h: Hashes, a: Authority, d: Disk, r: Record)
    requires BaseAccepted(h, a, d) && ReceiptValid(h, a, r) && InScope(h, a, r)
    requires h.key(r.key) !in Names(d.receipts) && Fits(a, d, r)
    ensures
      var c := d.(receipts := Insert(Field(h.key(r.key), r), d.receipts));
      BaseAccepted(h, a, c) && Debited(a, c) == Debited(a, d).Plus(r.provider, r.maximum)
  {
    hide InScope, ReceiptValid, AmendmentAgrees, OfKeys, Totals;
    var file := Field(h.key(r.key), r);
    var c := d.(receipts := Insert(file, d.receipts));
    if r.key in a.PriorKeys() { PriorIsOnFile(h, a, d, r.key); }
    InsertionIsInvisible(file, d.receipts, a.PriorKeys());
    InsertElements(file, d.receipts);
    assert FilesValid(h, a, c) && PriorHeld(h, a, c);
  }

  /** A debit shows up in the next snapshot as exactly its own amount, and nothing that the snapshot
      checks is disturbed by where its receipt lands among the others. */
  lemma DebitKeepsOpen(h: Hashes, a: Authority, d: Disk, r: Record)
    requires Open(h, a, d) && a.approvals == [] && ReceiptValid(h, a, r) && InScope(h, a, r)
    requires h.key(r.key) !in Names(d.receipts) && Fits(a, d, r)
    ensures
      var c := d.(receipts := Insert(Field(h.key(r.key), r), d.receipts));
      Open(h, a, c) && SnapshotOf(h, a, c).value.reserved ==
          SnapshotOf(h, a, d).value.reserved.Plus(r.provider, r.maximum)
  {
    hide BaseAccepted, ReceiptValid, InScope, Fits;
    DebitKeepsBase(h, a, d, r);
  }
}
