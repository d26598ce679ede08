/** Ordered batch approvals: each pins the preceding snapshot and is admitted whole or not at all. */
module SpendBatch {
  import opened Options
  import opened Ordering
  import opened Outcomes
  import opened Sequences
  import opened SpendTypes

  function Prefix(b: Approval): string { "pilot:batch-" + b.id + ":" }

  function KeysOf(records: seq<Record>): set<string> { set r | r in records :: r.key }

  /** The inventory is new, valid, in scope, and repeats no operation. */
  ghost predicate InventoryValid(h: Hashes, a: Authority, b: Approval, keys: set<string>) {
    DistinctKeys(b.admissions) && EachAdmissible(h, a, b, keys, |b.admissions|)
  }

  /** What `validate_batch` accepts: this very snapshot is pinned, no provider ceiling falls, the
      inventory is sound, and all of it fits. */
  ghost predicate BatchValid(h: Hashes, a: Authority, b: Approval, s: Snapshot) {
    && BatchIdText(b.id) && b.prior == h.snapshot(s)
    && s.limits.Within(b.limits) && b.limits.Sum() <= b.total
    && b.admissions != []
    && InventoryValid(h, a, b, KeysOf(s.receipts))
    && Add(s.reserved, Totals(b.admissions)).Within(b.limits)
    && Add(s.reserved, Totals(b.admissions)).Sum() <= b.total
  }

  /** The loop that checks each admission against the keys seen so far. */
  method ValidateInventory(h: Hashes, a: Authority, b: Approval, known: set<string>) returns (valid: bool)
    ensures valid <==> InventoryValid(h, a, b, known)
  {
    var keys := known;
    for i := 0 to |b.admissions|
      invariant keys == known + KeysOf(b.admissions[..i])
      invariant EachAdmissible(h, a, b, known, i) && DistinctKeys(b.admissions[..i])
    {
      var record := b.admissions[i];
      TakeMore(b.admissions, i);
      if !ReceiptValid(h, a, record) || record.key in keys || !StartsWith(record.key, Prefix(b)) {
        NotAdmissible(h, a, b, known, i);
        return false;
      }
      NextDistinct(b.admissions[..i], record);
      KeysOfMore(b.admissions[..i], record);
      keys := keys + {record.key};
    }
    TakeAll(b.admissions);
    return true;
  }

  predicate Admissible(h: Hashes, a: Authority, b: Approval, keys: set<string>, r: Record) {
    ReceiptValid(h, a, r) && r.key !in keys && StartsWith(r.key, Prefix(b))
  }

  predicate EachAdmissible(h: Hashes, a: Authority, b: Approval, keys: set<string>, n: nat)
    requires n <= |b.admissions|
  {
    forall i :: 0 <= i < n ==> Admissible(h, a, b, keys, b.admissions[i])
  }

  lemma {:induction false} NotAdmissible(h: Hashes, a: Authority, b: Approval, keys: set<string>, i: nat)
    requires i < |b.admissions|
    requires
      var r := b.admissions[i];
      !ReceiptValid(h, a, r) || r.key in keys + KeysOf(b.admissions[..i]) || !StartsWith(r.key, Prefix(b))
    ensures !InventoryValid(h, a, b, keys)
  {
    var r := b.admissions[i];
    if r.key in KeysOf(b.admissions[..i]) {
      var q :| q in b.admissions[..i] && q.key == r.key;
      var j :| 0 <= j < i && b.admissions[..i][j] == q;
      assert b.admissions[j].key == b.admissions[i].key;
    }
    assert InventoryValid(h, a, b, keys) ==> Admissible(h, a, b, keys, b.admissions[i]);
  }

  lemma {:induction false} NextDistinct(rs: seq<Record>, r: Record)
    requires DistinctKeys(rs) && r.key !in KeysOf(rs)
    ensures DistinctKeys(rs + [r])
  {
    forall i | 0 <= i < |rs| ensures rs[i].key != r.key { assert rs[i] in rs; }
  }

  lemma {:induction false} KeysOfMore(rs: seq<Record>, r: Record)
    ensures KeysOf(rs + [r]) == KeysOf(rs) + {r.key}
  {}

  /** The loop that adds the inventory up. */
  method ProposeTotals(b: Approval, reserved: Money) returns (proposed: Money)
    ensures proposed == Add(reserved, Totals(b.admissions))
  {
    proposed := reserved;
    for i := 0 to |b.admissions|
      invariant proposed == Add(reserved, Totals(b.admissions[..i]))
    {
      proposed := proposed.Plus(b.admissions[i].provider, b.admissions[i].maximum);
      TakeMore(b.admissions, i);
    }
    TakeAll(b.admissions);
  }

  /** `validate_batch`. */
  method ValidateBatch(h: Hashes, a: Authority, b: Approval, s: Snapshot) returns (valid: bool)
    ensures valid <==> BatchValid(h, a, b, s)
  {
    if !BatchIdText(b.id) || b.prior != h.snapshot(s) { return false; }
    if !s.limits.Within(b.limits) || b.total < b.limits.Sum() || b.admissions == [] { return false; }
    valid := ValidateInventory(h, a, b, KeysOf(s.receipts));
    if !valid { return false; }
    var proposed := ProposeTotals(b, s.reserved);
    return proposed.Within(b.limits) && proposed.Sum() <= b.total;
  }

  function AdmissionOf(h: Hashes, b: Approval): Admission { Admission(h.approval(b), b.admissions) }

  /** The documents retained for approval `b` are its own, and complete unless it is the last. */
  predicate FilesAgree(h: Hashes, d: Disk, b: Approval, last: bool) {
    var files := d.Batch(h.approval(b));
    && (files.approval.Some? ==> files.approval.value == b)
    && (files.admission.Some? ==> files == BatchFiles(Some(b), Some(AdmissionOf(h, b))))
    && (files.admission.None? ==> last)
  }

  function Admitted(h: Hashes, d: Disk, b: Approval): seq<Record> {
    if d.Batch(h.approval(b)).admission.Some? then b.admissions else []
  }

  /** The snapshot after one batch: debited only when its admission is retained. */
  function AfterBatch(h: Hashes, d: Disk, b: Approval, s: Snapshot): Snapshot {
    s.(receipts := s.receipts + Admitted(h, d, b),
       reserved := Add(s.reserved, Totals(Admitted(h, d, b))),
       limits := b.limits,
       batches := s.batches + [h.approval(b)])
  }

  /** The snapshot that precedes approval `i`: what the approvals before it leave. */
  function Before(h: Hashes, d: Disk, approvals: seq<Approval>, s: Snapshot, i: nat): Snapshot
    requires i <= |approvals|
  {
    if i == 0 then s else AfterBatch(h, d, approvals[i - 1], Before(h, d, approvals, s, i - 1))
  }

  function PinnedNames(h: Hashes, approvals: seq<Approval>): set<string> { set b | b in approvals :: h.approval(b) }

  function RetainedNames(batches: map<string, BatchFiles>): set<string> {
    set name | name in batches && batches[name] != BatchFiles(None, None) :: name
  }

  /** Every file below `batches/` belongs to a pinned approval. */
  predicate AllPinned(h: Hashes, d: Disk, approvals: seq<Approval>) {
    d.strays == 0 && RetainedNames(d.batches) <= PinnedNames(h, approvals)
  }

  function IdsOf(approvals: seq<Approval>): set<string> { set b | b in approvals :: b.id }

  /** Approval `i` is accepted: valid against the snapshot its predecessors leave, under a new name,
      and the files retained for it are its own. */
  ghost predicate Accepts(h: Hashes, a: Authority, d: Disk, s: Snapshot, i: nat)
    requires i < |a.approvals|
  {
    && BatchValid(h, a, a.approvals[i], Before(h, d, a.approvals, s, i))
    && a.approvals[i].id !in IdsOf(a.approvals[..i])
    && FilesAgree(h, d, a.approvals[i], i + 1 == |a.approvals|)
  }

  ghost predicate AcceptedUpTo(h: Hashes, a: Authority, d: Disk, s: Snapshot, n: nat)
    requires n <= |a.approvals|
    decreases n
  {
    n == 0 || (AcceptedUpTo(h, a, d, s, n - 1) && Accepts(h, a, d, s, n - 1))
  }

  ghost predicate BatchesAccepted(h: Hashes, a: Authority, d: Disk, s: Snapshot) {
    AllPinned(h, d, a.approvals) && AcceptedUpTo(h, a, d, s, |a.approvals|)
  }

  ghost function ApplyBatches(h: Hashes, a: Authority, d: Disk, s: Snapshot): Outcome<Snapshot> {
    if BatchesAccepted(h, a, d, s) then Done(Before(h, d, a.approvals, s, |a.approvals|)) else Refused
  }

  lemma {:induction false} AcceptedEach(h: Hashes, a: Authority, d: Disk, s: Snapshot, n: nat, i: nat)
    requires i < n <= |a.approvals| && AcceptedUpTo(h, a, d, s, n)
    ensures AcceptedUpTo(h, a, d, s, i) && Accepts(h, a, d, s, i)
    decreases n
  {
    hide Accepts;
    if i + 1 < n { AcceptedEach(h, a, d, s, n - 1, i); }
  }

  lemma RefusedEarly(h: Hashes, a: Authority, d: Disk, s: Snapshot, i: nat)
    requires i < |a.approvals| && !Accepts(h, a, d, s, i)
    ensures ApplyBatches(h, a, d, s) == Refused
  {
    if AcceptedUpTo(h, a, d, s, |a.approvals|) { AcceptedEach(h, a, d, s, |a.approvals|, i); }
  }

  /** The loop that debits an admitted batch. */
  method DebitBatch(h: Hashes, d: Disk, b: Approval, s: Snapshot) returns (t: Snapshot)
    ensures t == AfterBatch(h, d, b, s)
  {
    var receipts, totals := s.receipts, s.reserved;
    if d.Batch(h.approval(b)).admission.Some? {
      for k := 0 to |b.admissions|
        invariant receipts == s.receipts + b.admissions[..k]
        invariant totals == Add(s.reserved, Totals(b.admissions[..k]))
      {
        receipts := receipts + [b.admissions[k]];
        totals := totals.Plus(b.admissions[k].provider, b.admissions[k].maximum);
        assert b.admissions[..k + 1][..k] == b.admissions[..k];
      }
      assert b.admissions[..|b.admissions|] == b.admissions;
    } else {
      assert receipts == s.receipts + [];
    }
    t := s.(receipts := receipts, reserved := totals, limits := b.limits, batches := s.batches + [h.approval(b)]);
  }

  /** The body of the loop in `apply_batches`, before the batch is debited. */
  method CheckBatch(h: Hashes, a: Authority, d: Disk, s: Snapshot, i: nat, snapshot: Snapshot,
      ids: set<string>) returns (ok: bool)
    requires i < |a.approvals| && snapshot == Before(h, d, a.approvals, s, i) && ids == IdsOf(a.approvals[..i])
    ensures ok <==> Accepts(h, a, d, s, i)
  {
    var b := a.approvals[i];
    ok := ValidateBatch(h, a, b, snapshot);
    ok := ok && b.id !in ids && FilesAgree(h, d, b, i + 1 == |a.approvals|);
  }

  lemma {:induction false} IdsOfMore(approvals: seq<Approval>, b: Approval)
    ensures IdsOf(approvals + [b]) == IdsOf(approvals) + {b.id}
  {}

  /** Where the loop stands after `i` approvals. */
  ghost predicate Reached(h: Hashes, a: Authority, d: Disk, s: Snapshot, i: nat, snapshot: Snapshot, ids: set<string>) {
    && i <= |a.approvals| && AcceptedUpTo(h, a, d, s, i)
    && snapshot == Before(h, d, a.approvals, s, i) && ids == IdsOf(a.approvals[..i])
  }

  lemma {:induction false} ReachNext(h: Hashes, a: Authority, d: Disk, s: Snapshot, i: nat, snapshot: Snapshot,
      ids: set<string>)
    requires i < |a.approvals| && Reached(h, a, d, s, i, snapshot, ids) && Accepts(h, a, d, s, i)
    ensures Reached(h, a, d, s, i + 1, AfterBatch(h, d, a.approvals[i], snapshot), ids + {a.approvals[i].id})
  {
    hide Accepts, AfterBatch;
    TakeMore(a.approvals, i);
    IdsOfMore(a.approvals[..i], a.approvals[i]);
  }

  /** `apply_batches`: the loop over the approvals, with the running snapshot and the identifiers seen. */
  method RunBatches(h: Hashes, a: Authority, d: Disk, s: Snapshot) returns (r: Outcome<Snapshot>)
    ensures r == ApplyBatches(h, a, d, s)
  {
    hide Accepts, AfterBatch, AllPinned;
    if !AllPinned(h, d, a.approvals) { return Refused; }
    var snapshot, ids := s, {};
    for i := 0 to |a.approvals|
      invariant Reached(h, a, d, s, i, snapshot, ids)
    {
      var ok := CheckBatch(h, a, d, s, i, snapshot, ids);
      if !ok {
        RefusedEarly(h, a, d, s, i);
        return Refused;
      }
      ReachNext(h, a, d, s, i, snapshot, ids);
      ids := ids + {a.approvals[i].id};
      snapshot := DebitBatch(h, d, a.approvals[i], snapshot);
    }
    return Done(snapshot);
  }

  // --- What acceptance adds up to ---------------------------------------------------------------------

  lemma {:induction false} TotalsPositive(records: seq<Record>)
    requires forall r :: r in records ==> r.maximum >= 1
    ensures Totals(records).modal >= 0 && Totals(records).openrouter >= 0
  {
    if records != [] { TotalsPositive(records[..|records| - 1]); }
  }

  /** The records of the first `n` batches whose admission is retained, in approval order. */
  function AdmittedRecords(h: Hashes, d: Disk, approvals: seq<Approval>, n: nat): seq<Record>
    requires n <= |approvals|
  {
    if n == 0 then [] else AdmittedRecords(h, d, approvals, n - 1) + Admitted(h, d, approvals[n - 1])
  }

  /** After any accepted sequence of approvals the snapshot has debited the base and exactly the
      admitted batches, and no provider ceiling has fallen. */
  lemma {:induction false} BatchesConserve(h: Hashes, a: Authority, d: Disk, s: Snapshot, n: nat)
    requires n <= |a.approvals| && AcceptedUpTo(h, a, d, s, n)
    ensures
      var t := Before(h, d, a.approvals, s, n);
      && t.receipts == s.receipts + AdmittedRecords(h, d, a.approvals, n)
      && t.reserved == Add(s.reserved, Totals(AdmittedRecords(h, d, a.approvals, n)))
      && s.limits.Within(t.limits)
  {
    hide FilesAgree, InventoryValid, BatchIdText, Admitted;
    if n == 0 {
      assert s.receipts + [] == s.receipts;
    } else {
      hide Totals;
      BatchesConserve(h, a, d, s, n - 1);
      Accumulate(s, AdmittedRecords(h, d, a.approvals, n - 1), Admitted(h, d, a.approvals[n - 1]));
    }
  }

  lemma Accumulate(s: Snapshot, a: seq<Record>, b: seq<Record>)
    ensures s.receipts + a + b == s.receipts + (a + b)
    ensures Add(Add(s.reserved, Totals(a)), Totals(b)) == Add(s.reserved, Totals(a + b))
  {
    TotalsConcat(a, b);
  }

  /** No operation appears twice, in the base or in any accepted batch. */
  lemma {:induction false} BatchesDistinct(h: Hashes, a: Authority, d: Disk, s: Snapshot, n: nat)
    requires n <= |a.approvals| && AcceptedUpTo(h, a, d, s, n) && DistinctKeys(s.receipts)
    ensures DistinctKeys(Before(h, d, a.approvals, s, n).receipts)
  {
    hide FilesAgree, BatchIdText;
    if n > 0 {
      BatchesDistinct(h, a, d, s, n - 1);
      ConcatDistinct(Before(h, d, a.approvals, s, n - 1).receipts, Admitted(h, d, a.approvals[n - 1]));
    }
  }

  /** The snapshot of an accepted sequence stays within the ceilings of its last approval, so no
      remaining amount is negative, whether or not that last batch is admitted yet. */
  lemma BatchesBounded(h: Hashes, a: Authority, d: Disk, s: Snapshot)
    requires BatchesAccepted(h, a, d, s) && a.approvals != []
    ensures
      var t, last := Before(h, d, a.approvals, s, |a.approvals|), a.approvals[|a.approvals| - 1];
      t.limits == last.limits && t.reserved.Within(t.limits) && t.reserved.Sum() <= last.total
  {
    var n := |a.approvals|;
    assert Accepts(h, a, d, s, n - 1);
    TotalsPositive(a.approvals[n - 1].admissions);
  }

  lemma ConcatDistinct(a: seq<Record>, b: seq<Record>)
    requires DistinctKeys(a) && DistinctKeys(b)
    requires forall r :: r in b ==> r.key !in KeysOf(a)
    ensures DistinctKeys(a + b)
  {
    forall i, j | 0 <= i < j < |a + b| ensures (a + b)[i].key != (a + b)[j].key {
      if i < |a| && j >= |a| { assert a[i].key in KeysOf(a) && b[j - |a|] in b; }
    }
  }

  // --- What an approval pins -------------------------------------------------------------------------------

  lemma {:induction false} NamesBefore(h: Hashes, d: Disk, approvals: seq<Approval>, s: Snapshot, n: nat)
    requires n <= |approvals| && s.batches == []
    ensures
      var names := Before(h, d, approvals, s, n).batches;
      |names| == n && forall k :: 0 <= k < n ==> names[k] == h.approval(approvals[k])
  {
    if n > 0 { NamesBefore(h, d, approvals, s, n - 1); }
  }

  ghost predicate Injective(h: Hashes) {
    && (forall x, y :: h.snapshot(x) == h.snapshot(y) ==> x == y)
    && (forall x, y :: h.approval(x) == h.approval(y) ==> x == y)
  }

  lemma PinsItsSnapshot(h: Hashes, a: Authority, d: Disk, s: Snapshot, i: nat,
      b: Authority, e: Disk, t: Snapshot, j: nat)
    requires Injective(h)
    requires i < |a.approvals| && Accepts(h, a, d, s, i)
    requires j < |b.approvals| && Accepts(h, b, e, t, j)
    requires a.approvals[i] == b.approvals[j]
    ensures Before(h, d, a.approvals, s, i) == Before(h, e, b.approvals, t, j)
  {
    hide Before, InventoryValid, FilesAgree, BatchIdText, Totals;
    assert h.snapshot(Before(h, d, a.approvals, s, i)) == h.snapshot(Before(h, e, b.approvals, t, j));
  }

  /** Under collision-free digests one approval fixes its whole past: wherever it is accepted, in any two
      directories and by any two authorities, the same approvals precede it, at the same place in their order, and
      they leave the same receipts, money and ceilings. */
  lemma ApprovalFixesItsPast(h: Hashes, a: Authority, d: Disk, s: Snapshot, i: nat,
      b: Authority, e: Disk, t: Snapshot, j: nat)
    requires Injective(h) && s.batches == t.batches == []
    requires i < |a.approvals| && Accepts(h, a, d, s, i)
    requires j < |b.approvals| && Accepts(h, b, e, t, j)
    requires a.approvals[i] == b.approvals[j]
    ensures i == j && a.approvals[..i] == b.approvals[..j]
    ensures Before(h, d, a.approvals, s, i) == Before(h, e, b.approvals, t, j)
  {
    PinsItsSnapshot(h, a, d, s, i, b, e, t, j);
    NamesBefore(h, d, a.approvals, s, i);
    NamesBefore(h, e, b.approvals, t, j);
    hide Accepts, Before;
    SameNames(h, a.approvals, i, b.approvals, j, Before(h, d, a.approvals, s, i).batches);
  }

  lemma SameNames(h: Hashes, a: seq<Approval>, i: nat, b: seq<Approval>, j: nat, names: seq<string>)
    requires Injective(h) && i <= |a| && j <= |b| && i == |names| == j
    requires forall k :: 0 <= k < i ==> names[k] == h.approval(a[k])
    requires forall k :: 0 <= k < j ==> names[k] == h.approval(b[k])
    ensures a[..i] == b[..j]
  {
    forall k | 0 <= k < i ensures a[k] == b[k] {
      assert names[k] == h.approval(a[k]) == h.approval(b[k]);
    }
  }
}
