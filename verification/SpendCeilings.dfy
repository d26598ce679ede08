/** The total ceiling over batch approvals: provider ceilings never fall, but the total may. */
module SpendCeilings {
  import opened Options
  import opened Ordering
  import opened Outcomes
  import opened SpendBatch
  import opened SpendHistory
  import opened SpendJournal
  import opened SpendTypes

  /** An operation that the batch `id` can still admit. */
  ghost predicate Admits(h: Hashes, a: Authority, s: Snapshot, id: string, r: Record) {
    && BatchIdText(id) && r.maximum == 1
    && Admissible(h, a, Approval(id, "", s.limits, 0, []), KeysOf(s.receipts), r)
  }

  /** The smallest batch: it raises nothing that it need not raise. */
  function Smallest(h: Hashes, s: Snapshot, id: string, r: Record): Approval {
    var limits := if s.reserved == s.limits then s.limits.Plus(r.provider, 1) else s.limits;
    Approval(id, h.snapshot(s), limits, limits.Sum(), [r])
  }

  lemma {:induction false} SmallestIsValid(h: Hashes, a: Authority, s: Snapshot, id: string, r: Record)
    requires s.reserved.Within(s.limits) && Admits(h, a, s, id, r)
    requires s.reserved == s.limits || s.reserved.Of(r.provider) < s.limits.Of(r.provider)
    ensures BatchValid(h, a, Smallest(h, s, id, r), s)
  {
    TotalsOne(r);
    var b := Smallest(h, s, id, r);
    assert b.admissions[0] == r;
  }

  lemma {:induction false} TotalCoversInventory(h: Hashes, a: Authority, b: Approval, s: Snapshot)
    requires s.reserved.Within(s.limits) && BatchValid(h, a, b, s)
    ensures s.limits.Sum() + (if s.reserved == s.limits then 1 else 0) <= b.total
  {
    InventoryPositive(h, a, b, KeysOf(s.receipts));
  }

  lemma {:induction false} InventoryPositive(h: Hashes, a: Authority, b: Approval, keys: set<string>)
    requires InventoryValid(h, a, b, keys) && b.admissions != []
    ensures
      var t := Totals(b.admissions);
      t.modal >= 0 && t.openrouter >= 0 && t.Sum() >= 1
  {
    var n := |b.admissions| - 1;
    forall r | r in b.admissions ensures r.maximum >= 1 {
      var i :| 0 <= i < |b.admissions| && b.admissions[i] == r;
      assert Admissible(h, a, b, keys, b.admissions[i]);
    }
    TotalsPositive(b.admissions[..n]);
    assert b.admissions[n] in b.admissions;
  }

  ghost predicate EveryBatchKeeps(h: Hashes, a: Authority, s: Snapshot, total: int) {
    forall b :: BatchValid(h, a, b, s) ==> total <= b.total
  }

  /** Whatever total is in force, every batch that can be accepted next keeps it if and only if it is no more
      than the provider ceilings add up to, or one more when they are used up. */
  lemma {:induction false} TotalKeptExactly(h: Hashes, a: Authority, s: Snapshot, total: int, id: string, r: Record)
    requires s.reserved.Within(s.limits) && Admits(h, a, s, id, r)
    ensures EveryBatchKeeps(h, a, s, total) <==> total <= s.limits.Sum() + (if s.reserved == s.limits then 1 else 0)
  {
    var p := if s.reserved.modal < s.limits.modal then Modal else OpenRouter;
    var q := r.(provider := p);
    SmallestIsValid(h, a, s, id, q);
    assert BatchValid(h, a, Smallest(h, s, id, q), s);
    forall b | BatchValid(h, a, b, s)
      ensures s.limits.Sum() + (if s.reserved == s.limits then 1 else 0) <= b.total
    {
      TotalCoversInventory(h, a, b, s);
    }
  }

  /** A total that the provider ceilings of the base reach is kept by every approval of an accepted sequence. */
  lemma {:induction false} SequenceKeepsTotal(h: Hashes, a: Authority, d: Disk, s: Snapshot, total: int, i: nat)
    requires BatchesAccepted(h, a, d, s) && total <= s.limits.Sum() && i < |a.approvals|
    ensures total <= a.approvals[i].total
  {
    AcceptedEach(h, a, d, s, |a.approvals|, i);
    BatchesConserve(h, a, d, s, i);
  }

  // --- A history in which it falls ----------------------------------------------------------------------------------

  function FreshDisk(p: Plan): Disk { EmptyDisk().(plan := Some(p)) }

  function PlainAuthority(p: Plan): Authority { Authority(p, None, []) }

  function OneRecord(h: Hashes, p: Plan): Record { Record("pilot:batch-x:1", Modal, Pilot, "", 1, h.plan(p)) }

  function FreshSnapshot(h: Hashes, p: Plan): Snapshot { Base(h, PlainAuthority(p), FreshDisk(p)) }

  function LowBatch(h: Hashes, p: Plan): Approval {
    Approval("x", h.snapshot(FreshSnapshot(h, p)), p.limits, p.limits.Sum(), [OneRecord(h, p)])
  }

  function BatchAuthority(h: Hashes, p: Plan): Authority { Authority(p, None, [LowBatch(h, p)]) }

  lemma {:induction false} NoReceipts(p: Plan)
    ensures Records(FreshDisk(p).receipts) == [] && Totals(Records(FreshDisk(p).receipts)) == Money(0, 0)
  {}

  /** The fresh directory, as any authority under the plan alone sees it. */
  lemma {:induction false} FreshBase(h: Hashes, p: Plan, a: Authority)
    requires PlanValid(p) && a == PlainAuthority(p).(approvals := a.approvals)
    ensures BaseAccepted(h, a, FreshDisk(p)) && Base(h, a, FreshDisk(p)) == FreshSnapshot(h, p)
    ensures FreshSnapshot(h, p).receipts == [] && FreshSnapshot(h, p).reserved == Money(0, 0)
        && FreshSnapshot(h, p).limits == p.limits
    ensures AllPinned(h, FreshDisk(p), a.approvals) && a.WellFormed()
  {
    NoReceipts(p);
    hide KeyText;
    var d := FreshDisk(p);
    assert AmendmentsAgree(a, d) by {
      forall j | 0 <= j < VERSIONS ensures AmendmentAgrees(a.Chain(), d.amendments[j], j) {}
    }
    assert RetainedNames(d.batches) == {};
  }

  lemma {:induction false} FreshOpens(h: Hashes, p: Plan)
    requires PlanValid(p)
    ensures Open(h, PlainAuthority(p), FreshDisk(p))
  {
    FreshBase(h, p, PlainAuthority(p));
    hide BaseAccepted, Base, AllPinned;
  }

  lemma {:induction false} FreshStays(p: Plan)
    ensures WithPlan(PlainAuthority(p), EmptyDisk()) == FreshDisk(p)
        && WithAmendment(PlainAuthority(p), FreshDisk(p)) == FreshDisk(p)
    ensures EmptyDisk().plan == None
  {}

  lemma {:induction false} LowBatchIsValid(h: Hashes, p: Plan)
    requires PlanValid(p)
    ensures BatchValid(h, BatchAuthority(h, p), LowBatch(h, p), FreshSnapshot(h, p))
  {
    FreshBase(h, p, PlainAuthority(p));
    var (a, b, r) := (BatchAuthority(h, p), LowBatch(h, p), OneRecord(h, p));
    assert "pilot:batch-" + "x" + ":" == "pilot:batch-x:";
    assert b.admissions[0] == r && Admissible(h, a, b, {}, r);
    TotalsOne(r);
    hide FreshSnapshot;
    assert KeysOf(FreshSnapshot(h, p).receipts) == {};
  }

  /** A single approval that is valid on the base opens its journal. */
  lemma {:induction false} OneApprovalOpens(h: Hashes, a: Authority, b: Approval, d: Disk, s: Snapshot)
    requires a.approvals == [b] && BaseAccepted(h, a, d) && Base(h, a, d) == s
    requires BatchValid(h, a, b, s) && FilesAgree(h, d, b, true) && AllPinned(h, d, a.approvals)
    ensures ReadyToAdmit(h, a, d) && Preceding(h, a, d) == s && Last(a) == b
  {
    hide BaseAccepted, Base, BatchValid, AllPinned, FilesAgree, AfterBatch;
    assert a.approvals[..0] == [];
    assert Before(h, d, a.approvals, s, 0) == s;
    assert a.approvals[0].id !in IdsOf(a.approvals[..0]);
    assert Accepts(h, a, d, s, 0);
    assert AcceptedUpTo(h, a, d, s, 0) && AcceptedUpTo(h, a, d, s, 1);
  }

  lemma {:induction false} BatchBase(h: Hashes, p: Plan)
    requires PlanValid(p)
    ensures
      var (a, d) := (BatchAuthority(h, p), FreshDisk(p));
      && a.approvals == [LowBatch(h, p)] && BaseAccepted(h, a, d) && Base(h, a, d) == FreshSnapshot(h, p)
      && AllPinned(h, d, a.approvals)
  {
    FreshBase(h, p, BatchAuthority(h, p));
    hide BaseAccepted, Base, AllPinned, FreshDisk, FreshSnapshot, LowBatch;
  }

  lemma {:induction false} BatchOpens(h: Hashes, p: Plan)
    requires PlanValid(p)
    ensures
      var (a, d, s) := (BatchAuthority(h, p), FreshDisk(p), FreshSnapshot(h, p));
      ReadyToAdmit(h, a, d) && Preceding(h, a, d) == s && Last(a) == LowBatch(h, p)
  {
    LowBatchIsValid(h, p);
    BatchBase(h, p);
    FirstIsLast(h, p);
    hide BatchAuthority, PlainAuthority, OneRecord, Open, BaseAccepted, Base, BatchValid, AllPinned, LowBatch,
        FreshDisk, FreshSnapshot, FilesAgree, Preceding, Last,
        ReadyToAdmit, PlanValid;
    OneApprovalOpens(h, BatchAuthority(h, p), LowBatch(h, p), FreshDisk(p), FreshSnapshot(h, p));
  }

  lemma {:induction false} FirstIsLast(h: Hashes, p: Plan)
    ensures FilesAgree(h, FreshDisk(p), LowBatch(h, p), true)
  {}

  lemma {:induction false} FreshConstructed(h: Hashes, p: Plan)
    requires PlanValid(p)
    ensures FreshDisk(p) in Leaves(h, EmptyDisk(), Construct(PlainAuthority(p)))
  {
    FreshOpens(h, p);
    FreshStays(p);
    FreshBase(h, p, PlainAuthority(p));
    hide Open, PlanValid, FreshDisk, WithPlan, WithAmendment, Leaves;
    PlanIsLeft(h, PlainAuthority(p), EmptyDisk());
  }

  lemma {:induction false} PlanIsLeft(h: Hashes, a: Authority, d: Disk)
    requires PlanValid(a.plan) && a.WellFormed() && d.plan == None && Open(h, a, WithPlan(a, d))
    ensures WithPlan(a, d) in Leaves(h, d, Construct(a))
  {
    hide Open, PlanValid, WithPlan, WithAmendment;
    assert Leaves(h, d, Construct(a))[1] == WithPlan(a, d);
  }

  /** The two events that the history has after its first directory. */
  lemma {:induction false} TwoEvents(h: Hashes, e: Event, f: Event, a: Disk, b: Disk, c: Disk)
    requires b in Leaves(h, a, e) && c in Leaves(h, b, f)
    ensures Run(h, [e, f], [a, b, c])
  {
    hide Leaves;
    var events, disks := [e, f], [a, b, c];
    assert events[0] == e && events[1] == f && disks[0] == a && disks[1] == b && disks[2] == c;
  }

  lemma {:induction false} AfterIsLeft(h: Hashes, a: Authority, d: Disk)
    requires ReadyToAdmit(h, a, d)
    ensures AfterAdmission(h, a, d) in Leaves(h, d, Admit(a))
  {
    AdmitEnds(h, a, d);
    hide Open, AfterAdmission;
    var all := Leaves(h, d, Admit(a));
    assert all[|all| - 1] == AfterAdmission(h, a, d);
  }

  lemma {:induction false} LowTotals(h: Hashes, p: Plan)
    ensures FreshSnapshot(h, p).receipts + LowBatch(h, p).admissions == [OneRecord(h, p)]
    ensures LowBatch(h, p).total == p.limits.Sum() && PlainAuthority(p).Total() == p.total
  {
    NoReceipts(p);
  }

  /** The directory after that history. */
  function LowDisk(h: Hashes, p: Plan): Disk { AfterAdmission(h, BatchAuthority(h, p), FreshDisk(p)) }

  lemma {:induction false} LowRun(h: Hashes, p: Plan)
    requires PlanValid(p)
    ensures Run(h, [Construct(PlainAuthority(p)), Admit(BatchAuthority(h, p))],
        [EmptyDisk(), FreshDisk(p), LowDisk(h, p)])
  {
    FreshConstructed(h, p);
    BatchOpens(h, p);
    hide Leaves, ReadyToAdmit, Preceding, PlainAuthority, FreshDisk, PlanValid, Run, AfterAdmission;
    AfterIsLeft(h, BatchAuthority(h, p), FreshDisk(p));
    TwoEvents(h, Construct(PlainAuthority(p)), Admit(BatchAuthority(h, p)), EmptyDisk(), FreshDisk(p), LowDisk(h, p));
  }

  lemma {:induction false} LowDebits(h: Hashes, p: Plan)
    requires PlanValid(p)
    ensures Open(h, BatchAuthority(h, p), LowDisk(h, p))
    ensures SnapshotOf(h, BatchAuthority(h, p), LowDisk(h, p)).value.receipts == [OneRecord(h, p)]
  {
    BatchOpens(h, p);
    LowTotals(h, p);
    hide ReadyToAdmit, SnapshotOf, Preceding, FreshDisk, PlanValid, AfterAdmission, LowBatch, FreshSnapshot, Last;
    AdmissionDebitsAll(h, BatchAuthority(h, p), FreshDisk(p));
  }

  /** Every valid plan whose total exceeds the sum of its provider ceilings has a history, from an empty
      directory, after which a lower total is in force and one operation is debited under it. */
  lemma {:induction false} TotalFallsInHistory(h: Hashes, p: Plan)
    requires PlanValid(p) && p.limits.Sum() < p.total
    ensures
      var (a, b) := (PlainAuthority(p), BatchAuthority(h, p));
      && Run(h, [Construct(a), Admit(b)], [EmptyDisk(), FreshDisk(p), LowDisk(h, p)])
      && Open(h, a, FreshDisk(p)) && Open(h, b, LowDisk(h, p))
      && SnapshotOf(h, b, LowDisk(h, p)).value.receipts == [OneRecord(h, p)]
      && Last(b).total < a.Total()
  {
    FreshOpens(h, p);
    LowRun(h, p);
    LowDebits(h, p);
    LowTotals(h, p);
    hide Open, Run, SnapshotOf, FreshDisk, LowDisk, PlanValid, OneRecord, LowBatch, PlainAuthority;
  }
}
