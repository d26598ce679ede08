/** The envelope object: one authority over a shared directory. Its methods are the source's own, run
    under the admission lock, and end in the directories that the history theorems speak of. */
module SpendEnvelope {
  import opened Options
  import opened Ordering
  import opened Outcomes
  import opened SpendBatch
  import opened SpendJournal
  import opened SpendTypes

  class Directory {
    var disk: Disk
    constructor ()
      ensures disk == EmptyDisk()
    { disk := EmptyDisk(); }
  }

  /** The loop over the sorted receipt files: validate each, total it, collect it. */
  method ReadReceipts(h: Hashes, a: Authority, files: seq<Field<Record>>) returns (r: Outcome<(Money, seq<Record>)>)
    ensures r ==
      if forall f :: f in files ==> FileValid(h, a, f) then Done((Totals(Records(files)), Records(files))) else Refused
  {
    var totals, receipts := Money(0, 0), [];
    for i := 0 to |files|
      invariant receipts == Records(files[..i])
      invariant totals == Totals(receipts)
      invariant forall f :: f in files[..i] ==> FileValid(h, a, f)
    {
      var file := files[i];
      assert file in files;
      if !FileValid(h, a, file) { return Refused; }
      assert files[..i + 1] == files[..i] + [file];
      assert Records(files[..i + 1])[..i] == receipts;
      totals := totals.Plus(file.value.provider, file.value.maximum);
      receipts := receipts + [file.value];
    }
    assert files[..|files|] == files;
    return Done((totals, receipts));
  }

  class Envelope {
    const h: Hashes
    const authority: Authority
    const root: Directory

    constructor (h: Hashes, authority: Authority, root: Directory)
      ensures this.h == h && this.authority == authority && this.root == root
    {
      this.h, this.authority, this.root := h, authority, root;
    }

    /** `_snapshot`. */
    method TakeSnapshot() returns (r: Outcome<Snapshot>)
      ensures r == SnapshotOf(h, authority, root.disk)
    {
      hide ApplyBatches, AmendmentsAgree, FileValid, InScope, OfKeys, Totals;
      var d := root.disk;
      if !AmendmentsAgree(authority, d) || d.plan != Some(authority.plan) { return Refused; }
      var read := ReadReceipts(h, authority, d.receipts);
      if read.Refused? { return Refused; }
      var totals, receipts := read.value.0, read.value.1;
      if authority.retry.Some? {
        if OfKeys(receipts, authority.PriorKeys()) != authority.retry.value.prior { return Refused; }
        if exists f :: f in d.receipts && f.value.key !in authority.PriorKeys() && !InScope(h, authority, f.value) {
          return Refused;
        }
      }
      totals := totals.Minus(authority.Released());
      if !totals.Within(authority.Limits()) || totals.Sum() > authority.Total() { return Refused; }
      var chain := authority.Chain();
      var base := Snapshot(h.plan(authority.plan), if chain == [] then None else Some(chain[|chain| - 1]),
                           authority.Released(), totals, authority.Limits(), receipts, []);
      r := RunBatches(h, authority, d, base);
    }

    /** `reserve`. */
    method ReserveOperation(r: Record, allowExisting: bool) returns (done: bool)
      modifies root
      ensures done <==> Reserve(h, authority, old(root.disk), r, allowExisting).Done?
      ensures root.disk == if done then Reserve(h, authority, old(root.disk), r, allowExisting).value
          else old(root.disk)
    {
      if authority.approvals != [] { return false; }
      if !ReceiptValid(h, authority, r) || !InScope(h, authority, r) { return false; }
      var file := Field(h.key(r.key), r);
      var snapshot := TakeSnapshot();
      if snapshot.Refused? { return false; }
      var files := root.disk.receipts;
      if file.key in Names(files) { return file in files && allowExisting; }
      var reserved := snapshot.value.reserved;
      if reserved.Of(r.provider) + r.maximum > authority.Limits().Of(r.provider)
        || reserved.Sum() + r.maximum > authority.Total()
      {
        return false;
      }
      root.disk := root.disk.(receipts := Insert(file, files));
      return true;
    }

    /** `admit_batch`. */
    method AdmitLastBatch() returns (done: bool)
      modifies root
      ensures done <==> authority.approvals != [] && Open(h, authority, old(root.disk))
      ensures root.disk == Final(h, old(root.disk), Admit(authority))
    {
      if authority.approvals == [] { return false; }
      var snapshot := TakeSnapshot();
      if snapshot.Refused? { return false; }
      var b := authority.approvals[|authority.approvals| - 1];
      root.disk := WithApproval(h, b, root.disk);
      root.disk := WithAdmission(h, b, root.disk);
      return true;
    }
  }

  /** The source's constructor: the plan is retained first, then the whole journal is validated, and only
      then the amendment is. */
  method OpenEnvelope(h: Hashes, authority: Authority, root: Directory) returns (r: Outcome<Envelope>)
    modifies root
    ensures root.disk == Final(h, old(root.disk), Construct(authority))
    ensures r.Done? ==> r.value.authority == authority && r.value.root == root && r.value.h == h
    ensures r.Done? <==>
      && PlanValid(authority.plan) && authority.WellFormed()
      && (old(root.disk).plan.Some? ==> old(root.disk).plan == Some(authority.plan))
      && Open(h, authority, WithPlan(authority, old(root.disk)))
  {
    if !PlanValid(authority.plan) || !authority.WellFormed() { return Refused; }
    if root.disk.plan.Some? && root.disk.plan != Some(authority.plan) { return Refused; }
    root.disk := WithPlan(authority, root.disk);
    var envelope := new Envelope(h, authority, root);
    var snapshot := envelope.TakeSnapshot();
    if snapshot.Refused? { return Refused; }
    root.disk := WithAmendment(authority, root.disk);
    return Done(envelope);
  }
}
