/** Which ceilings are in force, and exactly when a journal opens and a debit is admitted: over the plan, the chain
    of amendments and the files themselves. */
module SpendInForce {
  import opened Options
  import opened Ordering
  import opened Outcomes
  import opened SpendBatch
  import opened SpendHistory
  import opened SpendJournal
  import opened SpendTypes

  // --- Ceilings -----------------------------------------------------------------------------------------------

  /** The plan's ceilings when nothing was amended, those of the last amendment for chains of one to ten, and those
      of the tenth for longer ones. */
  predicate InForce(a: Authority, limits: Money, total: int) {
    if a.retry.None? then limits == a.plan.limits && total == a.plan.total
    else
      var chain := a.retry.value.chain;
      && (1 <= |chain| <= 10 ==> limits == chain[|chain| - 1].limits && total == chain[|chain| - 1].total)
      && (|chain| > 10 ==> limits == chain[9].limits && total == chain[9].total)
  }

  /** Without batches, the ceilings that a snapshot reports are the plan's when nothing was amended, those of the
      last amendment for chains of one to ten, and those of the tenth for longer ones; the total is held to the
      same document. */
  lemma {:induction false} CeilingsInForce(h: Hashes, a: Authority, d: Disk)
    requires Open(h, a, d) && a.approvals == [] && a.WellFormed()
    ensures
      var s := SnapshotOf(h, a, d).value;
      && (a.retry.None? ==> s.limits == a.plan.limits && s.reserved.Sum() <= a.plan.total)
      && (a.retry.Some? && |a.retry.value.chain| <= 10 ==>
            var last := a.retry.value.chain[|a.retry.value.chain| - 1];
            s.limits == last.limits && s.reserved.Sum() <= last.total)
      && (a.retry.Some? && |a.retry.value.chain| > 10 ==>
            s.limits == a.retry.value.chain[9].limits && s.reserved.Sum() <= a.retry.value.chain[9].total)
      && s.reserved.modal <= s.limits.modal && s.reserved.openrouter <= s.limits.openrouter
  {
    hide FileValid, PriorHeld, AmendmentsAgree, AllPinned;
  }

  /** An amendment appended to a chain puts its own ceilings in force up to the tenth, and from the eleventh on
      changes none. */
  lemma {:induction false} NextAmendmentInForce(h: Hashes, a: Authority, d: Disk, b: Authority, e: Disk, x: Amendment)
    requires Open(h, a, d) && Open(h, b, e) && a.approvals == [] && b.approvals == [] && a.WellFormed()
        && b.WellFormed()
    requires a.plan == b.plan && b.retry.Some?
    requires b.retry.value.chain == (if a.retry.Some? then a.retry.value.chain else []) + [x]
    ensures
      var (s, t) := (SnapshotOf(h, a, d).value, SnapshotOf(h, b, e).value);
      && (|b.retry.value.chain| <= 10 ==> t.limits == x.limits && t.reserved.Sum() <= x.total)
      && (|b.retry.value.chain| > 10 ==> t.limits == s.limits)
  {
    CeilingsInForce(h, a, d);
    CeilingsInForce(h, b, e);
    hide Open, SnapshotOf;
  }

  // --- What is reserved -----------------------------------------------------------------------------------------

  /** The amounts debited to one provider, added up from the front. */
  function Sum(records: seq<Record>, p: Provider): int {
    if records == [] then 0 else (if records[0].provider == p then records[0].maximum else 0) + Sum(records[1..], p)
  }

  lemma {:induction false} TotalsAreSums(records: seq<Record>)
    ensures Totals(records).modal == Sum(records, Modal) && Totals(records).openrouter == Sum(records, OpenRouter)
  {
    if records != [] {
      var (first, rest) := (records[0], records[1..]);
      TotalsAreSums(rest);
      TotalsConcat([first], rest);
      TotalsOne(first);
      hide Totals;
      assert records == [first] + rest;
      assert Sum(records, Modal) == (if first.provider == Modal then first.maximum else 0) + Sum(rest, Modal);
    }
  }

  predicate Lists(records: seq<Record>, files: seq<Field<Record>>) {
    |records| == |files| && forall i :: 0 <= i < |files| ==> records[i] == files[i].value
  }

  /** Without batches, a snapshot lists the receipts on file in the order of their names, and reserves for each
      provider what they add up to, less what the retry's validation released. */
  lemma {:induction false} ReservedIs(h: Hashes, a: Authority, d: Disk)
    requires Open(h, a, d) && a.approvals == []
    ensures
      var s := SnapshotOf(h, a, d).value;
      && Lists(s.receipts, d.receipts)
      && s.reserved.modal == Sum(s.receipts, Modal) - (if a.retry.Some? then a.retry.value.releases.modal else 0)
      && s.reserved.openrouter ==
           Sum(s.receipts, OpenRouter) - (if a.retry.Some? then a.retry.value.releases.openrouter else 0)
  {
    TotalsAreSums(Records(d.receipts));
    hide FileValid, PriorHeld, AmendmentsAgree, AllPinned, Totals, Sum;
  }

  // --- Debits ---------------------------------------------------------------------------------------------------

  /** The operation belongs to the retry in force: it carries the digest of the last amendment or the run that this
      amendment names, and from version eleven on it is one of the operations listed. */
  lemma {:induction false} InScopeExactly(h: Hashes, a: Authority, r: Record)
    requires a.WellFormed()
    ensures InScope(h, a, r) <==>
      a.retry.Some? ==>
        var chain := a.retry.value.chain;
        var (last, digest) := (chain[|chain| - 1], h.amendment(chain[|chain| - 1]));
        && (StartsWith(r.key, "pilot:retry-" + digest + ":") || StartsWith(r.key, "pilot:" + last.runId + ":compute:"))
        && (|chain| > 10 ==> a.retry.value.permits(r))
  {}

  /** A debit succeeds if and only if the authority pins no batch, the journal opens to it, the record is valid and
      in scope, and either its file is there already, the same record, and may be, or there is none under its name
      and what is reserved leaves room for it under its provider's ceiling and under the total. */
  lemma {:induction false} DebitAdmittedExactly(h: Hashes, a: Authority, d: Disk, r: Record, allowExisting: bool,
      limits: Money, total: int)
    requires a.WellFormed() && InForce(a, limits, total)
    ensures Reserve(h, a, d, r, allowExisting).Done? <==>
      && a.approvals == [] && Open(h, a, d)
      && r.plan == h.plan(a.plan) && KeyText(r.key) && r.maximum >= 1 && InScope(h, a, r)
      && (if exists f :: f in d.receipts && f.key == h.key(r.key)
          then allowExisting && Field(h.key(r.key), r) in d.receipts
          else HasRoom(SnapshotOf(h, a, d).value.reserved, r, limits, total))
  {
    hide FileValid, PriorHeld, AmendmentsAgree, AllPinned, KeyText, InScope;
    assert h.key(r.key) in Names(d.receipts) <==> exists f :: f in d.receipts && f.key == h.key(r.key);
  }

  predicate HasRoom(reserved: Money, r: Record, limits: Money, total: int) {
    && reserved.modal + reserved.openrouter + r.maximum <= total
    && (r.provider == Modal ==> reserved.modal + r.maximum <= limits.modal)
    && (r.provider == OpenRouter ==> reserved.openrouter + r.maximum <= limits.openrouter)
  }

  /** And then it adds its own file, or nothing when it was there. */
  lemma {:induction false} DebitAdds(h: Hashes, a: Authority, d: Disk, r: Record, allowExisting: bool)
    requires Reserve(h, a, d, r, allowExisting).Done?
    ensures
      var c := Reserve(h, a, d, r, allowExisting).value;
      && c == d.(receipts := c.receipts)
      && (forall f :: f in c.receipts <==> f in d.receipts || f == Field(h.key(r.key), r))
      && (Field(h.key(r.key), r) in d.receipts ==> c == d)
      && (Field(h.key(r.key), r) !in d.receipts ==> |c.receipts| == |d.receipts| + 1)
  {
    hide Open, ReceiptValid, InScope, Fits;
    InsertElements(Field(h.key(r.key), r), d.receipts);
    if Field(h.key(r.key), r) in d.receipts { assert h.key(r.key) in Names(d.receipts); }
  }

  // --- Opening --------------------------------------------------------------------------------------------------

  /** Every amendment file retained is the chain's own, and all of those before the one in force are there. */
  predicate ChainRetained(a: Authority, d: Disk) {
    var chain := if a.retry.Some? then a.retry.value.chain else [];
    && |d.amendments| == 13
    && (forall j :: 0 <= j < 13 && d.amendments[j].Some? ==> j < |chain| && d.amendments[j] == Some(chain[j]))
    && (forall j :: 0 <= j < 13 && j < |chain| - 1 ==> d.amendments[j].Some?)
  }

  predicate ReceiptsRetained(h: Hashes, a: Authority, d: Disk) {
    forall f :: f in d.receipts ==>
      f.key == h.key(f.value.key) && f.value.plan == h.plan(a.plan) && KeyText(f.value.key) && f.value.maximum >= 1
  }

  predicate IsPrior(retry: Retry, key: string) { exists r :: r in retry.prior && r.key == key }

  lemma {:induction false} PriorKeysAre(a: Authority, key: string)
    requires a.retry.Some?
    ensures key in a.PriorKeys() <==> IsPrior(a.retry.value, key)
  {}

  /** A journal without batches opens to an authority without approvals if and only if it holds the very plan, the
      amendments of the chain, and valid receipts under their own names, of which those under a prior key are the
      prior ones in order and the others are in scope, and the sums stay within the ceilings in force. */
  lemma {:induction false} OpensExactly(h: Hashes, a: Authority, d: Disk, limits: Money, total: int)
    requires a.WellFormed() && a.approvals == [] && d.batches == map[] && InForce(a, limits, total)
    ensures Open(h, a, d) <==>
      && d.plan == Some(a.plan) && d.strays == 0 && ChainRetained(a, d) && ReceiptsRetained(h, a, d)
      && (a.retry.Some? ==>
            && OfKeys(Records(d.receipts), set r | r in a.retry.value.prior :: r.key) == a.retry.value.prior
            && forall f :: f in d.receipts ==> IsPrior(a.retry.value, f.value.key) || InScope(h, a, f.value))
      && SumsHold(Records(d.receipts), if a.retry.Some? then a.retry.value.releases else Money(0, 0), limits, total)
  {
    assert AllPinned(h, d, a.approvals) <==> d.strays == 0 by { assert RetainedNames(d.batches) == {}; }
    ChainAgrees(a, d);
    SumsAgree(a, d, limits, total);
    hide AllPinned, AmendmentsAgree, ChainRetained, KeyText, InScope, Debited, SumsHold, InForce;
    assert FilesValid(h, a, d) <==> ReceiptsRetained(h, a, d);
    if a.retry.Some? {
      forall f | f in d.receipts ensures f.value.key in a.PriorKeys() <==> IsPrior(a.retry.value, f.value.key) {
        PriorKeysAre(a, f.value.key);
      }
    }
    assert PriorHeld(h, a, d) <==>
      (a.retry.Some? ==>
         && OfKeys(Records(d.receipts), set r | r in a.retry.value.prior :: r.key) == a.retry.value.prior
         && forall f :: f in d.receipts ==> IsPrior(a.retry.value, f.value.key) || InScope(h, a, f.value));
  }

  predicate SumsHold(records: seq<Record>, released: Money, limits: Money, total: int) {
    var (modal, openrouter) := (Sum(records, Modal) - released.modal, Sum(records, OpenRouter) - released.openrouter);
    modal <= limits.modal && openrouter <= limits.openrouter && modal + openrouter <= total
  }

  lemma {:induction false} SumsAgree(a: Authority, d: Disk, limits: Money, total: int)
    requires a.WellFormed() && InForce(a, limits, total)
    ensures Debited(a, d).Within(a.Limits()) && Debited(a, d).Sum() <= a.Total() <==>
      SumsHold(Records(d.receipts), if a.retry.Some? then a.retry.value.releases else Money(0, 0), limits, total)
  {
    TotalsAreSums(Records(d.receipts));
    hide Totals, Sum;
  }

  lemma {:induction false} ChainAgrees(a: Authority, d: Disk)
    ensures AmendmentsAgree(a, d) <==> ChainRetained(a, d)
  {
    var chain := a.Chain();
    if AmendmentsAgree(a, d) {
      forall j | 0 <= j < 13
        ensures d.amendments[j].Some? ==> j < |chain| && d.amendments[j] == Some(chain[j])
        ensures j < |chain| - 1 ==> d.amendments[j].Some?
      {
        assert AmendmentAgrees(chain, d.amendments[j], j);
      }
    }
  }

  // --- Batches --------------------------------------------------------------------------------------------------

  predicate AllNew(h: Hashes, a: Authority, b: Approval, s: Snapshot) {
    && (forall i :: 0 <= i < |b.admissions| ==>
          var r := b.admissions[i];
          && r.plan == h.plan(a.plan) && KeyText(r.key) && r.maximum >= 1
          && StartsWith(r.key, "pilot:batch-" + b.id + ":"))
    && (forall i, q :: 0 <= i < |b.admissions| && q in s.receipts ==> b.admissions[i].key != q.key)
    && (forall i, j :: 0 <= i < j < |b.admissions| ==> b.admissions[i].key != b.admissions[j].key)
  }

  /** A batch is valid after a snapshot if and only if it pins that snapshot, lowers neither provider's ceiling,
      sets a total that holds both ceilings, lists at least one operation, all of them valid, under its own name,
      new and distinct, and these with what is reserved stay within its ceilings and its total. */
  lemma {:induction false} BatchValidExactly(h: Hashes, a: Authority, b: Approval, s: Snapshot)
    ensures BatchValid(h, a, b, s) <==>
      && BatchIdText(b.id) && b.prior == h.snapshot(s)
      && b.limits.modal >= s.limits.modal && b.limits.openrouter >= s.limits.openrouter
      && b.limits.modal + b.limits.openrouter <= b.total
      && |b.admissions| > 0 && AllNew(h, a, b, s)
      && s.reserved.modal + Sum(b.admissions, Modal) <= b.limits.modal
      && s.reserved.openrouter + Sum(b.admissions, OpenRouter) <= b.limits.openrouter
      && s.reserved.modal + s.reserved.openrouter + Sum(b.admissions, Modal) + Sum(b.admissions, OpenRouter) <= b.total
  {
    TotalsAreSums(b.admissions);
    NewExactly(h, a, b, s);
    hide Totals, Sum, InventoryValid, AllNew, BatchIdText;
  }

  lemma {:induction false} NewExactly(h: Hashes, a: Authority, b: Approval, s: Snapshot)
    ensures InventoryValid(h, a, b, KeysOf(s.receipts)) <==> AllNew(h, a, b, s)
  {
    hide KeyText, StartsWith;
    if InventoryValid(h, a, b, KeysOf(s.receipts)) {
      forall i | 0 <= i < |b.admissions| ensures Admissible(h, a, b, KeysOf(s.receipts), b.admissions[i]) {}
      forall i, q | 0 <= i < |b.admissions| && q in s.receipts ensures b.admissions[i].key != q.key {
        assert q.key in KeysOf(s.receipts);
      }
    }
    if AllNew(h, a, b, s) {
      forall i | 0 <= i < |b.admissions| ensures Admissible(h, a, b, KeysOf(s.receipts), b.admissions[i]) {
        assert forall q :: q in s.receipts ==> b.admissions[i].key != q.key;
      }
    }
  }

  // --- What is retained ----------------------------------------------------------------------------------------

  /** A directory without a plan, or with this very one, takes a valid plan; and if the journal then opens, it takes
      the last amendment of the chain in that amendment's own place. Nothing else in it changes. */
  lemma {:induction false} ConstructLeaves(h: Hashes, a: Authority, d: Disk)
    requires |d.amendments| == 13
    ensures
      var c := Final(h, d, Construct(a));
      var planned := KeyText(a.plan.id) && a.plan.limits.modal >= 1 && a.plan.limits.openrouter >= 1
        && a.plan.limits.modal + a.plan.limits.openrouter <= a.plan.total
        && a.WellFormed() && (d.plan == None || d.plan == Some(a.plan));
      && c.receipts == d.receipts && c.batches == d.batches && c.strays == d.strays && |c.amendments| == 13
      && c.plan == (if planned then Some(a.plan) else d.plan)
      && forall j :: 0 <= j < 13 ==>
           c.amendments[j] ==
             if planned && Open(h, a, c) && a.retry.Some? && j == |a.retry.value.chain| - 1
             then Some(a.retry.value.chain[j])
             else d.amendments[j]
  {
    var p := WithPlan(a, d);
    if a.WellFormed() && Open(h, a, p) { ConstructKeepsSnapshot(h, a, p); }
    hide Open, KeyText;
  }

  /** A finished admission retains the approval and an admission that names it by digest and lists its inventory, under
      that digest, and changes no other document. */
  lemma {:induction false} AdmissionLeaves(h: Hashes, a: Authority, d: Disk)
    requires ReadyToAdmit(h, a, d)
    ensures
      var b := a.approvals[|a.approvals| - 1];
      Final(h, d, Admit(a)) ==
        d.(batches := d.batches[h.approval(b) := BatchFiles(Some(b), Some(Admission(h.approval(b), b.admissions)))])
  {
    AdmitEnds(h, a, d);
    AfterAdmissionIs(h, Last(a), d);
    hide ReadyToAdmit, Open, WithApproval, WithAdmission, Leaves, Final;
  }

  lemma {:induction false} AfterAdmissionIs(h: Hashes, b: Approval, d: Disk)
    ensures WithAdmission(h, b, WithApproval(h, b, d)) ==
      d.(batches := d.batches[h.approval(b) := BatchFiles(Some(b), Some(Admission(h.approval(b), b.admissions)))])
  {
    var name := h.approval(b);
    assert d.batches[name := BatchFiles(Some(b), d.Batch(name).admission)]
        [name := BatchFiles(Some(b), Some(AdmissionOf(h, b)))]
        == d.batches[name := BatchFiles(Some(b), Some(AdmissionOf(h, b)))];
  }
}
