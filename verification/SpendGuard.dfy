/** The guard that binds the journal to a live pilot: every authority is issued behind its debit. */
module SpendGuard {
  import opened Options
  import opened Ordering
  import opened Outcomes
  import opened SpendBatch
  import opened SpendEnvelope
  import opened SpendHistory
  import opened SpendJournal
  import opened SpendTypes

  // --- The operations that a pilot debits ---------------------------------------------------------------------

  /** The allowances of a pilot and the function timeout they are computed for. */
  datatype Estimate = Estimate(model: int, overhead: int, execution: int, seconds: int)

  /** What a guard is built over. `base` and `compute` are the digests of what a debit is for: a run, or a
      request of a run. */
  datatype Pilot = Pilot(
    h: Hashes, a: Authority, runId: string, estimate: Estimate,
    base: string -> string, compute: (string, string) -> string)
  {
    function Attempt(): string {
      var chain := a.Chain();
      if chain == [] then "single-attempt" else "retry-" + h.amendment(chain[|chain| - 1])
    }
    function Model(config: string): Record {
      Record("pilot:" + Attempt() + ":openrouter:base", OpenRouter, Purpose.Pilot, base(config), estimate.model,
          h.plan(a.plan))
    }
    function Overhead(config: string): Record {
      Record("pilot:" + Attempt() + ":modal:base", Modal, Purpose.Overhead, base(config), estimate.overhead,
          h.plan(a.plan))
    }
    function Compute(request: string, config: string): Record {
      Record("pilot:" + runId + ":compute:" + request, Modal, Purpose.Pilot, compute(request, config),
          estimate.execution,
             h.plan(a.plan))
    }
    /** A retry guard serves the run that its amendment names. */
    predicate RunAgrees() { var chain := a.Chain(); chain == [] || runId == chain[|chain| - 1].runId }
  }

  /** The receipt of `r` is on file. */
  predicate OnFile(h: Hashes, d: Disk, r: Record) { Field(h.key(r.key), r) in d.receipts }

  /** The two debits of `begin`: the directory they leave, and whether both were made. Neither may have been
      made before. */
  ghost function Begun(p: Pilot, d: Disk, config: string): (Disk, bool) {
    var first := Reserve(p.h, p.a, d, p.Model(config), false);
    if first.Refused? then (d, false)
    else
      var second := Reserve(p.h, p.a, first.value, p.Overhead(config), false);
      if second.Refused? then (first.value, false) else (second.value, true)
  }

  /** A compute request: its digest, the seconds it asks for, and the inventory it is issued into. */
  datatype Request = Request(digest: string, seconds: int, inventory: string)

  class Guard {
    const envelope: Envelope
    const pilot: Pilot
    var runConfig: Option<string>
    var inventory: Option<string>
    /** The debits behind the authorities issued so far. */
    var issued: seq<Record>

    ghost predicate Valid()
      reads this, envelope.root
    {
      && pilot.h == envelope.h && pilot.a == envelope.authority
      && Sound(envelope.h, envelope.root.disk)
      && forall i :: 0 <= i < |issued| ==> OnFile(envelope.h, envelope.root.disk, issued[i])
    }

    constructor (envelope: Envelope, pilot: Pilot)
      requires Sound(envelope.h, envelope.root.disk) && pilot.h == envelope.h && pilot.a == envelope.authority
      ensures Valid() && this.envelope == envelope && this.pilot == pilot
      ensures issued == [] && runConfig == None && inventory == None
    {
      this.envelope, this.pilot, issued, runConfig, inventory := envelope, pilot, [], None, None;
    }

    /** A debit on the way to an authority: afterwards the journal holds it, or nothing has changed. */
    method DebitFirst(r: Record, allowExisting: bool) returns (done: bool)
      requires Valid()
      modifies envelope.root
      ensures Valid() && Extends(old(envelope.root.disk), envelope.root.disk)
      ensures done ==> OnFile(pilot.h, envelope.root.disk, r)
      ensures
        var after := Reserve(pilot.h, pilot.a, old(envelope.root.disk), r, allowExisting);
        done == after.Done? && envelope.root.disk == if done then after.value else old(envelope.root.disk)
    {
      ghost var d := envelope.root.disk;
      done := envelope.ReserveOperation(r, allowExisting);
      DebitIsOnFile(envelope.h, envelope.authority, d, r, allowExisting);
    }

    /** `begin`; `current` says that the operator's authorization, if there is one, still stands. */
    method Begin(runId: string, config: string, current: bool) returns (ok: bool)
      requires Valid()
      modifies this, envelope.root
      ensures Valid() && Extends(old(envelope.root.disk), envelope.root.disk)
      ensures issued == old(issued) && inventory == old(inventory)
      ensures
        var may := current && runId == pilot.runId && pilot.RunAgrees() && old(runConfig) in {None, Some(config)};
        (envelope.root.disk, ok) == if may then Begun(pilot, old(envelope.root.disk), config)
            else (old(envelope.root.disk), false)
      ensures runConfig == if ok then Some(config) else old(runConfig)
      ensures ok ==>
        OnFile(pilot.h, envelope.root.disk, pilot.Model(config))
            && OnFile(pilot.h, envelope.root.disk, pilot.Overhead(config))
    {
      hide Reserve;
      ExtendsItself(envelope.root.disk);
      if !current || runId != pilot.runId || (runConfig.Some? && runConfig.value != config) { return false; }
      if !pilot.RunAgrees() { return false; }
      ghost var first := envelope.root.disk;
      ok := DebitFirst(pilot.Model(config), false);
      if !ok { return false; }
      ghost var second := envelope.root.disk;
      ok := DebitFirst(pilot.Overhead(config), false);
      ExtendsTransitive(first, second, envelope.root.disk);
      if !ok { return false; }
      runConfig := Some(config);
    }

    /** `authorize`: the debit first, then the authority, which may fail. A debit then stays. */
    method Authorize(config: string, request: Request, current: bool, issues: bool) returns (ok: bool)
      requires Valid()
      modifies this, envelope.root
      ensures Valid() && Extends(old(envelope.root.disk), envelope.root.disk) && runConfig == old(runConfig)
      ensures
        var d, r := old(envelope.root.disk), pilot.Compute(request.digest, config);
        var may := current && old(runConfig) == Some(config) && request.seconds == pilot.estimate.seconds
                   && old(inventory) in {None, Some(request.inventory)};
        var after := Reserve(pilot.h, pilot.a, d, r, true);
        && inventory == (if may then Some(request.inventory) else old(inventory))
        && envelope.root.disk == (if may && after.Done? then after.value else d)
        && ok == (may && after.Done? && issues)
        && issued == if ok then old(issued) + [r] else old(issued)
    {
      hide Reserve;
      ExtendsItself(envelope.root.disk);
      if !current || runConfig != Some(config) || request.seconds != pilot.estimate.seconds { return false; }
      if inventory.Some? && inventory.value != request.inventory { return false; }
      inventory := Some(request.inventory);
      ok := DebitFirst(pilot.Compute(request.digest, config), true);
      if !ok || !issues { return false; }
      issued := issued + [pilot.Compute(request.digest, config)];
    }
  }

  // --- What the debits are worth --------------------------------------------------------------------------------

  /** A reservation that succeeds leaves its receipt on file, and every earlier one where it was. */
  lemma {:induction false} DebitIsOnFile(h: Hashes, a: Authority, d: Disk, r: Record, allowExisting: bool)
    requires Sound(h, d)
    ensures
      var after := Reserve(h, a, d, r, allowExisting);
      var c := if after.Done? then after.value else d;
      Extends(d, c) && Sound(h, c) && (after.Done? ==> OnFile(h, c, r))
  {
    ExtendsItself(d);
    var after := Reserve(h, a, d, r, allowExisting);
    if after.Done? {
      StepExtends(h, d, Debit(a, r, allowExisting), after.value);
      StepSound(h, d, Debit(a, r, allowExisting), after.value);
      InsertElements(Field(h.key(r.key), r), d.receipts);
      hide Extends, Sound, Open, Fits;
    }
  }

  /** No automatic restart: once the first debit of an attempt is on file, then whatever happens to the
      directory afterwards, beginning that attempt again is refused and debits nothing, whoever begins it and
      for whatever run configuration. */
  lemma {:induction false} BeginsOnce(p: Pilot, q: Pilot, events: seq<Event>, disks: seq<Disk>, i: nat, j: nat,
      config: string, later: string)
    requires Run(p.h, events, disks) && i <= j < |disks| && OnFile(p.h, disks[i], p.Model(config))
    requires q.h == p.h && q.Attempt() == p.Attempt()
    ensures Begun(q, disks[j], later) == (disks[j], false)
  {
    hide Open, ReceiptValid, InScope, Fits, Run;
    AppendOnly(p.h, events, disks, i, j);
    assert Field(p.h.key(p.Model(config).key), p.Model(config)) in disks[j].receipts;
    assert p.h.key(q.Model(later).key) in Names(disks[j].receipts);
  }

  /** Distinct records among `records` add up to no more than all of them. */
  lemma {:induction false} PartWithinTotals(part: seq<Record>, records: seq<Record>)
    requires DistinctKeys(part) && (forall r :: r in part ==> r in records)
    requires forall r :: r in records ==> r.maximum >= 1
    ensures Totals(part).Within(Totals(records))
    decreases |part|
  {
    if part == [] {
      TotalsPositive(records);
    } else {
      var n := |part| - 1;
      var last := part[n];
      assert last in part;
      var i :| 0 <= i < |records| && records[i] == last;
      assert records == records[..i] + [last] + records[i + 1..];
      TotalsInsert(records[..i], last, records[i + 1..]);
      forall r | r in part[..n] ensures r in records[..i] + records[i + 1..] {
        var k :| 0 <= k < n && part[k] == r;
        assert part[k] in part;
        assert r.key != last.key;
      }
      PartWithinTotals(part[..n], records[..i] + records[i + 1..]);
    }
  }

  /** The authorities issued for different requests are covered together: whenever the journal opens, the
      allowances behind them, less what a retry released, are within every provider ceiling and the total. */
  lemma {:induction false} AuthoritiesAreCovered(h: Hashes, a: Authority, d: Disk, issued: seq<Record>)
    requires Open(h, a, d) && DistinctKeys(issued) && (forall r :: r in issued ==> OnFile(h, d, r))
    ensures Totals(issued).Minus(a.Released()).Within(a.Limits())
    ensures Totals(issued).Minus(a.Released()).Sum() <= a.Total()
  {
    hide ApplyBatches, AmendmentsAgree, PriorHeld, InScope, KeyText;
    var records := Records(d.receipts);
    forall r | r in issued ensures r in records {
      var k :| 0 <= k < |d.receipts| && d.receipts[k] == Field(h.key(r.key), r);
      assert records[k] == r;
    }
    forall r | r in records ensures r.maximum >= 1 {
      var k :| 0 <= k < |records| && records[k] == r;
      assert d.receipts[k] in d.receipts && FileValid(h, a, d.receipts[k]);
    }
    PartWithinTotals(issued, records);
  }

  // --- The guard's own debits --------------------------------------------------------------------------------------

  /** What a guard debits is of its own plan, and each allowance has its provider, its purpose and its amount. */
  lemma {:induction false} OwnDebitsAre(p: Pilot, config: string, request: string)
    ensures p.Model(config).provider == OpenRouter && p.Model(config).maximum == p.estimate.model
    ensures p.Overhead(config).provider == Modal && p.Overhead(config).maximum == p.estimate.overhead
    ensures p.Compute(request, config).provider == Modal && p.Compute(request, config).maximum == p.estimate.execution
    ensures p.Model(config).plan == p.Overhead(config).plan == p.Compute(request, config).plan == p.h.plan(p.a.plan)
    ensures p.Model(config).purpose == p.Compute(request, config).purpose == Purpose.Pilot
    ensures p.Overhead(config).purpose == Purpose.Overhead
  {}

  /** A guard that serves the run of the amendment in force never debits out of that amendment's scope, provided that
      an amendment from version eleven on lists its operations. */
  lemma {:induction false} OwnDebitsAreInScope(p: Pilot, config: string, request: string)
    requires p.a.WellFormed() && p.RunAgrees()
    requires |p.a.Chain()| > 10 ==>
      forall r :: r in [p.Model(config), p.Overhead(config), p.Compute(request, config)] ==> p.a.retry.value.permits(r)
    ensures InScope(p.h, p.a, p.Model(config)) && InScope(p.h, p.a, p.Overhead(config))
    ensures InScope(p.h, p.a, p.Compute(request, config))
  {
    var all := [p.Model(config), p.Overhead(config), p.Compute(request, config)];
    assert all[0] in all && all[1] in all && all[2] in all;
    if p.a.Chain() != [] {
      var digest := p.h.amendment(p.a.Chain()[|p.a.Chain()| - 1]);
      AttemptKey(p, digest, ":openrouter:base");
      AttemptKey(p, digest, ":modal:base");
      var run := "pilot:" + p.runId + ":compute:";
      assert (run + request)[..|run|] == run;
      ScopedByKey(p, p.Model(config), digest);
      ScopedByKey(p, p.Overhead(config), digest);
      ScopedByKey(p, p.Compute(request, config), digest);
    }
  }

  lemma {:induction false} AttemptKey(p: Pilot, digest: string, rest: string)
    requires p.a.Chain() != [] && digest == p.h.amendment(p.a.Chain()[|p.a.Chain()| - 1])
    requires rest == ":openrouter:base" || rest == ":modal:base"
    ensures StartsWith("pilot:" + p.Attempt() + rest, "pilot:retry-" + digest + ":")
  {
    var (key, prefix) := ("pilot:" + p.Attempt() + rest, "pilot:retry-" + digest + ":");
    assert "pilot:" + "retry-" == "pilot:retry-";
    assert "pilot:" + ("retry-" + digest) == "pilot:retry-" + digest;
    assert rest[0] == ':';
    assert key[..|prefix|] == prefix;
  }

  lemma {:induction false} ScopedByKey(p: Pilot, r: Record, digest: string)
    requires p.a.WellFormed() && p.RunAgrees() && p.a.Chain() != []
    requires digest == p.h.amendment(p.a.Chain()[|p.a.Chain()| - 1])
    requires StartsWith(r.key, "pilot:retry-" + digest + ":") || StartsWith(r.key, "pilot:" + p.runId + ":compute:")
    requires |p.a.Chain()| > 10 ==> p.a.retry.value.permits(r)
    ensures InScope(p.h, p.a, r)
  {}

  /** Different requests of one run, and the two base allowances, are different operations. */
  lemma {:induction false} OwnDebitsDiffer(p: Pilot, config: string, request: string, later: string, other: string)
    requires request != other
    ensures p.Compute(request, config).key != p.Compute(other, later).key
    ensures p.Model(config).key != p.Overhead(later).key
  {
    var prefix := "pilot:" + p.runId + ":compute:";
    assert (prefix + request)[|prefix|..] == request && (prefix + other)[|prefix|..] == other;
    var attempt := "pilot:" + p.Attempt();
    assert (attempt + ":openrouter:base")[|attempt| + 1] == 'o' && (attempt + ":modal:base")[|attempt| + 1] == 'm';
  }
}
