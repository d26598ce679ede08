/** The six-job continuation of an aborted pilot, from its recovery plan to its outcome. */
module EvaluationContinuation {
  import opened ContinuationRunners
  import opened EvaluationRecovery
  import opened Options
  import opened Outcomes
  import opened Sequences
  import opened StockControl
  import opened StockDriver

  // --- Slots ----------------------------------------------------------------------------------------------

  const ORDER: seq<string> := [
    "public-reference", "public-candidate", "correctness",
    "quality-1-reference", "quality-1-candidate", "quality-2-candidate",
    "quality-2-reference", "quality-3-reference", "quality-3-candidate",
    "performance-1", "performance-2", "performance-3"]

  const REUSED: nat := 6

  predicate EndsWith(s: string, suffix: string) { |suffix| <= |s| && s[|s| - |suffix|..] == suffix }

  /** A pattern that ends in `$` also matches before a trailing line feed. */
  predicate Matches(s: string, ending: string) { EndsWith(s, ending) || EndsWith(s, ending + "\n") }

  /** The repetition and the role that the end of a quality key names. */
  function QualityPart(key: string): Option<string> {
    if Matches(key, ":quality:1:reference") then Some("1-reference")
    else if Matches(key, ":quality:2:reference") then Some("2-reference")
    else if Matches(key, ":quality:3:reference") then Some("3-reference")
    else if Matches(key, ":quality:1:candidate") then Some("1-candidate")
    else if Matches(key, ":quality:2:candidate") then Some("2-candidate")
    else if Matches(key, ":quality:3:candidate") then Some("3-candidate")
    else None
  }

  function PerformancePart(key: string): Option<string> {
    if Matches(key, ":repetition:1:performance") then Some("performance-1")
    else if Matches(key, ":repetition:2:performance") then Some("performance-2")
    else if Matches(key, ":repetition:3:performance") then Some("performance-3")
    else None
  }

  /** `_slot`; refused entries are outside the scenario. */
  function SlotOf(e: Entry): Option<string> {
    var key := e.request.key;
    if e.adapter == "public" then
      Some(if e.request.campaign == "registered-reference" then "public-reference" else "public-candidate")
    else if e.adapter == "correctness" && EndsWith(key, ":correctness") then Some("correctness")
    else if e.adapter == "quality" && QualityPart(key).Some? then Some("quality-" + QualityPart(key).value)
    else if PerformancePart(key) == Some(e.adapter) then Some(e.adapter)
    else None
  }

  // What a slot says of its entry.

  predicate IsRepetition(c: char) { c == '1' || c == '2' || c == '3' }

  predicate IsRole(role: string) { role == "reference" || role == "candidate" }

  function QualityEnding(repetition: char, role: string): string { ":quality:" + [repetition] + ":" + role }

  function PerformanceEnding(repetition: char): string { ":repetition:" + [repetition] + ":performance" }

  predicate PartMatches(key: string, part: string) {
    && |part| > 2 && part[1] == '-' && IsRepetition(part[0]) && IsRole(part[2..])
    && Matches(key, QualityEnding(part[0], part[2..]))
  }

  lemma {:induction false} PartIs(key: string, part: string, repetition: char, role: string, ending: string)
    requires part == [repetition] + "-" + role && ending == QualityEnding(repetition, role)
    requires IsRepetition(repetition) && IsRole(role) && Matches(key, ending)
    ensures PartMatches(key, part)
  {
    hide Matches;
    assert part[2..] == role && part[0] == repetition && part[1] == '-';
  }

  predicate AnyReference(key: string) {
    Matches(key, ":quality:1:reference") || Matches(key, ":quality:2:reference") || Matches(key, ":quality:3:reference")
  }

  lemma {:induction false} ReferencePartMatches(key: string)
    requires AnyReference(key)
    ensures QualityPart(key).Some? && PartMatches(key, QualityPart(key).value)
  {
    hide Matches, PartMatches;
    if Matches(key, ":quality:1:reference") {
      assert ":quality:" + "1" + ":" + "reference" == ":quality:1:reference";
      PartIs(key, "1-reference", '1', "reference", ":quality:1:reference");
    } else if Matches(key, ":quality:2:reference") {
      assert ":quality:" + "2" + ":" + "reference" == ":quality:2:reference";
      PartIs(key, "2-reference", '2', "reference", ":quality:2:reference");
    } else if Matches(key, ":quality:3:reference") {
      assert ":quality:" + "3" + ":" + "reference" == ":quality:3:reference";
      PartIs(key, "3-reference", '3', "reference", ":quality:3:reference");
    }
  }

  lemma {:induction false} CandidatePartMatches(key: string)
    requires !AnyReference(key)
    ensures QualityPart(key).Some? ==> PartMatches(key, QualityPart(key).value)
  {
    hide Matches, PartMatches;
    if Matches(key, ":quality:1:candidate") {
      assert ":quality:" + "1" + ":" + "candidate" == ":quality:1:candidate";
      PartIs(key, "1-candidate", '1', "candidate", ":quality:1:candidate");
    } else if Matches(key, ":quality:2:candidate") {
      assert ":quality:" + "2" + ":" + "candidate" == ":quality:2:candidate";
      PartIs(key, "2-candidate", '2', "candidate", ":quality:2:candidate");
    } else if Matches(key, ":quality:3:candidate") {
      assert ":quality:" + "3" + ":" + "candidate" == ":quality:3:candidate";
      PartIs(key, "3-candidate", '3', "candidate", ":quality:3:candidate");
    }
  }

  /** The part that is read off a quality key is made of the repetition and the role that the key ends with. */
  lemma {:induction false} QualityPartMatches(key: string)
    ensures QualityPart(key).Some? ==> PartMatches(key, QualityPart(key).value)
  {
    hide QualityPart, PartMatches;
    if AnyReference(key) { ReferencePartMatches(key); } else { CandidatePartMatches(key); }
  }

  /** And a part is read off every key that ends so. */
  lemma {:induction false} QualityPartFound(key: string, repetition: char, role: string)
    requires IsRepetition(repetition) && IsRole(role) && Matches(key, QualityEnding(repetition, role))
    ensures QualityPart(key).Some?
  {
    hide Matches;
    assert ":quality:" + [repetition] + ":" + role in {":quality:1:reference", ":quality:2:reference",
      ":quality:3:reference", ":quality:1:candidate", ":quality:2:candidate", ":quality:3:candidate"} by {
      assert ":quality:" + "1" + ":" + "reference" == ":quality:1:reference";
      assert ":quality:" + "2" + ":" + "reference" == ":quality:2:reference";
      assert ":quality:" + "3" + ":" + "reference" == ":quality:3:reference";
      assert ":quality:" + "1" + ":" + "candidate" == ":quality:1:candidate";
      assert ":quality:" + "2" + ":" + "candidate" == ":quality:2:candidate";
      assert ":quality:" + "3" + ":" + "candidate" == ":quality:3:candidate";
    }
  }

  /** The same for the keys of the performance adapters. */
  lemma {:induction false} PerformancePartMatches(key: string)
    ensures PerformancePart(key).Some? ==>
      var part := PerformancePart(key).value;
      && |part| == 13 && part[..12] == "performance-" && IsRepetition(part[12])
      && Matches(key, PerformanceEnding(part[12]))
  {
    hide Matches;
    assert ":repetition:" + "1" + ":performance" == ":repetition:1:performance";
    assert ":repetition:" + "2" + ":performance" == ":repetition:2:performance";
    assert ":repetition:" + "3" + ":performance" == ":repetition:3:performance";
  }

  /** An entry in a slot is what the slot's name says: of the public adapter and the registered reference or not, of the
      correctness adapter under a correctness key, of the quality adapter under a key that ends with the slot's own
      repetition and role, or of the performance adapter of that name under a key that ends with its repetition. */
  lemma {:induction false} SlotMeans(e: Entry)
    requires SlotOf(e).Some?
    ensures
      var (slot, key) := (SlotOf(e).value, e.request.key);
      || (slot == "public-reference" && e.adapter == "public" && e.request.campaign == "registered-reference")
      || (slot == "public-candidate" && e.adapter == "public" && e.request.campaign != "registered-reference")
      || (slot == "correctness" && e.adapter == "correctness" && EndsWith(key, ":correctness"))
      || (e.adapter == "quality" && |slot| > 8 && slot[..8] == "quality-" && PartMatches(key, slot[8..]))
      || (e.adapter == slot && |slot| == 13 && slot[..12] == "performance-" && IsRepetition(slot[12])
          && Matches(key, PerformanceEnding(slot[12])))
  {
    QualityPartMatches(e.request.key);
    PerformancePartMatches(e.request.key);
    hide Matches, EndsWith, QualityPart, PerformancePart, PerformanceEnding;
    if QualityPart(e.request.key).Some? {
      var part := QualityPart(e.request.key).value;
      assert ("quality-" + part)[..8] == "quality-" && ("quality-" + part)[8..] == part;
    }
  }

  predicate AllSlotted(es: seq<Entry>) { forall i :: 0 <= i < |es| ==> SlotOf(es[i]).Some? }

  function Slots(es: seq<Entry>): (names: seq<string>)
    requires AllSlotted(es)
    ensures |names| == |es| && forall i :: 0 <= i < |es| ==> SlotOf(es[i]) == Some(names[i])
  {
    if es == [] then [] else Slots(es[..|es| - 1]) + [SlotOf(es[|es| - 1]).value]
  }

  /** The dictionary from slots to entries: a repeated slot would keep its last entry. */
  function BySlot(es: seq<Entry>): map<string, Entry>
    requires AllSlotted(es)
  {
    if es == [] then map[]
    else BySlot(es[..|es| - 1])[SlotOf(es[|es| - 1]).value := es[|es| - 1]]
  }

  predicate ActionAt(jobs: map<string, Entry>, k: nat, action: Action)
    requires k < |ORDER|
  {
    ORDER[k] in jobs && jobs[ORDER[k]].action == action
  }

  /** The inventory checks of the continuation's constructor. */
  predicate InventoryAccepted(es: seq<Entry>) {
    && AllSlotted(es) && |es| == 12
    && BySlot(es).Keys == Elements(ORDER)
    && (forall k :: 0 <= k < REUSED ==> ActionAt(BySlot(es), k, ReuseVerified))
    && ActionAt(BySlot(es), 6, ReplaceEnvironmentRejected)
    && (forall k :: 7 <= k < 12 ==> ActionAt(BySlot(es), k, ExecuteMissing))
  }

  lemma OrderHasNoRepeats()
    ensures NoRepeats(ORDER)
  {
    assert |ORDER[0]| == 16 && |ORDER[1]| == 16 && |ORDER[2]| == 11;
    assert ORDER[0][7] == 'r' && ORDER[1][7] == 'c';
    forall i | 3 <= i < 9 ensures |ORDER[i]| == 19 {}
    assert ORDER[3][8] == '1' && ORDER[4][8] == '1' && ORDER[5][8] == '2';
    assert ORDER[6][8] == '2' && ORDER[7][8] == '3' && ORDER[8][8] == '3';
    assert ORDER[3][10] == 'r' && ORDER[4][10] == 'c' && ORDER[5][10] == 'c';
    assert ORDER[6][10] == 'r' && ORDER[7][10] == 'r' && ORDER[8][10] == 'c';
    forall i | 9 <= i < 12 ensures |ORDER[i]| == 13 {}
    assert ORDER[9][12] == '1' && ORDER[10][12] == '2' && ORDER[11][12] == '3';
  }

  lemma {:induction false} BySlotNames(es: seq<Entry>)
    requires AllSlotted(es)
    ensures BySlot(es).Keys == Elements(Slots(es))
    ensures forall name :: name in BySlot(es) ==> BySlot(es)[name] in es && SlotOf(BySlot(es)[name]) == Some(name)
  {
    if es != [] { BySlotNames(es[..|es| - 1]); }
  }

  /** An accepted inventory pairs its twelve entries with the twelve slots: each slot has exactly one entry,
      and the dictionary holds that one. */
  lemma SlotsBiject(es: seq<Entry>, k: nat) returns (i: nat)
    requires InventoryAccepted(es) && k < 12
    ensures i < 12 && SlotOf(es[i]) == Some(ORDER[k]) && BySlot(es)[ORDER[k]] == es[i]
    ensures forall j :: 0 <= j < 12 && SlotOf(es[j]) == Some(ORDER[k]) ==> j == i
  {
    OrderHasNoRepeats();
    BySlotNames(es);
    var names := Slots(es);
    DistinctBySize(ORDER);
    DistinctBySize(names);
    assert Elements(names) == Elements(ORDER);
    var e := BySlot(es)[ORDER[k]];
    i :| 0 <= i < |es| && es[i] == e;
    forall j | 0 <= j < 12 && SlotOf(es[j]) == Some(ORDER[k]) ensures j == i {
      assert names[i] == names[j];
    }
  }

  // --- The run --------------------------------------------------------------------------------------------

  /** `run`, on the continuation's own six frozen requests and ledger. It submits at every turn, which only
      dispatches what nobody has claimed, and polls what is dispatched until a deadline. Its effect, when
      nobody disturbs it, is a chain of the same driver steps. */
  method RunContinuation(d: Driver, patience: nat) returns (ending: Ending)
    requires Inv(System(d.state, Idle))
    modifies d
    ensures Inv(System(d.state, Idle)) && Reaches(old(System(d.state, Idle)), System(d.state, Idle))
    ensures ending == Finished ==> d.state.outcome && DoneBefore(d.state, |d.state.status|)
    ensures ending == Pending ==>
      exists i :: 0 <= i < |d.state.status| && (d.state.status[i] == Dispatching || d.state.status[i] == Dispatched)
  {
    hide Reaches;
    ghost var first := System(d.state, Idle);
    ReachesItself(first);
    Advance(first, first, Start, System(d.state, Turn(d.state, 0)));
    for i := 0 to |d.state.status|
      invariant |d.state.status| == |old(d.state).status|
      invariant Inv(System(d.state, Turn(d.state, i))) && Reaches(first, System(d.state, Turn(d.state, i)))
    {
      ghost var before := System(d.state, Turn(d.state, i));
      ending := RunSlot(d, i, patience);
      Join(first, before, After(d.state, ending, Turn(d.state, i + 1)));
      if ending != Finished { return; }
    }
    ghost var done := System(d.state, Closing);
    if * {
      Depart(first, done);
      return Crashed;
    }
    d.state := d.state.(outcome := true);
    Advance(first, done, Close, System(d.state, Idle));
    return Finished;
  }

  method AwaitSlot(d: Driver, i: nat, patience: nat) returns (ending: Ending)
    requires Inv(System(d.state, Waiting(i)))
    modifies d
    ensures Inv(After(d.state, ending, Waiting(i)))
    ensures Reaches(old(System(d.state, Waiting(i))), After(d.state, ending, Waiting(i)))
    ensures |d.state.status| == |old(d.state).status| && i < |d.state.status|
    ensures ending == Finished ==> d.state.status[i] in {Complete, Failed, Ambiguous}
    ensures ending == Pending ==> d.state.status[i] == Dispatching || d.state.status[i] == Dispatched
    ensures ending != Finished ==> ending == Pending || ending == Crashed
    ensures forall j :: 0 <= j < |d.state.status| && j != i ==> d.state.status[j] == old(d.state).status[j]
  {
    hide Reaches;
    ghost var first := System(d.state, Waiting(i));
    ReachesItself(first);
    var waited := 0;
    while d.state.status[i] == Dispatching || d.state.status[i] == Dispatched
      invariant |d.state.status| == |old(d.state).status| && Inv(System(d.state, Waiting(i)))
      invariant Reaches(first, System(d.state, Waiting(i))) && waited <= patience
      invariant forall j :: 0 <= j < |d.state.status| && j != i ==> d.state.status[j] == old(d.state).status[j]
      decreases patience - waited
    {
      ghost var before := System(d.state, Waiting(i));
      if waited == patience {
        Depart(first, before);
        return Pending;
      }
      if d.state.status[i] == Dispatched {
        var poll: Poll := *;
        d.CollectResult(i, poll);
        Join(first, before, System(d.state, Waiting(i)));
      }
      waited := waited + 1;
      if * {
        Depart(first, System(d.state, Waiting(i)));
        return Crashed;
      }
    }
    return Finished;
  }

  /** One slot. The admission before it, and the check of its result after it, may stop the run. */
  method RunSlot(d: Driver, i: nat, patience: nat) returns (ending: Ending)
    requires Inv(System(d.state, Inspecting(i)))
    modifies d
    ensures Inv(After(d.state, ending, Turn(d.state, i + 1)))
    ensures Reaches(old(System(d.state, Inspecting(i))), After(d.state, ending, Turn(d.state, i + 1)))
    ensures |d.state.status| == |old(d.state).status| && i < |d.state.status|
    ensures ending == Pending ==> d.state.status[i] == Dispatching || d.state.status[i] == Dispatched
  {
    hide Reaches;
    ghost var first := System(d.state, Inspecting(i));
    ReachesItself(first);
    if * {
      Depart(first, first);
      return Stopped;
    }
    ending := d.SubmitIfFree(i);
    if ending == Crashed { return; }
    ghost var submitted := System(d.state, Waiting(i));
    ending := AwaitSlot(d, i, patience);
    Join(first, submitted, After(d.state, ending, Waiting(i)));
    if ending != Finished { return; }
    ghost var waited := System(d.state, Waiting(i));
    var valid: bool := *;
    if d.state.status[i] != Complete || !valid {
      Depart(first, waited);
      return Stopped;
    }
    ending := d.Retain(i);
    Join(first, waited, After(d.state, ending, Turn(d.state, i + 1)));
  }

  // --- Nothing that may have been delivered runs again ------------------------------------------------------

  /** How often the source run may have started a request outside: at most once, and only after its
      authority was consumed. */
  predicate DeliveredUnder(e: Entry, n: nat) {
    n <= 1 && (n > 0 ==> SpendStatus(e.request.seen.spend) == Done(Consumed))
  }

  /** The executions of the job in slot `k`, in the source run and in the continuation together. */
  function Executions(delivered: nat, ledger: Ledger, k: nat): nat
    requires |ledger.spawns| == 6 && k < 12
  {
    delivered + if k < REUSED then 0 else ledger.spawns[k - REUSED]
  }

  lemma ContinuationOnce(delivered: nat, runners: nat, moves: seq<Move>, k: nat)
    requires k < 12
    ensures
      var executions := Executions(delivered, Race(Gather(6, runners), moves).ledger, k);
      executions <= delivered + (if k < REUSED then 0 else 1) && (k < REUSED ==> executions == delivered)
  {
    if k >= REUSED { SpawnedOnceByAll(6, runners, moves, k - REUSED); }
  }

  /** Recovery and continuation together never run again what may have been delivered. However many
      runners of the continuation interleave, crash and start again, every job is executed at most once in
      all, except the one whose only source call ended in retained evidence that the environment rejected
      it. */
  lemma NeverReexecuted(es: seq<Entry>, k: nat, i: nat, delivered: nat, runners: nat, moves: seq<Move>)
    requires InventoryAccepted(es) && k < 12 && i < 12 && SlotOf(es[i]) == Some(ORDER[k])
    requires Classify(es[i].request.seen) == Done(es[i].action) && DeliveredUnder(es[i], delivered)
    ensures
      var executions := Executions(delivered, Race(Gather(6, runners), moves).ledger, k);
      executions <= (if k == 6 then 2 else 1) && (k < REUSED ==> executions == delivered)
    ensures k == 6 ==> ORDER[k] == "quality-2-reference"
    ensures k == 6 ==>
      var o := es[i].request.seen;
      o.status == Dispatched && o.terminal.Terminal? && !o.terminal.complete
      && Contains(o.terminal.failure, "driver_version differs")
  {
    hide Race, Executions, Classify, SlotOf;
    ContinuationOnce(delivered, runners, moves, k);
    var only := SlotsBiject(es, k);
    ActionsDecide(es[i].request.seen);
    assert ActionAt(BySlot(es), k, es[i].action);
    if k < REUSED { assert ActionAt(BySlot(es), k, ReuseVerified); }
    if 7 <= k { assert ActionAt(BySlot(es), k, ExecuteMissing); }
  }
}
