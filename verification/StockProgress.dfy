/** What a submission comes to, and when a series can still be finished. */
module StockProgress {
  import opened StockControl

  lemma {:induction false} PlayFirst(s: System, step: Step, rest: seq<Step>)
    requires Fits(s)
    ensures Play(s, [step] + rest) == Play(Next(s, step), rest)
  {
    PlayOn(s, [step], rest);
    assert [step][..0] == [];
    assert Play(s, [step]) == Next(s, step);
  }

  lemma PlayNone(s: System)
    requires Fits(s)
    ensures Play(s, []) == s
  {}

  /** A submission that is not cut short: a call leaves the request dispatched and spawned, a definite rejection
      leaves it failed and not spawned, and any other error leaves it ambiguous, whether or not it was spawned. */
  lemma {:induction false} SubmissionDecides(s: System, answer: Answer)
    requires Inv(s) && s.control.Inspecting? && !Started(s.ledger.status[s.control.i])
    ensures
      var (i, t) := (s.control.i, Play(s, [Look] + ([Ask(answer)] + ([Record] + []))));
      && t.control == Waiting(i) && i < |s.ledger.status| == |t.ledger.status|
      && (forall j :: 0 <= j < |s.ledger.status| && j != i ==> t.ledger.status[j] == s.ledger.status[j])
      && (answer == Call ==> t.ledger.status[i] == Dispatched && t.ledger.spawns[i] == 1)
      && (answer == Rejected ==> t.ledger.status[i] == Failed && t.ledger.spawns[i] == 0)
      && (answer == Error(true) ==> t.ledger.status[i] == Ambiguous && t.ledger.spawns[i] == 1)
      && (answer == Error(false) ==> t.ledger.status[i] == Ambiguous && t.ledger.spawns[i] == 0)
  {
    var i := s.control.i;
    assert SpawnsAgree(s.ledger.status[i], s.ledger.spawns[i]);
    PlayFirst(s, Look, [Ask(answer)] + ([Record] + []));
    PlayFirst(Next(s, Look), Ask(answer), [Record] + []);
    PlayFirst(Next(Next(s, Look), Ask(answer)), Record, []);
  }

  // --- Finishing ----------------------------------------------------------------------------------------------

  /** Nothing can be done any more: a request is blocked, or the answer that the driver holds will block its own. */
  predicate Hopeless(s: System)
    requires Fits(s)
  {
    || (exists k | 0 <= k < |s.ledger.status| :: Blocked(s, k))
    || (s.control.Asked? && s.control.answer != Call)
  }

  predicate AllFree(l: Ledger) { forall k :: 0 <= k < |l.status| ==> !Stuck(l.status[k]) }

  /** The collection of an execution that has completed. */
  lemma {:induction false} CollectStep(s: System)
    requires Inv(s) && s.control.Waiting? && AllFree(s.ledger)
    ensures
      var t := Next(s, Collect(Ended(true)));
      && Inv(t) && t.control == s.control && t.ledger.status[t.control.i] == Complete
      && AllFree(t.ledger) && |t.ledger.status| == |s.ledger.status|
  {
    StepKeeps(s, Collect(Ended(true)));
    assert !Stuck(s.ledger.status[s.control.i]);
  }

  lemma {:induction false} AcceptStep(s: System)
    requires Inv(s) && s.control.Waiting? && s.ledger.status[s.control.i] == Complete
    ensures Next(s, Accept) == System(s.ledger, Keeping(s.control.i)) && Inv(Next(s, Accept))
  {
    StepKeeps(s, Accept);
  }

  lemma {:induction false} KeepStep(s: System)
    requires Inv(s) && s.control.Keeping? && AllFree(s.ledger)
    ensures
      var t := Next(s, Keep);
      Inv(t) && t.control == Turn(s.ledger, s.control.i + 1) && AllFree(t.ledger)
  {
    StepKeeps(s, Keep);
  }

  /** A submission that the transport takes. */
  lemma {:induction false} SubmitSteps(s: System)
    requires Inv(s) && s.control.Inspecting? && AllFree(s.ledger) && !Started(s.ledger.status[s.control.i])
    ensures
      var t := Next(Next(Next(s, Look), Ask(Call)), Record);
      && Inv(Next(s, Look)) && Inv(Next(Next(s, Look), Ask(Call))) && Inv(t)
      && t.control == Waiting(s.control.i) && AllFree(t.ledger) && |t.ledger.status| == |s.ledger.status|
  {
    StepKeeps(s, Look);
    StepKeeps(Next(s, Look), Ask(Call));
    StepKeeps(Next(Next(s, Look), Ask(Call)), Record);
    hide Inv;
  }

  lemma {:induction false} LookStep(s: System)
    requires Inv(s) && s.control.Inspecting? && Started(s.ledger.status[s.control.i])
    ensures Next(s, Look) == System(s.ledger, Waiting(s.control.i)) && Inv(Next(s, Look))
  {
    StepKeeps(s, Look);
  }

  /** One request, from wherever it stands, to its evidence. */
  lemma {:induction false} Pass(s: System) returns (steps: seq<Step>)
    requires Inv(s) && s.control.Inspecting? && AllFree(s.ledger)
    ensures Inv(Play(s, steps)) && Play(s, steps).control == Turn(s.ledger, s.control.i + 1)
        && AllFree(Play(s, steps).ledger)
  {
    var i := s.control.i;
    FitsIfInv(s);
    hide Inv, Next, AllFree, Valid, Play;
    if Started(s.ledger.status[i]) {
      LookStep(s);
      var rest := Collected(Next(s, Look));
      steps := [Look] + rest;
      PlayFirst(s, Look, rest);
    } else {
      SubmitSteps(s);
      var (a, b) := (Next(s, Look), Next(Next(s, Look), Ask(Call)));
      FitsIfInv(a);
      FitsIfInv(b);
      var c := Next(b, Record);
      var rest := Collected(c);
      steps := [Look] + ([Ask(Call)] + ([Record] + rest));
      PlayFirst(s, Look, [Ask(Call)] + ([Record] + rest));
      PlayFirst(a, Ask(Call), [Record] + rest);
      PlayFirst(b, Record, rest);
    }
  }

  lemma FitsIfInv(s: System)
    ensures Inv(s) ==> Fits(s) && (s.control != Idle && s.control != Closing ==> s.control.i < |s.ledger.status|)
  {}

  /** A request that is dispatched or complete, to its evidence. */
  lemma {:induction false} Collected(s: System) returns (steps: seq<Step>)
    requires Inv(s) && s.control.Waiting? && AllFree(s.ledger)
    ensures Inv(Play(s, steps)) && Play(s, steps).control == Turn(s.ledger, s.control.i + 1)
        && AllFree(Play(s, steps).ledger)
  {
    FitsIfInv(s);
    CollectStep(s);
    var a := Next(s, Collect(Ended(true)));
    FitsIfInv(a);
    AcceptStep(a);
    var b := Next(a, Accept);
    FitsIfInv(b);
    KeepStep(b);
    hide Inv, Next, AllFree, Valid, Play;
    steps := [Collect(Ended(true))] + ([Accept] + ([Keep] + []));
    PlayFirst(s, Collect(Ended(true)), [Accept] + ([Keep] + []));
    PlayFirst(a, Accept, [Keep] + []);
    PlayFirst(b, Keep, []);
    PlayNone(Next(b, Keep));
  }

  /** The rest of the series, from a turn of the loop on. */
  lemma {:induction false} FinishFrom(s: System, i: nat) returns (steps: seq<Step>)
    requires Inv(s) && i <= |s.ledger.status| && s.control == Turn(s.ledger, i) && AllFree(s.ledger)
    ensures Play(s, steps).ledger.outcome
    decreases |s.ledger.status| - i
  {
    if i == |s.ledger.status| {
      steps := [Close] + [];
      PlayFirst(s, Close, []);
    } else {
      var first := Pass(s);
      var rest := FinishFrom(Play(s, first), i + 1);
      steps := first + rest;
      PlayOn(s, first, rest);
    }
  }

  /** A driver that holds a claim, the answer to it, or its evidence goes on; any other starts again. */
  lemma {:induction false} FinishAnywhere(s: System) returns (steps: seq<Step>)
    requires Inv(s) && !Hopeless(s)
    ensures Play(s, steps).ledger.outcome
  {
    var n := |s.ledger.status|;
    match s.control {
      case Claimed(i) =>
        var a := Next(s, Ask(Call));
        StepKeeps(s, Ask(Call));
        forall k | 0 <= k < n ensures !Blocked(a, k) { assert !Blocked(s, k); }
        var rest := FinishAnswered(a);
        steps := [Ask(Call)] + rest;
        PlayFirst(s, Ask(Call), rest);
      case Asked(i, answer) =>
        steps := FinishAnswered(s);
      case _ =>
        forall k | 0 <= k < n ensures !Stuck(s.ledger.status[k]) { assert !Blocked(s, k); }
        var a := Next(s, Leave);
        var b := Next(a, Start);
        StepKeeps(s, Leave);
        StepKeeps(a, Start);
        var rest := FinishFrom(b, 0);
        steps := [Leave] + ([Start] + rest);
        PlayFirst(s, Leave, [Start] + rest);
        PlayFirst(a, Start, rest);
    }
  }

  lemma {:induction false} FinishAnswered(s: System) returns (steps: seq<Step>)
    requires Inv(s) && s.control.Asked? && s.control.answer == Call
    requires Fits(s) && forall k :: 0 <= k < |s.ledger.status| ==> !Blocked(s, k)
    ensures Play(s, steps).ledger.outcome
  {
    var i := s.control.i;
    var a := Next(s, Record);
    StepKeeps(s, Record);
    forall k | 0 <= k < |a.ledger.status| ensures !Stuck(a.ledger.status[k]) { assert !Blocked(s, k); }
    var first := Collected(a);
    var rest := FinishFrom(Play(a, first), i + 1);
    PlayOn(a, first, rest);
    steps := [Record] + (first + rest);
    PlayFirst(s, Record, first + rest);
  }

  lemma {:induction false} HopelessStays(s: System, step: Step)
    requires Inv(s) && Hopeless(s)
    ensures Hopeless(Next(s, step)) && !Next(s, step).ledger.outcome
  {
    if k: nat :| k < |s.ledger.status| && Blocked(s, k) {
      BlockedHasNoOutcome(s, k);
      StepBlocked(s, step, k);
      assert Blocked(Next(s, step), k);
    } else {
      var i := s.control.i;
      assert s.ledger.status[i] != Complete;
      if step.Record? || step.Leave? { assert Blocked(Next(s, step), i); }
    }
  }

  lemma {:induction false} HopelessForever(s: System, steps: seq<Step>)
    requires Inv(s) && Hopeless(s)
    ensures Inv(Play(s, steps)) && Hopeless(Play(s, steps)) && !Play(s, steps).ledger.outcome
    decreases |steps|
  {
    FitsIfInv(s);
    hide Inv, Hopeless, Next;
    if steps == [] {
      HopelessHasNoOutcome(s);
    } else {
      var init, last := steps[..|steps| - 1], steps[|steps| - 1];
      HopelessForever(s, init);
      HopelessStays(Play(s, init), last);
      StepKeeps(Play(s, init), last);
    }
  }

  lemma {:induction false} HopelessHasNoOutcome(s: System)
    requires Inv(s) && Hopeless(s)
    ensures !s.ledger.outcome
  {
    if k: nat :| k < |s.ledger.status| && Blocked(s, k) {
      BlockedHasNoOutcome(s, k);
    } else {
      assert s.ledger.status[s.control.i] != Complete;
    }
  }

  /** From any moment of any run the series can still come to its outcome if and only if no request is blocked, nor
      about to be by an answer that the driver already holds. */
  lemma {:induction false} CanFinishExactly(n: nat, steps: seq<Step>)
    ensures
      var s := Play(Begin(n), steps);
      (exists more :: Play(s, more).ledger.outcome) <==> !Hopeless(s)
  {
    BeginIsValid(n);
    PlayKeeps(Begin(n), steps);
    var s := Play(Begin(n), steps);
    if Hopeless(s) {
      forall more ensures !Play(s, more).ledger.outcome { HopelessForever(s, more); }
    } else {
      var more := FinishAnywhere(s);
      assert Play(s, more).ledger.outcome;
    }
  }
}
