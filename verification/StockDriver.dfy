/** The stock-control driver object. Each of its methods leaves the ledger where a chain of driver steps
    leaves it, wherever it stops or dies. */
module StockDriver {
  import opened StockControl

  /** How one invocation ended: at its end, with the "in progress" or the "failed" exception, or dead. */
  datatype Ending = Finished | Pending | Stopped | Crashed

  /** Where the driver is when a call ends: at `control`, or gone. */
  function After(l: Ledger, ending: Ending, control: Control): System {
    System(l, if ending == Finished then control else Idle)
  }

  lemma Advance(s: System, t: System, step: Step, u: System)
    requires Inv(s) && Fits(t) && Reaches(s, t) && Next(t, step) == u
    ensures Reaches(s, u) && Inv(u)
  {
    ReachesNext(s, t, step);
    ReachesKeeps(s, u);
  }

  /** The three steps of a submission. */
  lemma Claim(s: System)
    requires Inv(s) && s.control.Inspecting? && !Started(s.ledger.status[s.control.i])
    ensures
      var t := System(WithStatus(s.ledger, s.control.i, Dispatching), Claimed(s.control.i));
      Reaches(s, t) && Inv(t)
  {
    ReachesItself(s);
    Advance(s, s, Look, System(WithStatus(s.ledger, s.control.i, Dispatching), Claimed(s.control.i)));
  }

  lemma Dispatch(s: System, t: System, answer: Answer)
    requires Inv(s) && Inv(t) && Reaches(s, t) && t.control.Claimed?
    ensures
      var (l, i) := (t.ledger, t.control.i);
      var u := System(if Spawns(answer) then l.(spawns := l.spawns[i := l.spawns[i] + 1]) else l, Asked(i, answer));
      Reaches(s, u) && Inv(u)
  {
    Advance(s, t, Ask(answer), Next(t, Ask(answer)));
  }

  lemma RecordAnswer(s: System, t: System)
    requires Inv(s) && Inv(t) && Reaches(s, t) && t.control.Asked?
    ensures
      var u := System(WithStatus(t.ledger, t.control.i, StatusAfter(t.control.answer)), Waiting(t.control.i));
      Reaches(s, u) && Inv(u)
  {
    Advance(s, t, Record, Next(t, Record));
  }

  lemma Depart(s: System, t: System)
    requires Inv(s) && Inv(t) && Reaches(s, t)
    ensures Reaches(s, System(t.ledger, Idle)) && Inv(System(t.ledger, Idle))
  {
    Advance(s, t, Leave, Next(t, Leave));
  }

  lemma Join(s: System, t: System, u: System)
    requires Inv(s) && Fits(t) && Reaches(s, t) && Reaches(t, u)
    ensures Reaches(s, u) && Inv(u) && |u.ledger.status| == |s.ledger.status|
  {
    ReachesOn(s, t, u);
    ReachesKeeps(s, u);
  }

  class Driver {
    var state: Ledger

    constructor (n: nat)
      ensures state == Begin(n).ledger
    {
      state := Ledger(seq(n, _ => Untouched), seq(n, _ => 0), seq(n, _ => false), false);
    }

    method SetStatus(i: nat, x: Status)
      requires i < |state.status|
      modifies this
      ensures state == WithStatus(old(state), i, x)
    {
      state := state.(status := state.status[i := x]);
    }

    /** `submit`: the claim is durable before the transport is asked, and only its own outcome is recorded
        after. The call may die after either. */
    method Submit(i: nat, answer: Answer, dies: bool) returns (ending: Ending)
      requires Inv(System(state, Inspecting(i))) && !Started(state.status[i])
      modifies this
      ensures Inv(After(state, ending, Waiting(i)))
      ensures Reaches(old(System(state, Inspecting(i))), After(state, ending, Waiting(i)))
      ensures |state.status| == |old(state).status| && i < |state.status| && Started(state.status[i])
      ensures ending != Finished ==> ending == Crashed
      ensures ending == Finished ==>
        && (answer.Call? ==> state.status[i] == Dispatched) && (answer.Rejected? ==> state.status[i] == Failed)
        && (answer.Error? ==> state.status[i] == Ambiguous)
      ensures !Spawns(answer) ==> state.spawns == old(state).spawns
      ensures forall j :: 0 <= j < |state.status| && j != i ==> state.status[j] == old(state).status[j]
      ensures state.outcome == old(state).outcome && state.evidence == old(state).evidence
    {
      hide Reaches, Inv;
      ghost var first := System(state, Inspecting(i));
      FitsIfInv(first);
      Claim(first);
      SetStatus(i, Dispatching);
      ghost var claimed := System(state, Claimed(i));
      if * {
        Depart(first, claimed);
        return Crashed;
      }
      Dispatch(first, claimed, answer);
      if answer.Call? || (answer.Error? && answer.spawned) {
        state := state.(spawns := state.spawns[i := state.spawns[i] + 1]);
      }
      ghost var asked := System(state, Asked(i, answer));
      if dies {
        Depart(first, asked);
        return Crashed;
      }
      RecordAnswer(first, asked);
      SetStatus(i, match answer case Call => Dispatched case Rejected => Failed case Error(_) => Ambiguous);
      return Finished;
    }

    /** `collect` of a dispatched request: unchanged while it runs, otherwise its terminal status. */
    method CollectResult(i: nat, poll: Poll)
      requires Inv(System(state, Waiting(i))) && state.status[i] == Dispatched
      modifies this
      ensures Inv(System(state, Waiting(i)))
      ensures Reaches(old(System(state, Waiting(i))), System(state, Waiting(i)))
      ensures state == match poll
        case Running => old(state)
        case Ended(complete) => WithStatus(old(state), i, if complete then Complete else Failed)
    {
      hide Reaches, Inv;
      ghost var first := System(state, Waiting(i));
      FitsIfInv(first);
      ReachesItself(first);
      if poll.Ended? { SetStatus(i, if poll.complete then Complete else Failed); }
      Advance(first, first, Collect(poll), System(state, Waiting(i)));
    }

    /** The wait for a dispatched request, up to a deadline that `patience` polls reach. */
    method Await(i: nat, patience: nat) returns (ending: Ending)
      requires Inv(System(state, Waiting(i)))
      modifies this
      ensures Inv(After(state, ending, Waiting(i)))
      ensures Reaches(old(System(state, Waiting(i))), After(state, ending, Waiting(i)))
      ensures |state.status| == |old(state).status| && i < |state.status|
      ensures ending == Finished ==> state.status[i] != Dispatched
      ensures ending == Pending ==> state.status[i] == Dispatched
      ensures ending != Finished ==> ending == Pending || ending == Crashed
      ensures forall j :: 0 <= j < |state.status| && j != i ==> state.status[j] == old(state).status[j]
      ensures Stuck(old(state).status[i]) ==> state == old(state)
    {
      hide Reaches;
      ghost var first := System(state, Waiting(i));
      ReachesItself(first);
      var polls := 0;
      while state.status[i] == Dispatched
        invariant |state.status| == |old(state).status| && Inv(System(state, Waiting(i)))
        invariant Reaches(first, System(state, Waiting(i))) && polls <= patience
        invariant forall j :: 0 <= j < |state.status| && j != i ==> state.status[j] == old(state).status[j]
        invariant Stuck(old(state).status[i]) ==> state == old(state)
        decreases patience - polls
      {
        ghost var before := System(state, Waiting(i));
        if polls == patience {
          Depart(first, before);
          return Pending;
        }
        var poll: Poll := *;
        CollectResult(i, poll);
        ghost var after := System(state, Waiting(i));
        Join(first, before, after);
        polls := polls + 1;
        if * {
          Depart(first, after);
          return Crashed;
        }
      }
      return Finished;
    }

    /** A request that nobody has claimed is submitted; any other is only inspected. */
    method SubmitIfFree(i: nat) returns (ending: Ending)
      requires Inv(System(state, Inspecting(i)))
      modifies this
      ensures Inv(After(state, ending, Waiting(i)))
      ensures Reaches(old(System(state, Inspecting(i))), After(state, ending, Waiting(i)))
      ensures |state.status| == |old(state).status| && i < |state.status|
      ensures ending == Finished ==> Started(state.status[i])
      ensures ending != Finished ==> ending == Crashed
      ensures Started(old(state).status[i]) ==> state == old(state) && ending == Finished
    {
      hide Reaches;
      ghost var first := System(state, Inspecting(i));
      ReachesItself(first);
      if Started(state.status[i]) {
        Advance(first, first, Look, System(state, Waiting(i)));
        return Finished;
      }
      if * {
        Depart(first, first);
        return Crashed;
      }
      var answer: Answer := *;
      var dies: bool := *;
      ending := Submit(i, answer, dies);
    }

    /** The evidence of a complete request is retained under `completed/`, unless the driver dies first. */
    method Retain(i: nat) returns (ending: Ending)
      requires Inv(System(state, Waiting(i))) && state.status[i] == Complete
      modifies this
      ensures Inv(After(state, ending, Turn(state, i + 1)))
      ensures Reaches(old(System(state, Waiting(i))), After(state, ending, Turn(state, i + 1)))
      ensures |state.status| == |old(state).status| && (ending == Finished || ending == Crashed)
      ensures ending == Finished ==> state == old(state).(evidence := old(state).evidence[i := true])
    {
      hide Reaches;
      ghost var first := System(state, Waiting(i));
      ReachesItself(first);
      ghost var keeping := System(state, Keeping(i));
      Advance(first, first, Accept, keeping);
      if * {
        Depart(first, keeping);
        return Crashed;
      }
      state := state.(evidence := state.evidence[i := true]);
      Advance(first, keeping, Keep, System(state, Turn(state, i + 1)));
      return Finished;
    }

    /** One turn of the loop in `_run`. */
    method RunOne(i: nat, patience: nat) returns (ending: Ending)
      requires Inv(System(state, Inspecting(i)))
      modifies this
      ensures Inv(After(state, ending, Turn(state, i + 1)))
      ensures Reaches(old(System(state, Inspecting(i))), After(state, ending, Turn(state, i + 1)))
      ensures |state.status| == |old(state).status| && i < |state.status|
      ensures ending == Stopped ==> state.status[i] == Failed
      ensures ending == Pending ==> Uncertain(state.status[i]) || state.status[i] == Dispatched
      ensures Stuck(old(state).status[i]) ==> ending != Finished && state == old(state)
    {
      hide Reaches;
      ghost var first := System(state, Inspecting(i));
      ending := SubmitIfFree(i);
      if ending == Crashed { return; }
      ghost var submitted := System(state, Waiting(i));
      ending := Await(i, patience);
      Join(first, submitted, After(state, ending, Waiting(i)));
      if ending != Finished { return; }
      ghost var waited := System(state, Waiting(i));
      if state.status[i] != Complete {
        Depart(first, waited);
        return if Uncertain(state.status[i]) || state.status[i] == Registered then Pending else Stopped;
      }
      ending := Retain(i);
      Join(first, waited, After(state, ending, Turn(state, i + 1)));
    }

    /** `_run`, under the controller lock. */
    method Run(patience: nat) returns (ending: Ending)
      requires Inv(System(state, Idle))
      modifies this
      ensures Inv(System(state, Idle)) && Reaches(old(System(state, Idle)), System(state, Idle))
      ensures ending == Finished ==> state.outcome && DoneBefore(state, |state.status|)
      ensures ending == Stopped ==> exists i :: 0 <= i < |state.status| && state.status[i] == Failed
      ensures ending == Pending ==>
        exists i :: 0 <= i < |state.status| && (Uncertain(state.status[i]) || state.status[i] == Dispatched)
    {
      hide Reaches;
      ghost var first := System(state, Idle);
      ReachesItself(first);
      Advance(first, first, Start, System(state, Turn(state, 0)));
      for i := 0 to |state.status|
        invariant |state.status| == |old(state).status|
        invariant Inv(System(state, Turn(state, i))) && Reaches(first, System(state, Turn(state, i)))
      {
        ghost var before := System(state, Turn(state, i));
        ending := RunOne(i, patience);
        Join(first, before, After(state, ending, Turn(state, i + 1)));
        if ending != Finished { return; }
      }
      ghost var done := System(state, Closing);
      if * {
        Depart(first, done);
        return Crashed;
      }
      state := state.(outcome := true);
      Advance(first, done, Close, System(state, Idle));
      return Finished;
    }
  }

  lemma FitsIfInv(s: System)
    ensures Inv(s) ==> Fits(s)
  {}
}
