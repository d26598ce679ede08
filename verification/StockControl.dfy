/** Restartable execution of one frozen series of requests: the durable ledger, the steps of the one driver
    that holds the lock, and what holds over any number of crashes and restarts. */
module StockControl {

  datatype Status = Untouched | Registered | Dispatching | Dispatched | Complete | Failed | Ambiguous

  /** What survives a crash: the backend's status of each request, how often each was really spawned
      outside, the evidence retained under `completed/`, and the outcome. */
  datatype Ledger = Ledger(status: seq<Status>, spawns: seq<nat>, evidence: seq<bool>, outcome: bool)

  predicate Started(x: Status) { x != Untouched && x != Registered }
  predicate Uncertain(x: Status) { x == Dispatching || x == Ambiguous }
  predicate Stuck(x: Status) { Uncertain(x) || x == Failed }

  /** What the transport answers to a dispatch: a call, a definite rejection before anything was started,
      or an error after which the call may or may not exist. */
  datatype Answer = Call | Rejected | Error(spawned: bool)

  predicate Spawns(answer: Answer) { answer.Call? || (answer.Error? && answer.spawned) }

  function StatusAfter(answer: Answer): Status {
    match answer case Call => Dispatched case Rejected => Failed case Error(_) => Ambiguous
  }

  datatype Poll = Running | Ended(complete: bool)

  /** Where the driver is between two durable writes: not there, about to look at a request, holding its
      claim, holding the answer to its dispatch, waiting for it, about to retain its evidence, or about to
      write the outcome. */
  datatype Control =
    | Idle
    | Inspecting(i: nat)
    | Claimed(i: nat)
    | Asked(i: nat, answer: Answer)
    | Waiting(i: nat)
    | Keeping(i: nat)
    | Closing

  datatype System = System(ledger: Ledger, control: Control)

  /** `Leave` is an exception, a deadline or a death, which may come anywhere. */
  datatype Step = Start | Look | Ask(answer: Answer) | Record | Collect(poll: Poll) | Accept | Keep | Close | Leave

  predicate Fits(s: System) {
    && |s.ledger.spawns| == |s.ledger.status| == |s.ledger.evidence|
    && (s.control != Idle && s.control != Closing ==> s.control.i < |s.ledger.status|)
  }

  function Begin(n: nat): (s: System)
    ensures Fits(s) && |s.ledger.status| == n
  {
    System(Ledger(seq(n, _ => Untouched), seq(n, _ => 0), seq(n, _ => false), false), Idle)
  }

  function Turn(l: Ledger, i: nat): Control { if i < |l.status| then Inspecting(i) else Closing }

  function WithStatus(l: Ledger, i: nat, x: Status): Ledger
    requires i < |l.status|
  {
    l.(status := l.status[i := x])
  }

  /** One step of the driver; a step out of turn does nothing. The claim of a request is one transaction, the
      call that its dispatch may start is another event, and the record of its answer a third. */
  function Next(s: System, step: Step): (t: System)
    requires Fits(s)
    ensures Fits(t) && |t.ledger.status| == |s.ledger.status|
  {
    var l := s.ledger;
    match (step, s.control)
    case (Start, Idle) => System(l, Turn(l, 0))
    case (Look, Inspecting(i)) =>
      if Started(l.status[i]) then System(l, Waiting(i)) else System(WithStatus(l, i, Dispatching), Claimed(i))
    case (Ask(answer), Claimed(i)) =>
      System(if Spawns(answer) then l.(spawns := l.spawns[i := l.spawns[i] + 1]) else l, Asked(i, answer))
    case (Record, Asked(i, answer)) => System(WithStatus(l, i, StatusAfter(answer)), Waiting(i))
    case (Collect(Ended(complete)), Waiting(i)) =>
      if l.status[i] == Dispatched then System(WithStatus(l, i, if complete then Complete else Failed), Waiting(i))
          else s
    case (Accept, Waiting(i)) => if l.status[i] == Complete then System(l, Keeping(i)) else s
    case (Keep, Keeping(i)) => System(l.(evidence := l.evidence[i := true]), Turn(l, i + 1))
    case (Close, Closing) => System(l.(outcome := true), Idle)
    case (Leave, _) => System(l, Idle)
    case _ => s
  }

  function Play(s: System, steps: seq<Step>): (t: System)
    requires Fits(s)
    ensures Fits(t) && |t.ledger.status| == |s.ledger.status|
  {
    if steps == [] then s else Next(Play(s, steps[..|steps| - 1]), steps[|steps| - 1])
  }

  lemma {:induction false} PlayOn(s: System, a: seq<Step>, b: seq<Step>)
    requires Fits(s)
    ensures Play(s, a + b) == Play(Play(s, a), b)
    decreases |b|
  {
    if b == [] {
      assert a + b == a;
    } else {
      var init, last := b[..|b| - 1], b[|b| - 1];
      PlayOn(s, a, init);
      assert (a + b)[..|a + b| - 1] == a + init;
    }
  }

  // --- The invariant ------------------------------------------------------------------------------------

  /** A completed prefix, then at most one request that is started but not complete, then untouched ones. */
  predicate Ordered(status: seq<Status>) {
    forall i, j :: 0 <= i < j < |status| && Started(status[j]) ==> status[i] == Complete
  }

  predicate SpawnsAgree(x: Status, spawns: nat) {
    && spawns <= 1
    && (!Started(x) ==> spawns == 0)
    && (x == Dispatched || x == Complete ==> spawns == 1)
  }

  predicate AllComplete(status: seq<Status>) { forall i :: 0 <= i < |status| ==> status[i] == Complete }

  /** The evidence of a request is retained before any later one is started. */
  predicate Retained(s: Ledger)
    requires |s.evidence| == |s.status|
  {
    forall i, j :: 0 <= i < j < |s.status| && Started(s.status[j]) ==> s.evidence[i]
  }

  predicate Valid(s: Ledger) {
    && |s.spawns| == |s.status| == |s.evidence|
    && Ordered(s.status) && Retained(s)
    && (forall i :: 0 <= i < |s.status| ==> SpawnsAgree(s.status[i], s.spawns[i]))
    && (forall i :: 0 <= i < |s.status| && s.evidence[i] ==> s.status[i] == Complete)
    && (s.outcome ==> AllComplete(s.status))
  }

  /** Everything before request `i` is complete and retained. */
  predicate DoneBefore(s: Ledger, i: nat) {
    i <= |s.status| == |s.evidence| && forall j :: 0 <= j < i ==> s.status[j] == Complete && s.evidence[j]
  }

  /** What the driver knows at each place. */
  predicate ControlAgrees(l: Ledger, control: Control)
    requires Fits(System(l, control))
  {
    match control
    case Idle => true
    case Inspecting(i) => DoneBefore(l, i)
    case Claimed(i) => DoneBefore(l, i) && l.status[i] == Dispatching && l.spawns[i] == 0
    case Asked(i, answer) => DoneBefore(l, i) && l.status[i] == Dispatching
        && l.spawns[i] == if Spawns(answer) then 1 else 0
    case Waiting(i) => DoneBefore(l, i) && Started(l.status[i])
    case Keeping(i) => DoneBefore(l, i) && l.status[i] == Complete
    case Closing => DoneBefore(l, |l.status|)
  }

  predicate Inv(s: System) { Fits(s) && Valid(s.ledger) && ControlAgrees(s.ledger, s.control) }

  /** The request at which everything before is done may take another started status. */
  lemma StatusKeeps(l: Ledger, i: nat, x: Status)
    requires Valid(l) && i < |l.status| && DoneBefore(l, i) && l.status[i] != Complete
    requires Started(x) && SpawnsAgree(x, l.spawns[i])
    ensures Valid(WithStatus(l, i, x)) && DoneBefore(WithStatus(l, i, x), i)
  {
    var m := WithStatus(l, i, x);
    forall j, k | 0 <= j < k < |m.status| && Started(m.status[k]) ensures m.status[j] == Complete && m.evidence[j] {
      if k != i { assert Started(l.status[k]) && l.status[j] == Complete && l.evidence[j]; }
    }
  }

  lemma StatusStepKeeps(s: System, step: Step)
    requires Inv(s) && (step.Look? || step.Record? || step.Collect?)
    ensures Inv(Next(s, step))
  {
    var l := s.ledger;
    match (step, s.control)
    case (Look, Inspecting(i)) => if !Started(l.status[i]) { StatusKeeps(l, i, Dispatching); }
    case (Record, Asked(i, answer)) => StatusKeeps(l, i, StatusAfter(answer));
    case (Collect(Ended(complete)), Waiting(i)) =>
      if l.status[i] == Dispatched { StatusKeeps(l, i, if complete then Complete else Failed); }
    case _ =>
  }

  lemma OtherStepKeeps(s: System, step: Step)
    requires Inv(s) && !step.Look? && !step.Record? && !step.Collect?
    ensures Inv(Next(s, step))
  {}

  lemma StepKeeps(s: System, step: Step)
    requires Inv(s)
    ensures Inv(Next(s, step))
  {
    hide Inv, Next;
    if step.Look? || step.Record? || step.Collect? { StatusStepKeeps(s, step); } else { OtherStepKeeps(s, step); }
  }

  lemma {:induction false} PlayKeeps(s: System, steps: seq<Step>)
    requires Inv(s)
    ensures Inv(Play(s, steps))
    decreases |steps|
  {
    if steps != [] {
      PlayKeeps(s, steps[..|steps| - 1]);
      StepKeeps(Play(s, steps[..|steps| - 1]), steps[|steps| - 1]);
    }
  }

  lemma BeginIsValid(n: nat)
    ensures Inv(Begin(n))
  {}

  // --- Any number of crashes and restarts ---------------------------------------------------------------------

  /** However often the driver dies and is started again, no request is ever spawned twice. */
  lemma SpawnedAtMostOnce(n: nat, steps: seq<Step>, i: nat)
    requires i < n
    ensures Play(Begin(n), steps).ledger.spawns[i] <= 1
  {
    BeginIsValid(n);
    PlayKeeps(Begin(n), steps);
    var l := Play(Begin(n), steps).ledger;
    assert SpawnsAgree(l.status[i], l.spawns[i]);
  }

  /** At every moment there is one frontier: everything before it is complete, everything after it is neither
      started nor spawned, and what is retained lies before or at it. */
  lemma Frontier(n: nat, steps: seq<Step>) returns (k: nat)
    ensures
      var l := Play(Begin(n), steps).ledger;
      && k <= n
      && (forall i :: 0 <= i < k ==> l.status[i] == Complete && l.spawns[i] == 1)
      && (forall i :: k < i < n ==> !Started(l.status[i]) && l.spawns[i] == 0)
      && (k < n ==> l.status[k] != Complete)
      && (forall i :: 0 <= i < n && l.evidence[i] ==> i < k)
  {
    BeginIsValid(n);
    PlayKeeps(Begin(n), steps);
    var l := Play(Begin(n), steps).ledger;
    k := 0;
    while k < n && l.status[k] == Complete
      invariant k <= n && forall i :: 0 <= i < k ==> l.status[i] == Complete
    {
      k := k + 1;
    }
    forall i | 0 <= i < n ensures SpawnsAgree(l.status[i], l.spawns[i]) {}
  }

  /** An outcome exists only when every request is complete, was spawned exactly once, and has its evidence
      retained. */
  lemma OutcomeMeansComplete(n: nat, steps: seq<Step>, i: nat)
    requires Play(Begin(n), steps).ledger.outcome && i < n
    ensures
      var l := Play(Begin(n), steps).ledger;
      l.status[i] == Complete && l.spawns[i] == 1 && l.evidence[i]
  {
    BeginIsValid(n);
    PlayKeeps(Begin(n), steps);
    OutcomeIsRetained(n, steps);
    var l := Play(Begin(n), steps).ledger;
    assert SpawnsAgree(l.status[i], l.spawns[i]);
  }

  lemma {:induction false} OutcomeIsRetained(n: nat, steps: seq<Step>)
    ensures
      var l := Play(Begin(n), steps).ledger;
      l.outcome ==> DoneBefore(l, n)
    decreases |steps|
  {
    if steps != [] {
      var init := steps[..|steps| - 1];
      OutcomeIsRetained(n, init);
      BeginIsValid(n);
      PlayKeeps(Begin(n), init);
      DoneKeeps(Play(Begin(n), init), steps[|steps| - 1]);
    }
  }

  lemma DoneKeeps(s: System, step: Step)
    requires Inv(s) && (s.ledger.outcome ==> DoneBefore(s.ledger, |s.ledger.status|))
    ensures
      var l := Next(s, step).ledger;
      l.outcome ==> DoneBefore(l, |l.status|)
  {}

  // --- Stuck for ever -------------------------------------------------------------------------------------------

  /** The request failed, is ambiguous, or is claimed by a driver that is no longer there to answer for it. */
  predicate Blocked(s: System, k: nat)
    requires Fits(s)
  {
    && k < |s.ledger.status| && Stuck(s.ledger.status[k])
    && !(s.control.Claimed? && s.control.i == k) && !(s.control.Asked? && s.control.i == k)
  }

  lemma StepBlocked(s: System, step: Step, k: nat)
    requires Inv(s) && Blocked(s, k)
    ensures
      var t := Next(s, step);
      && Blocked(t, k) && t.ledger.status == s.ledger.status
      && t.ledger.spawns == s.ledger.spawns && t.ledger.outcome == s.ledger.outcome
  {
    if s.control.Claimed? || s.control.Asked? || s.control.Inspecting? || s.control.Waiting? || s.control.Keeping? {
      BlockedAhead(s, k);
    }
  }

  lemma BlockedAhead(s: System, k: nat)
    requires Inv(s) && Blocked(s, k) && s.control != Idle && s.control != Closing
    ensures s.control.i <= k && (s.control.i < k ==> s.ledger.status[s.control.i] == Complete)
  {
    assert Started(s.ledger.status[k]);
  }

  /** A request found failed, ambiguous, or abandoned after its claim stays as it is, no request changes any
      more, and nothing is spawned and no outcome written ever after. */
  lemma {:induction false} StuckForever(n: nat, steps: seq<Step>, more: seq<Step>, k: nat)
    requires Blocked(Play(Begin(n), steps), k)
    ensures
      var (l, m) := (Play(Begin(n), steps).ledger, Play(Begin(n), steps + more).ledger);
      m.status == l.status && m.spawns == l.spawns && !m.outcome
    ensures Blocked(Play(Begin(n), steps + more), k)
    decreases |more|
  {
    hide Inv, Next, Blocked;
    BeginIsValid(n);
    PlayKeeps(Begin(n), steps);
    if more == [] {
      assert steps + more == steps;
      BlockedHasNoOutcome(Play(Begin(n), steps), k);
    } else {
      var init, last := more[..|more| - 1], more[|more| - 1];
      StuckForever(n, steps, init, k);
      PlayKeeps(Begin(n), steps + init);
      assert (steps + more)[..|steps + more| - 1] == steps + init;
      StepBlocked(Play(Begin(n), steps + init), last, k);
    }
  }

  lemma BlockedHasNoOutcome(s: System, k: nat)
    requires Inv(s) && Blocked(s, k)
    ensures !s.ledger.outcome
  {
    assert s.ledger.status[k] != Complete;
  }

  /** A driver that dies with its claim blocks everything after it. */
  lemma DeadClaimBlocks(n: nat, steps: seq<Step>, k: nat)
    requires var s := Play(Begin(n), steps); (s.control.Claimed? || s.control.Asked?) && s.control.i == k
    ensures Blocked(Play(Begin(n), steps + [Leave]), k)
  {
    BeginIsValid(n);
    PlayKeeps(Begin(n), steps);
    assert (steps + [Leave])[..|steps + [Leave]| - 1] == steps;
  }

  // --- What an invocation may do ----------------------------------------------------------------------------------

  ghost predicate Reaches(s: System, t: System)
    requires Fits(s)
  {
    exists steps :: Play(s, steps) == t
  }

  lemma ReachesItself(s: System)
    requires Fits(s)
    ensures Reaches(s, s)
  {
    assert Play(s, []) == s;
  }

  lemma ReachesNext(s: System, t: System, step: Step)
    requires Fits(s) && Reaches(s, t)
    ensures Fits(t) && Reaches(s, Next(t, step))
  {
    var steps :| Play(s, steps) == t;
    assert (steps + [step])[..|steps + [step]| - 1] == steps;
    assert Play(s, steps + [step]) == Next(t, step);
  }

  lemma ReachesOn(s: System, t: System, u: System)
    requires Fits(s) && Fits(t) && Reaches(s, t) && Reaches(t, u)
    ensures Reaches(s, u)
  {
    var a :| Play(s, a) == t;
    var b :| Play(t, b) == u;
    PlayOn(s, a, b);
  }

  lemma ReachesKeeps(s: System, t: System)
    requires Inv(s) && Reaches(s, t)
    ensures Inv(t) && |t.ledger.status| == |s.ledger.status|
  {
    var steps :| Play(s, steps) == t;
    PlayKeeps(s, steps);
  }

  /** The ledgers that invocations leave one after the other are ledgers of one run. */
  lemma {:induction false} InvocationsAreRuns(n: nat, ledgers: seq<Ledger>, k: nat)
    requires k < |ledgers| && ledgers[0] == Begin(n).ledger
    requires forall j :: 0 <= j < |ledgers| ==> Fits(System(ledgers[j], Idle))
    requires forall j :: 0 <= j < |ledgers| - 1 ==> Reaches(System(ledgers[j], Idle), System(ledgers[j + 1], Idle))
    ensures Reaches(Begin(n), System(ledgers[k], Idle))
    decreases k
  {
    if k == 0 {
      ReachesItself(Begin(n));
    } else {
      InvocationsAreRuns(n, ledgers, k - 1);
      assert Reaches(System(ledgers[k - 1], Idle), System(ledgers[k - 1 + 1], Idle));
      ReachesOn(Begin(n), System(ledgers[k - 1], Idle), System(ledgers[k], Idle));
    }
  }
}
