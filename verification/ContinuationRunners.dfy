/** Any number of runners over one ledger. The continuation takes no lock: its runners interleave at every durable
    write, and each of them may die anywhere and start again. */
module ContinuationRunners {
  import opened StockControl

  /** The shared ledger, and where each runner is. */
  datatype Crowd = Crowd(ledger: Ledger, controls: seq<Control>)

  /** What runner `p` sees. */
  function View(s: Crowd, p: nat): System
    requires p < |s.controls|
  {
    System(s.ledger, s.controls[p])
  }

  predicate AllFit(s: Crowd) {
    && |s.ledger.spawns| == |s.ledger.status| == |s.ledger.evidence|
    && forall p :: 0 <= p < |s.controls| ==> Fits(View(s, p))
  }

  function Gather(n: nat, runners: nat): (s: Crowd)
    ensures AllFit(s) && |s.ledger.status| == n && |s.controls| == runners
  {
    Crowd(Begin(n).ledger, seq(runners, _ => Idle))
  }

  /** A step of runner `p`. */
  datatype Move = Move(p: nat, step: Step)

  function Act(s: Crowd, move: Move): (t: Crowd)
    requires AllFit(s)
    ensures AllFit(t) && |t.ledger.status| == |s.ledger.status| && |t.controls| == |s.controls|
  {
    if move.p >= |s.controls| then s
    else
      var t := Next(View(s, move.p), move.step);
      var u := Crowd(t.ledger, s.controls[move.p := t.control]);
      assert forall q :: 0 <= q < |s.controls| && Fits(View(s, q)) ==> Fits(View(u, q));
      u
  }

  function Race(s: Crowd, moves: seq<Move>): (t: Crowd)
    requires AllFit(s)
    ensures AllFit(t) && |t.ledger.status| == |s.ledger.status| && |t.controls| == |s.controls|
  {
    if moves == [] then s else Act(Race(s, moves[..|moves| - 1]), moves[|moves| - 1])
  }

  lemma {:induction false} RaceOne(s: Crowd, moves: seq<Move>, move: Move)
    requires AllFit(s)
    ensures Race(s, moves + [move]) == Act(Race(s, moves), move)
  {
    assert (moves + [move])[..|moves + [move]| - 1] == moves;
  }

  // --- The invariant ----------------------------------------------------------------------------------------

  predicate Holds(c: Control, i: nat) { (c.Claimed? || c.Asked?) && c.i == i }

  predicate Rivals(c: Control, d: Control) { (c.Claimed? || c.Asked?) && Holds(d, c.i) }

  /** No two runners hold the claim of one request. */
  predicate Exclusive(controls: seq<Control>) {
    forall p, q :: 0 <= p < |controls| && 0 <= q < |controls| && p != q ==> !Rivals(controls[p], controls[q])
  }

  predicate CrowdInv(s: Crowd) {
    && AllFit(s) && Valid(s.ledger) && Exclusive(s.controls)
    && forall p :: 0 <= p < |s.controls| ==> Inv(View(s, p))
  }

  /** What one runner's step leaves of what another one knows. */
  lemma OtherKept(s: System, step: Step, d: Control)
    requires Inv(s) && Inv(System(s.ledger, d)) && !Rivals(s.control, d)
    ensures Inv(System(Next(s, step).ledger, d))
  {
    StepKeeps(s, step);
  }

  /** A claim is only taken of a request that nobody holds. */
  lemma ClaimIsNew(s: System, step: Step, d: Control)
    requires Inv(s) && Inv(System(s.ledger, d)) && !Rivals(s.control, d)
    ensures !Rivals(Next(s, step).control, d) && !Rivals(d, Next(s, step).control)
  {}

  lemma ActKeeps(s: Crowd, move: Move)
    requires CrowdInv(s)
    ensures CrowdInv(Act(s, move))
  {
    if move.p < |s.controls| {
      var v := View(s, move.p);
      var t := Act(s, move);
      StepKeeps(v, move.step);
      hide Next, Valid, ControlAgrees;
      assert Inv(View(t, move.p));
      forall q | 0 <= q < |s.controls| && q != move.p
        ensures Inv(View(t, q))
        ensures !Rivals(t.controls[move.p], t.controls[q]) && !Rivals(t.controls[q], t.controls[move.p])
      {
        assert Inv(View(s, q));
        OtherKept(v, move.step, s.controls[q]);
        ClaimIsNew(v, move.step, s.controls[q]);
      }
    }
  }

  lemma GatherIsValid(n: nat, runners: nat)
    ensures CrowdInv(Gather(n, runners))
  {
    BeginIsValid(n);
  }

  lemma {:induction false} RaceKeeps(n: nat, runners: nat, moves: seq<Move>)
    ensures CrowdInv(Race(Gather(n, runners), moves))
    decreases |moves|
  {
    hide CrowdInv, Act;
    if moves == [] {
      GatherIsValid(n, runners);
    } else {
      RaceKeeps(n, runners, moves[..|moves| - 1]);
      ActKeeps(Race(Gather(n, runners), moves[..|moves| - 1]), moves[|moves| - 1]);
    }
  }

  // --- Over every interleaving ---------------------------------------------------------------------------------

  /** However many runners race, die and start again, no request is ever spawned twice. */
  lemma {:induction false} SpawnedOnceByAll(n: nat, runners: nat, moves: seq<Move>, i: nat)
    requires i < n
    ensures Race(Gather(n, runners), moves).ledger.spawns[i] <= 1
  {
    RaceKeeps(n, runners, moves);
    var l := Race(Gather(n, runners), moves).ledger;
    assert SpawnsAgree(l.status[i], l.spawns[i]);
  }

  /** A runner with an answer to its dispatch finds its own claim still there: the error of a dispatch state that
      changed under it is never raised, and no other runner holds the claim. */
  lemma {:induction false} ClaimIsKept(n: nat, runners: nat, moves: seq<Move>, p: nat)
    requires p < runners && Race(Gather(n, runners), moves).controls[p].Asked?
    ensures
      var s := Race(Gather(n, runners), moves);
      var i := s.controls[p].i;
      && i < n && s.ledger.status[i] == Dispatching
      && forall q :: 0 <= q < runners && q != p ==> !Holds(s.controls[q], i)
  {
    RaceKeeps(n, runners, moves);
    var s := Race(Gather(n, runners), moves);
    assert Inv(View(s, p));
    forall q | 0 <= q < runners && q != p ensures !Holds(s.controls[q], s.controls[p].i) {
      assert !Rivals(s.controls[p], s.controls[q]);
    }
  }

  /** A runner that is not past request `k`. */
  predicate BeforeOrAt(c: Control, k: nat) { c != Idle && c != Closing ==> c.i <= k }

  /** At every moment there is one frontier that no runner is past: before it every request is complete and was
      spawned once, after it none is started, and evidence exists only for what is before it. */
  lemma {:induction false} SharedFrontier(n: nat, runners: nat, moves: seq<Move>) returns (k: nat)
    ensures
      var s := Race(Gather(n, runners), moves);
      && k <= n
      && (forall i :: 0 <= i < k ==> s.ledger.status[i] == Complete && s.ledger.spawns[i] == 1)
      && (forall i :: k < i < n ==> !Started(s.ledger.status[i]) && s.ledger.spawns[i] == 0)
      && (forall i :: 0 <= i < n && s.ledger.evidence[i] ==> i < k)
      && (forall p :: 0 <= p < runners ==> BeforeOrAt(s.controls[p], k))
  {
    RaceKeeps(n, runners, moves);
    var s := Race(Gather(n, runners), moves);
    var l := s.ledger;
    k := 0;
    while k < n && l.status[k] == Complete
      invariant k <= n && forall i :: 0 <= i < k ==> l.status[i] == Complete
    {
      k := k + 1;
    }
    forall i | 0 <= i < n ensures SpawnsAgree(l.status[i], l.spawns[i]) {}
    forall p | 0 <= p < runners ensures BeforeOrAt(s.controls[p], k) {
      assert Inv(View(s, p));
    }
  }

  /** An outcome exists only when every request is complete, was spawned exactly once, and is retained. */
  lemma {:induction false} SharedOutcomeMeansComplete(n: nat, runners: nat, moves: seq<Move>, i: nat)
    requires Race(Gather(n, runners), moves).ledger.outcome && i < n
    ensures
      var l := Race(Gather(n, runners), moves).ledger;
      l.status[i] == Complete && l.spawns[i] == 1 && l.evidence[i]
  {
    RaceKeeps(n, runners, moves);
    SharedOutcomeIsRetained(n, runners, moves);
    var l := Race(Gather(n, runners), moves).ledger;
    assert SpawnsAgree(l.status[i], l.spawns[i]);
  }

  lemma {:induction false} SharedOutcomeIsRetained(n: nat, runners: nat, moves: seq<Move>)
    ensures
      var l := Race(Gather(n, runners), moves).ledger;
      l.outcome ==> DoneBefore(l, n)
    decreases |moves|
  {
    if moves != [] {
      var init, last := moves[..|moves| - 1], moves[|moves| - 1];
      SharedOutcomeIsRetained(n, runners, init);
      RaceKeeps(n, runners, init);
      var s := Race(Gather(n, runners), init);
      hide Next, Valid, ControlAgrees, DoneBefore;
      if last.p < |s.controls| {
        assert Inv(View(s, last.p));
        DoneKeeps(View(s, last.p), last.step);
      }
    }
  }

  /** The request is stuck, and no runner is left that could answer for it. */
  predicate NobodyAnswers(s: Crowd, k: nat)
    requires AllFit(s)
  {
    && k < |s.ledger.status| && Stuck(s.ledger.status[k])
    && forall p :: 0 <= p < |s.controls| ==> !Holds(s.controls[p], k)
  }

  lemma ActBlocked(s: Crowd, move: Move, k: nat)
    requires CrowdInv(s) && NobodyAnswers(s, k)
    ensures
      var t := Act(s, move);
      && NobodyAnswers(t, k) && t.ledger.status == s.ledger.status
      && t.ledger.spawns == s.ledger.spawns && t.ledger.outcome == s.ledger.outcome
  {
    if move.p < |s.controls| {
      hide Next, Valid, ControlAgrees;
      assert Inv(View(s, move.p)) && !Holds(s.controls[move.p], k);
      StepBlocked(View(s, move.p), move.step, k);
    }
  }

  /** Once a request is stuck and unanswered, no runner ever changes a status, spawns anything, or writes an
      outcome. */
  lemma {:induction false} SharedStuckForever(n: nat, runners: nat, moves: seq<Move>, more: seq<Move>, k: nat)
    requires NobodyAnswers(Race(Gather(n, runners), moves), k)
    ensures
      var (s, t) := (Race(Gather(n, runners), moves), Race(Gather(n, runners), moves + more));
      && NobodyAnswers(t, k)
      && t.ledger.status == s.ledger.status && t.ledger.spawns == s.ledger.spawns && !t.ledger.outcome
    decreases |more|
  {
    RaceKeeps(n, runners, moves);
    if more == [] {
      assert moves + more == moves;
      assert Race(Gather(n, runners), moves).ledger.status[k] != Complete;
    } else {
      var init, last := more[..|more| - 1], more[|more| - 1];
      SharedStuckForever(n, runners, moves, init, k);
      RaceKeeps(n, runners, moves + init);
      hide CrowdInv, Act, NobodyAnswers;
      assert moves + more == moves + init + [last];
      RaceOne(Gather(n, runners), moves + init, last);
      ActBlocked(Race(Gather(n, runners), moves + init), last, k);
    }
  }

  /** A runner that dies with its claim leaves such a request behind: nobody else holds it. */
  lemma {:induction false} LostClaimBlocks(n: nat, runners: nat, moves: seq<Move>, p: nat, k: nat)
    requires p < runners && Holds(Race(Gather(n, runners), moves).controls[p], k)
    ensures NobodyAnswers(Race(Gather(n, runners), moves + [Move(p, Leave)]), k)
  {
    RaceKeeps(n, runners, moves);
    var s := Race(Gather(n, runners), moves);
    assert Inv(View(s, p));
    RaceOne(Gather(n, runners), moves, Move(p, Leave));
    forall q | 0 <= q < runners && q != p ensures !Holds(s.controls[q], k) {
      assert !Rivals(s.controls[p], s.controls[q]);
    }
  }

  // --- One runner, undisturbed --------------------------------------------------------------------------------

  function Alone(p: nat, steps: seq<Step>): seq<Move> { seq(|steps|, i requires 0 <= i < |steps| => Move(p, steps[i])) }

  /** The steps of one runner that nobody disturbs are moves of the crowd. */
  lemma {:induction false} AloneIsRace(s: Crowd, p: nat, steps: seq<Step>)
    requires AllFit(s) && p < |s.controls|
    ensures
      var t := Play(View(s, p), steps);
      Race(s, Alone(p, steps)) == Crowd(t.ledger, s.controls[p := t.control])
    decreases |steps|
  {
    if steps == [] {
      assert s.controls[p := s.controls[p]] == s.controls;
    } else {
      var init, last := steps[..|steps| - 1], steps[|steps| - 1];
      AloneIsRace(s, p, init);
      assert Alone(p, steps) == Alone(p, init) + [Move(p, last)];
      hide Next;
      RaceOne(s, Alone(p, init), Move(p, last));
    }
  }

  /** So what an undisturbed invocation leaves is reached by a race, from wherever the ledger was. */
  lemma {:induction false} InvocationIsRace(n: nat, runners: nat, moves: seq<Move>, p: nat, l: Ledger)
    returns (more: seq<Move>)
    requires p < runners && Race(Gather(n, runners), moves).controls[p] == Idle
    requires Reaches(System(Race(Gather(n, runners), moves).ledger, Idle), System(l, Idle))
    ensures
      var s := Race(Gather(n, runners), moves);
      Race(s, more) == s.(ledger := l)
  {
    var s := Race(Gather(n, runners), moves);
    var steps :| Play(System(s.ledger, Idle), steps) == System(l, Idle);
    more := Alone(p, steps);
    AloneIsRace(s, p, steps);
    assert s.controls[p := Idle] == s.controls;
  }
}
