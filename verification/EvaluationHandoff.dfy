/** The public evaluation handoff: any number of calls and retries, interleaved with whatever the registry and
    the broker do, and no result released before every actor's evaluation is complete. */
module EvaluationHandoff {
  import opened Options
  import opened Sequences

  datatype Status = Reserved | Complete | Failed | Cancelled

  datatype Candidate = Candidate(actor: string, receipt: string, status: Status, result: Option<string>)

  /** The submission registry and the compute broker, as far as the handoff sees them. */
  datatype Store = Store(candidates: seq<Candidate>, closed: bool, released: set<string>)

  datatype Feedback = Feedback(campaign: string, job: string, materials: Option<string>)

  /** The handoff's campaign, job and roster of actors. */
  datatype Scope = Scope(campaign: string, job: string, roster: seq<string>)

  function Receipts(cs: seq<Candidate>): seq<string> { seq(|cs|, i requires 0 <= i < |cs| => cs[i].receipt) }

  function ReceiptsOf(cs: seq<Candidate>): set<string> { set c | c in cs :: c.receipt }

  function Actors(cs: seq<Candidate>): set<string> { set c | c in cs :: c.actor }

  /** `prepare`: exactly one admitted candidate for each actor of the roster. */
  predicate Prepared(roster: seq<string>, cs: seq<Candidate>) { |cs| == |roster| && Actors(cs) == Elements(roster) }

  predicate Ready(c: Candidate) { c.status == Complete && c.result.Some? }

  /** Every actor of the roster has its candidate, complete with a verified result. */
  predicate AllReady(roster: seq<string>, s: Store) {
    Prepared(roster, s.candidates) && forall i :: 0 <= i < |s.candidates| ==> Ready(s.candidates[i])
  }

  function FeedbackOf(scope: Scope, cs: seq<Candidate>): Feedback {
    Feedback(scope.campaign, scope.job, if |cs| == 1 then Some(cs[0].receipt) else None)
  }

  // --- What others may do ---------------------------------------------------------------------------------------

  /** A terminal status never changes, nor does a verified result. */
  predicate Progresses(c: Candidate, d: Candidate) {
    && d.actor == c.actor && d.receipt == c.receipt
    && (c.status != Reserved ==> d.status == c.status)
    && (c.result.Some? ==> d.result == c.result)
  }

  predicate Since(cs: seq<Candidate>, ds: seq<Candidate>) {
    |cs| <= |ds| && forall i :: 0 <= i < |cs| ==> Progresses(cs[i], ds[i])
  }

  /** Candidates are admitted under receipts of their own until submissions are closed, and evaluations progress,
      before and after. */
  predicate Evolves(s: Store, t: Store) {
    && NoRepeats(Receipts(t.candidates)) && Since(s.candidates, t.candidates)
    && (s.closed ==> t.closed && |t.candidates| == |s.candidates|)
    && s.released <= t.released
  }

  // --- Steps ------------------------------------------------------------------------------------------------------

  /** Where a call of `evaluate` is: not begun, evaluating what it prepared, past its checks, releasing the
      actors one by one, returned, or gone with an exception or its process. */
  datatype Place =
    | Idle
    | Evaluating(prepared: seq<Candidate>)
    | Checked(prepared: seq<Candidate>)
    | Releasing(prepared: seq<Candidate>, k: nat)
    | Returned(feedback: Feedback)
    | Gone

  datatype System = System(store: Store, calls: seq<Place>)

  /** `Elsewhere` is anything the registry and the broker do; only the handoff releases. */
  datatype Step =
    | Elsewhere(t: Store)
    | Begin(p: nat) | Recheck(p: nat) | Close(p: nat) | Release(p: nat) | Leave(p: nat)

  function Move(s: System, p: nat, place: Place): System
    requires p < |s.calls|
  {
    s.(calls := s.calls[p := place])
  }

  predicate AllCompleted(cs: seq<Candidate>) { forall i :: 0 <= i < |cs| ==> cs[i].status == Complete }

  predicate AllHaveResults(cs: seq<Candidate>) { forall i :: 0 <= i < |cs| ==> cs[i].result.Some? }

  /** One step; a step out of turn does nothing. */
  function Next(scope: Scope, s: System, step: Step): System {
    var cs := s.store.candidates;
    match step
    case Elsewhere(t) => if Evolves(s.store, t) && t.released == s.store.released then s.(store := t) else s
    case Begin(p) =>
      if p < |s.calls| && s.calls[p] == Idle
      then Move(s, p, if Prepared(scope.roster, cs) then Evaluating(cs) else Gone)
      else s
    case Recheck(p) =>
      if p < |s.calls| && s.calls[p].Evaluating? then
        Move(s, p, if Prepared(scope.roster, cs) && AllCompleted(cs) then Checked(s.calls[p].prepared) else Gone)
      else s
    case Close(p) =>
      if p < |s.calls| && s.calls[p].Checked? then
        var prepared := s.calls[p].prepared;
        Move(s.(store := s.store.(closed := true)), p,
             if ReceiptsOf(cs) == ReceiptsOf(prepared) && AllHaveResults(cs) then Releasing(prepared, 0) else Gone)
      else s
    case Release(p) =>
      if p < |s.calls| && s.calls[p].Releasing? then
        var (prepared, k) := (s.calls[p].prepared, s.calls[p].k);
        if k < |scope.roster|
        then Move(s.(store := s.store.(released := s.store.released + {scope.roster[k]})), p,
            Releasing(prepared, k + 1))
        else Move(s, p, Returned(FeedbackOf(scope, prepared)))
      else s
    case Leave(p) => if p < |s.calls| && !s.calls[p].Returned? then Move(s, p, Gone) else s
  }

  function Play(scope: Scope, s: System, steps: seq<Step>): System {
    if steps == [] then s else Next(scope, Play(scope, s, steps[..|steps| - 1]), steps[|steps| - 1])
  }

  lemma {:induction false} PlayOn(scope: Scope, s: System, a: seq<Step>, b: seq<Step>)
    ensures Play(scope, s, a + b) == Play(scope, Play(scope, s, a), b)
    decreases |b|
  {
    hide Next;
    if b == [] {
      assert a + b == a;
    } else {
      var init, last := b[..|b| - 1], b[|b| - 1];
      PlayOn(scope, s, a, init);
      assert (a + b)[..|a + b| - 1] == a + init;
    }
  }

  lemma {:induction false} PlayOne(scope: Scope, s: System, steps: seq<Step>, step: Step)
    ensures Play(scope, s, steps + [step]) == Next(scope, Play(scope, s, steps), step)
  {
    hide Next;
    assert (steps + [step])[..|steps + [step]| - 1] == steps;
  }

  /** Nothing is released yet, and no call has begun. */
  predicate Starts(s: System) {
    NoRepeats(Receipts(s.store.candidates)) && s.store.released == {} && forall p :: 0 <= p < |s.calls| ==>
        s.calls[p] == Idle
  }

  // --- The invariant ------------------------------------------------------------------------------------------------

  predicate Released(scope: Scope, s: Store, k: nat) {
    && s.closed && AllReady(scope.roster, s)
    && k <= |scope.roster| && forall i :: 0 <= i < k ==> scope.roster[i] in s.released
  }

  predicate CallAgrees(scope: Scope, s: Store, place: Place) {
    match place
    case Idle => true
    case Evaluating(prepared) => Prepared(scope.roster, prepared) && Since(prepared, s.candidates)
        && NoRepeats(Receipts(prepared))
    case Checked(prepared) =>
      && Prepared(scope.roster, prepared) && Since(prepared, s.candidates) && NoRepeats(Receipts(prepared))
      && forall i :: 0 <= i < |prepared| ==> s.candidates[i].status == Complete
    case Releasing(prepared, k) => Released(scope, s, k) && Since(prepared, s.candidates)
        && |prepared| == |s.candidates|
    case Returned(feedback) => Released(scope, s, |scope.roster|) && feedback == FeedbackOf(scope, s.candidates)
    case Gone => true
  }

  predicate CallsAgree(scope: Scope, s: Store, calls: seq<Place>) {
    forall p :: 0 <= p < |calls| ==> CallAgrees(scope, s, calls[p])
  }

  predicate StoreAgrees(scope: Scope, s: Store) {
    NoRepeats(Receipts(s.candidates)) && (s.released != {} ==> s.closed && AllReady(scope.roster, s))
  }

  predicate Inv(scope: Scope, s: System) { StoreAgrees(scope, s.store) && CallsAgree(scope, s.store, s.calls) }

  lemma {:induction false} SinceTransitive(a: seq<Candidate>, b: seq<Candidate>, c: seq<Candidate>)
    requires Since(a, b) && Since(b, c)
    ensures Since(a, c)
  {
    forall i | 0 <= i < |a| ensures Progresses(a[i], c[i]) { assert Progresses(a[i], b[i]) && Progresses(b[i], c[i]); }
  }

  lemma {:induction false} SinceItself(cs: seq<Candidate>)
    ensures Since(cs, cs)
  {}

  lemma {:induction false} EvolvesTransitive(a: Store, b: Store, c: Store)
    requires Evolves(a, b) && Evolves(b, c)
    ensures Evolves(a, c)
  {
    SinceTransitive(a.candidates, b.candidates, c.candidates);
  }

  lemma {:induction false} SameActors(a: seq<Candidate>, b: seq<Candidate>)
    requires |a| == |b| && forall i :: 0 <= i < |a| ==> a[i].actor == b[i].actor
    ensures Actors(a) == Actors(b)
  {
    forall c | c in a ensures c.actor in Actors(b) {
      var i :| 0 <= i < |a| && a[i] == c;
      assert b[i] in b;
    }
    forall c | c in b ensures c.actor in Actors(a) {
      var i :| 0 <= i < |b| && b[i] == c;
      assert a[i] in a;
    }
  }

  lemma {:induction false} ReceiptSet(a: seq<Candidate>)
    ensures Elements(Receipts(a)) == ReceiptsOf(a)
  {
    forall r | r in Receipts(a) ensures r in ReceiptsOf(a) {
      var i :| 0 <= i < |a| && Receipts(a)[i] == r;
      assert a[i] in a;
    }
    forall c | c in a ensures c.receipt in Receipts(a) {
      var i :| 0 <= i < |a| && a[i] == c;
      assert Receipts(a)[i] == c.receipt;
    }
  }

  /** Distinct receipts and an unchanged set of them leave no room for another candidate. */
  lemma {:induction false} SameSizeSameCandidates(a: seq<Candidate>, b: seq<Candidate>)
    requires NoRepeats(Receipts(a)) && NoRepeats(Receipts(b)) && ReceiptsOf(a) == ReceiptsOf(b)
    ensures |a| == |b|
  {
    DistinctBySize(Receipts(a));
    DistinctBySize(Receipts(b));
    ReceiptSet(a);
    ReceiptSet(b);
  }

  /** What is ready stays ready. */
  lemma {:induction false} ReadyStays(scope: Scope, s: Store, t: Store)
    requires AllReady(scope.roster, s) && s.closed && Evolves(s, t)
    ensures AllReady(scope.roster, t) && t.closed
    ensures FeedbackOf(scope, t.candidates) == FeedbackOf(scope, s.candidates)
  {
    forall i | 0 <= i < |s.candidates|
      ensures Ready(t.candidates[i]) && t.candidates[i].actor == s.candidates[i].actor
    {
      assert Ready(s.candidates[i]) && Progresses(s.candidates[i], t.candidates[i]);
    }
    SameActors(s.candidates, t.candidates);
    if |s.candidates| == 1 { assert Progresses(s.candidates[0], t.candidates[0]); }
  }

  lemma {:induction false} CallKept(scope: Scope, s: Store, t: Store, place: Place)
    requires CallAgrees(scope, s, place) && Evolves(s, t)
    ensures CallAgrees(scope, t, place)
  {
    match place
    case Evaluating(prepared) => SinceTransitive(prepared, s.candidates, t.candidates);
    case Checked(prepared) =>
      SinceTransitive(prepared, s.candidates, t.candidates);
      forall i | 0 <= i < |prepared| ensures t.candidates[i].status == Complete {
        assert Progresses(s.candidates[i], t.candidates[i]);
      }
    case Releasing(prepared, k) =>
      SinceTransitive(prepared, s.candidates, t.candidates);
      ReadyStays(scope, s, t);
    case Returned(_) => ReadyStays(scope, s, t);
    case _ =>
  }

  /** The store moves on, and one call moves to a place that agrees with it. */
  lemma {:induction false} MoveKeeps(scope: Scope, s: System, t: Store, p: nat, place: Place)
    requires Inv(scope, s) && Evolves(s.store, t) && StoreAgrees(scope, t) && p < |s.calls|
        && CallAgrees(scope, t, place)
    ensures Inv(scope, Move(s.(store := t), p, place))
  {
    forall q | 0 <= q < |s.calls| ensures CallAgrees(scope, t, s.calls[q]) { CallKept(scope, s.store, t, s.calls[q]); }
  }

  lemma {:induction false} ElsewhereKeeps(scope: Scope, s: System, t: Store)
    requires Inv(scope, s) && Evolves(s.store, t) && t.released == s.store.released
    ensures Inv(scope, s.(store := t))
  {
    if s.store.released != {} { ReadyStays(scope, s.store, t); }
    forall q | 0 <= q < |s.calls| ensures CallAgrees(scope, t, s.calls[q]) { CallKept(scope, s.store, t, s.calls[q]); }
  }

  lemma {:induction false} EvolvesItself(s: Store)
    requires NoRepeats(Receipts(s.candidates))
    ensures Evolves(s, s) && Evolves(s, s.(closed := true)) && forall a :: Evolves(s, s.(released := s.released + {a}))
  {
    SinceItself(s.candidates);
  }

  /** The checks before the close: what was prepared is the whole candidate set, and all of it is ready. */
  lemma {:induction false} ClosedIsReady(scope: Scope, s: Store, prepared: seq<Candidate>)
    requires CallAgrees(scope, s, Checked(prepared)) && NoRepeats(Receipts(s.candidates))
    requires ReceiptsOf(s.candidates) == ReceiptsOf(prepared) && AllHaveResults(s.candidates)
    ensures AllReady(scope.roster, s) && |prepared| == |s.candidates|
  {
    SameSizeSameCandidates(s.candidates, prepared);
    forall i | 0 <= i < |prepared| ensures prepared[i].actor == s.candidates[i].actor {
      assert Progresses(prepared[i], s.candidates[i]);
    }
    SameActors(prepared, s.candidates);
  }

  lemma {:induction false} CloseKeeps(scope: Scope, s: System, p: nat)
    requires Inv(scope, s)
    ensures Inv(scope, Next(scope, s, Close(p)))
  {
    if p < |s.calls| && s.calls[p].Checked? {
      var (prepared, cs) := (s.calls[p].prepared, s.store.candidates);
      var t := s.store.(closed := true);
      EvolvesItself(s.store);
      assert CallAgrees(scope, s.store, s.calls[p]);
      if ReceiptsOf(cs) == ReceiptsOf(prepared) && AllHaveResults(cs) {
        ClosedIsReady(scope, s.store, prepared);
        MoveKeeps(scope, s, t, p, Releasing(prepared, 0));
      } else {
        MoveKeeps(scope, s, t, p, Gone);
      }
    }
  }

  lemma {:induction false} ReleaseKeeps(scope: Scope, s: System, p: nat)
    requires Inv(scope, s)
    ensures Inv(scope, Next(scope, s, Release(p)))
  {
    if p < |s.calls| && s.calls[p].Releasing? {
      var (prepared, k) := (s.calls[p].prepared, s.calls[p].k);
      EvolvesItself(s.store);
      assert CallAgrees(scope, s.store, s.calls[p]);
      if k < |scope.roster| {
        var t := s.store.(released := s.store.released + {scope.roster[k]});
        MoveKeeps(scope, s, t, p, Releasing(prepared, k + 1));
      } else {
        if |prepared| == 1 { assert Progresses(prepared[0], s.store.candidates[0]); }
        MoveKeeps(scope, s, s.store, p, Returned(FeedbackOf(scope, prepared)));
      }
    }
  }

  lemma {:induction false} BeginKeeps(scope: Scope, s: System, p: nat)
    requires Inv(scope, s)
    ensures Inv(scope, Next(scope, s, Begin(p))) && Inv(scope, Next(scope, s, Recheck(p)))
        && Inv(scope, Next(scope, s, Leave(p)))
  {
    EvolvesItself(s.store);
    SinceItself(s.store.candidates);
    if p < |s.calls| {
      assert CallAgrees(scope, s.store, s.calls[p]);
      MoveKeeps(scope, s, s.store, p, Gone);
      if s.calls[p] == Idle && Prepared(scope.roster, s.store.candidates) {
        MoveKeeps(scope, s, s.store, p, Evaluating(s.store.candidates));
      }
      if s.calls[p].Evaluating? && AllCompleted(s.store.candidates) {
        MoveKeeps(scope, s, s.store, p, Checked(s.calls[p].prepared));
      }
    }
  }

  lemma {:induction false} StepKeeps(scope: Scope, s: System, step: Step)
    requires Inv(scope, s)
    ensures Inv(scope, Next(scope, s, step))
  {
    match step
    case Elsewhere(t) => if Evolves(s.store, t) && t.released == s.store.released { ElsewhereKeeps(scope, s, t); }
    case Begin(p) => BeginKeeps(scope, s, p);
    case Recheck(p) => BeginKeeps(scope, s, p);
    case Close(p) => CloseKeeps(scope, s, p);
    case Release(p) => ReleaseKeeps(scope, s, p);
    case Leave(p) => BeginKeeps(scope, s, p);
  }

  lemma {:induction false} StepEvolves(scope: Scope, s: System, step: Step)
    requires NoRepeats(Receipts(s.store.candidates))
    ensures Evolves(s.store, Next(scope, s, step).store)
  {
    EvolvesItself(s.store);
  }

  lemma {:induction false} PlayKeeps(scope: Scope, s: System, steps: seq<Step>)
    requires Inv(scope, s)
    ensures Inv(scope, Play(scope, s, steps)) && Evolves(s.store, Play(scope, s, steps).store)
    ensures |Play(scope, s, steps).calls| == |s.calls|
    decreases |steps|
  {
    hide Next, CallsAgree, Evolves;
    if steps == [] {
      EvolvesItself(s.store);
    } else {
      var t := Play(scope, s, steps[..|steps| - 1]);
      PlayKeeps(scope, s, steps[..|steps| - 1]);
      StepKeeps(scope, t, steps[|steps| - 1]);
      StepEvolves(scope, t, steps[|steps| - 1]);
      EvolvesTransitive(s.store, t.store, Play(scope, s, steps).store);
      CallsStay(scope, t, steps[|steps| - 1]);
    }
  }

  lemma {:induction false} CallsStay(scope: Scope, s: System, step: Step)
    ensures |Next(scope, s, step).calls| == |s.calls|
  {}

  lemma {:induction false} StartIsValid(scope: Scope, s: System)
    requires Starts(s)
    ensures Inv(scope, s)
  {}

  // --- Over every prefix of every run ---------------------------------------------------------------------------

  /** At every moment of every run of any number of calls: if any actor's result is released, every actor's
      candidate is complete with a verified result, and stays so. */
  lemma {:induction false} ReleasedMeansAllReady(scope: Scope, start: System, steps: seq<Step>, more: seq<Step>)
    requires Starts(start) && Play(scope, start, steps).store.released != {}
    ensures AllReady(scope.roster, Play(scope, start, steps).store)
    ensures AllReady(scope.roster, Play(scope, start, steps + more).store)
  {
    hide Play, CallsAgree;
    StartIsValid(scope, start);
    PlayKeeps(scope, start, steps);
    PlayOn(scope, start, steps, more);
    PlayKeeps(scope, Play(scope, start, steps), more);
    ReadyStays(scope, Play(scope, start, steps).store, Play(scope, start, steps + more).store);
  }

  /** A call that has returned released every actor's result. */
  lemma {:induction false} ReturnMeansReleased(scope: Scope, start: System, steps: seq<Step>, p: nat, actor: string)
    requires Starts(start) && p < |Play(scope, start, steps).calls| && Play(scope, start, steps).calls[p].Returned?
    requires actor in scope.roster
    ensures actor in Play(scope, start, steps).store.released
  {
    hide Play;
    StartIsValid(scope, start);
    PlayKeeps(scope, start, steps);
    var s := Play(scope, start, steps);
    assert CallAgrees(scope, s.store, s.calls[p]);
  }

  /** Whatever happens between them, any two calls that return have returned the very same feedback job. */
  lemma {:induction false} RetriesAgree(scope: Scope, start: System, steps: seq<Step>, more: seq<Step>, p: nat, q: nat)
    requires Starts(start)
    requires
      var (s, t) := (Play(scope, start, steps), Play(scope, start, steps + more));
      p < |s.calls| && s.calls[p].Returned? && q < |t.calls| && t.calls[q].Returned?
    ensures
      var (s, t) := (Play(scope, start, steps), Play(scope, start, steps + more));
      t.calls[q].feedback == s.calls[p].feedback
  {
    hide Play;
    StartIsValid(scope, start);
    PlayKeeps(scope, start, steps);
    PlayOn(scope, start, steps, more);
    PlayKeeps(scope, Play(scope, start, steps), more);
    var (s, t) := (Play(scope, start, steps), Play(scope, start, steps + more));
    assert CallAgrees(scope, s.store, s.calls[p]) && CallAgrees(scope, t.store, t.calls[q]);
    ReadyStays(scope, s.store, t.store);
  }

  // --- Actor by actor -----------------------------------------------------------------------------------------------

  /** Once any result is released, each actor of the roster has a candidate that is complete with a verified result,
      and there are no more candidates than actors. */
  lemma {:induction false} ReleasedMeansEachReady(scope: Scope, start: System, steps: seq<Step>, actor: string)
    returns (i: nat)
    requires Starts(start) && Play(scope, start, steps).store.released != {} && actor in scope.roster
    ensures
      var s := Play(scope, start, steps).store;
      && s.closed && |s.candidates| == |scope.roster|
      && i < |s.candidates| && s.candidates[i].actor == actor
      && s.candidates[i].status == Complete && s.candidates[i].result.Some?
  {
    StartIsValid(scope, start);
    PlayKeeps(scope, start, steps);
    var s := Play(scope, start, steps).store;
    hide Play, CallsAgree;
    assert actor in Elements(scope.roster) && actor in Actors(s.candidates);
    var c :| c in s.candidates && c.actor == actor;
    i :| 0 <= i < |s.candidates| && s.candidates[i] == c;
    assert Ready(s.candidates[i]);
  }

  /** A call that returns names the campaign and the job, and passes on the receipt of the candidate when the roster has
      one actor, and no receipt otherwise. */
  lemma {:induction false} FeedbackNames(scope: Scope, start: System, steps: seq<Step>, p: nat)
    requires Starts(start) && p < |Play(scope, start, steps).calls| && Play(scope, start, steps).calls[p].Returned?
    ensures
      var (feedback, cs) := (Play(scope, start, steps).calls[p].feedback, Play(scope, start, steps).store.candidates);
      && feedback.campaign == scope.campaign && feedback.job == scope.job && |cs| == |scope.roster|
      && (|scope.roster| == 1 ==> feedback.materials == Some(cs[0].receipt))
      && (|scope.roster| != 1 ==> feedback.materials == None)
  {
    StartIsValid(scope, start);
    PlayKeeps(scope, start, steps);
    assert CallAgrees(scope, Play(scope, start, steps).store, Play(scope, start, steps).calls[p]);
  }

  // --- A ready evaluation is released ----------------------------------------------------------------------

  lemma {:induction false} PlayFirst(scope: Scope, s: System, step: Step, rest: seq<Step>)
    ensures Play(scope, s, [step] + rest) == Play(scope, Next(scope, s, step), rest)
  {
    PlayOn(scope, s, [step], rest);
    PlayOne(scope, s, [], step);
    assert [] + [step] == [step];
  }

  lemma {:induction false} ReleasesRun(scope: Scope, s: System, p: nat, prepared: seq<Candidate>, k: nat)
    returns (steps: seq<Step>)
    requires p < |s.calls| && k <= |scope.roster| && s.calls[p] == Releasing(prepared, k)
    ensures
      var t := Play(scope, s, steps);
      |t.calls| == |s.calls| && t.calls[p] == Returned(FeedbackOf(scope, prepared))
    decreases |scope.roster| - k
  {
    var next := Next(scope, s, Release(p));
    if k == |scope.roster| {
      steps := [Release(p)] + [];
      PlayFirst(scope, s, Release(p), []);
    } else {
      var rest := ReleasesRun(scope, next, p, prepared, k + 1);
      steps := [Release(p)] + rest;
      PlayFirst(scope, s, Release(p), rest);
    }
  }

  /** A call that begins over a store in which every actor's candidate is ready can return, if nobody disturbs it. */
  lemma {:induction false} ReadyReturns(scope: Scope, s: System, p: nat) returns (steps: seq<Step>)
    requires p < |s.calls| && s.calls[p] == Idle && AllReady(scope.roster, s.store)
    ensures |Play(scope, s, steps).calls| == |s.calls| && Play(scope, s, steps).calls[p].Returned?
  {
    var cs := s.store.candidates;
    var a := Next(scope, s, Begin(p));
    assert a.calls[p] == Evaluating(cs);
    var b := Next(scope, a, Recheck(p));
    assert b.calls[p] == Checked(cs);
    var c := Next(scope, b, Close(p));
    assert c.calls[p] == Releasing(cs, 0);
    var rest := ReleasesRun(scope, c, p, cs, 0);
    steps := [Begin(p)] + ([Recheck(p)] + ([Close(p)] + rest));
    PlayFirst(scope, s, Begin(p), [Recheck(p)] + ([Close(p)] + rest));
    PlayFirst(scope, a, Recheck(p), [Close(p)] + rest);
    PlayFirst(scope, b, Close(p), rest);
  }
}
