/** What holds over every run of the controller: parallel fan-outs with failures, crashes, resumes, and calls of
    `close` that may overlap. */
module CampaignRuns {
  import opened CampaignSteps
  import opened Sequences

  // --- The invariant ------------------------------------------------------------------------------------------

  predicate DistinctJobs(jobs: seq<JobRow>) {
    forall i, j :: 0 <= i < j < |jobs| ==> jobs[i].job.id != jobs[j].job.id
  }

  predicate Held(w: World, id: string, sessions: seq<string>) {
    forall session :: session in sessions ==> Key(id, session) in w.acked
  }

  predicate CompleteIsHeld(w: World) {
    forall i :: 0 <= i < |w.jobs| && w.jobs[i].complete ==> Held(w, w.jobs[i].job.id, w.jobs[i].sessions)
  }

  /** Nothing acknowledged is ever sent again. */
  predicate NeverResent(marks: seq<Mark>) {
    forall i, j :: 0 <= i < j < |marks| && marks[i].Acked? ==> marks[j] != Sent(marks[i].key)
  }

  /** The receipts on file are those of the acknowledgements made. */
  ghost predicate AckedIsMarked(w: World) { forall key :: key in w.acked <==> Acked(key) in w.marks }

  predicate HandleAgrees(w: World, h: Handle) {
    NoRepeats(h.delivered) && forall i :: 0 <= i < |h.delivered| ==> Completed(w.jobs, h.delivered[i])
  }

  predicate HandlesAgree(w: World) { forall h :: 0 <= h < |w.handles| ==> HandleAgrees(w, w.handles[h]) }

  /** How far a handle has come through the gates: reconciled deliveries, then the budget, then compute. */
  function Gates(log: seq<Entry>, h: nat): nat {
    if log == [] then 0
    else
      var (before, last) := (Gates(log[..|log| - 1], h), log[|log| - 1]);
      if last == Entry(h, DeliveryReconciled) && before < 1 then 1
      else if last == Entry(h, BudgetReconciled) && before == 1 then 2
      else if last == Entry(h, ComputeReconciled) && before == 2 then 3
      else before
  }

  /** Every closing entry comes after the three gates of its handle, in their order. */
  predicate GatesPrecede(log: seq<Entry>) {
    forall i :: 0 <= i < |log| && log[i].kind == Closed ==> Gates(log[..i], log[i].handle) == 3
  }

  predicate LogAgrees(w: World) { GatesPrecede(w.log) }

  predicate PlaceAgrees(w: World, key: Key, place: Place) {
    && (place == Done ==> key in w.acked)
    && (place == Ready || place == Sending ==> key !in w.acked)
  }

  predicate RowAgrees(w: World, h: nat, job: Job) {
    && h < |w.handles| && FindJob(w.jobs, job.id) < |w.jobs|
    && w.jobs[FindJob(w.jobs, job.id)].sessions == w.handles[h].sessions
  }

  ghost predicate DeliveryAgrees(w: World, d: Delivery) {
    match d
    case Nothing => true
    case Fanning(h, job, _, places) =>
      && RowAgrees(w, h, job)
      && (forall session :: session in places <==> session in w.handles[h].sessions)
      && (forall session :: session in places ==> PlaceAgrees(w, Key(job.id, session), places[session]))
    case Marking(h, job) => RowAgrees(w, h, job) && Completed(w.jobs, job.id) && Held(w, job.id, w.handles[h].sessions)
    case Announcing(h, job) =>
      RowAgrees(w, h, job) && job.id in w.handles[h].delivered && Held(w, job.id, w.handles[h].sessions)
  }

  function GateOf(stage: Stage): nat { match stage case Stopped => 1 case BudgetPassed => 2 case ComputePassed => 3 }

  ghost predicate ClosesAgree(w: World, closes: multiset<CloseCall>) {
    forall c :: c in closes ==> c.h < |w.handles| && Gates(w.log, c.h) >= GateOf(c.stage)
  }

  ghost predicate Valid(w: World) {
    && DistinctJobs(w.jobs) && CompleteIsHeld(w)
    && NeverResent(w.marks) && AckedIsMarked(w)
    && HandlesAgree(w) && LogAgrees(w)
  }

  ghost predicate Inv(s: System) { Valid(s.w) && DeliveryAgrees(s.w, s.delivery) && ClosesAgree(s.w, s.closes) }

  // --- Growth -------------------------------------------------------------------------------------------------

  predicate RowGrows(a: JobRow, b: JobRow) { b.job == a.job && b.sessions == a.sessions && (a.complete ==> b.complete) }

  predicate HandleGrows(a: Handle, b: Handle) { b.sessions == a.sessions && a.delivered <= b.delivered }

  /** Outbox, log and handles only grow; acknowledged receipts and completed jobs stay. */
  predicate Grows(w: World, u: World) {
    && |w.jobs| <= |u.jobs| && (forall i :: 0 <= i < |w.jobs| ==> RowGrows(w.jobs[i], u.jobs[i]))
    && |w.handles| <= |u.handles| && (forall h :: 0 <= h < |w.handles| ==> HandleGrows(w.handles[h], u.handles[h]))
    && (forall k :: k in w.acked ==> k in u.acked && u.acked[k] == w.acked[k])
    && w.marks <= u.marks && w.log <= u.log
  }

  lemma {:induction false} GrowsTransitive(a: World, b: World, c: World)
    requires Grows(a, b) && Grows(b, c)
    ensures Grows(a, c)
  {
    forall i | 0 <= i < |a.jobs| ensures RowGrows(a.jobs[i], c.jobs[i]) {
      assert RowGrows(a.jobs[i], b.jobs[i]) && RowGrows(b.jobs[i], c.jobs[i]);
    }
    forall h | 0 <= h < |a.handles| ensures HandleGrows(a.handles[h], c.handles[h]) {
      assert HandleGrows(a.handles[h], b.handles[h]) && HandleGrows(b.handles[h], c.handles[h]);
    }
  }

  lemma {:induction false} RowsFound(a: seq<JobRow>, b: seq<JobRow>, id: string)
    requires |a| <= |b| && forall i :: 0 <= i < |a| ==> RowGrows(a[i], b[i])
    requires FindJob(a, id) < |a|
    ensures FindJob(b, id) == FindJob(a, id)
  {
    var i := FindJob(a, id);
    assert RowGrows(a[i], b[i]);
    forall k | 0 <= k < i ensures b[k].job.id != id { assert RowGrows(a[k], b[k]); }
  }

  lemma {:induction false} CompletedGrows(w: World, u: World, id: string)
    requires Grows(w, u) && Completed(w.jobs, id)
    ensures Completed(u.jobs, id)
  {
    var i :| 0 <= i < |w.jobs| && CompleteAt(w.jobs, id, i);
    assert RowGrows(w.jobs[i], u.jobs[i]);
    assert CompleteAt(u.jobs, id, i);
  }

  lemma {:induction false} HandleKept(w: World, u: World, h: Handle)
    requires HandleAgrees(w, h) && Grows(w, u)
    ensures HandleAgrees(u, h)
  {
    forall i | 0 <= i < |h.delivered| ensures Completed(u.jobs, h.delivered[i]) {
      CompletedGrows(w, u, h.delivered[i]);
    }
  }

  lemma {:induction false} HandlesKept(w: World, u: World)
    requires HandlesAgree(w) && Grows(w, u) && u.handles == w.handles
    ensures HandlesAgree(u)
  {
    forall h | 0 <= h < |u.handles| ensures HandleAgrees(u, u.handles[h]) { HandleKept(w, u, w.handles[h]); }
  }

  lemma {:induction false} RowKept(w: World, u: World, h: nat, job: Job)
    requires RowAgrees(w, h, job) && Grows(w, u)
    ensures RowAgrees(u, h, job)
  {
    RowsFound(w.jobs, u.jobs, job.id);
    assert RowGrows(w.jobs[FindJob(w.jobs, job.id)], u.jobs[FindJob(u.jobs, job.id)]);
    assert HandleGrows(w.handles[h], u.handles[h]);
  }

  /** A world that grows elsewhere keeps what the delivery in flight relies on. */
  lemma {:induction false} DeliveryKept(w: World, u: World, d: Delivery)
    requires DeliveryAgrees(w, d) && Grows(w, u) && u.acked == w.acked
    ensures DeliveryAgrees(u, d)
  {
    if d != Nothing {
      RowKept(w, u, d.h, d.job);
      assert HandleGrows(w.handles[d.h], u.handles[d.h]);
      if d.Marking? { CompletedGrows(w, u, d.job.id); }
    }
  }

  lemma {:induction false} GatesGrow(a: seq<Entry>, b: seq<Entry>, h: nat)
    requires a <= b
    ensures Gates(a, h) <= Gates(b, h) <= 3
    decreases |b|
  {
    if |a| == |b| {
      assert a == b;
      GatesBounded(b, h);
    } else {
      GatesGrow(a, b[..|b| - 1], h);
    }
  }

  lemma {:induction false} GatesBounded(log: seq<Entry>, h: nat)
    ensures Gates(log, h) <= 3
    decreases |log|
  {
    if log != [] { GatesBounded(log[..|log| - 1], h); }
  }

  lemma {:induction false} ClosesKept(w: World, u: World, closes: multiset<CloseCall>)
    requires ClosesAgree(w, closes) && Grows(w, u)
    ensures ClosesAgree(u, closes)
  {
    forall c | c in closes ensures c.h < |u.handles| && Gates(u.log, c.h) >= GateOf(c.stage) {
      GatesGrow(w.log, u.log, c.h);
    }
  }

  // --- Preservation ---------------------------------------------------------------------------------------------

  lemma {:induction false} WithHandleKeeps(s: System, handle: Handle)
    requires Inv(s) && HandleAgrees(s.w, handle)
    ensures
      var t := s.(w := WithHandle(s.w, handle));
      Inv(t) && Grows(s.w, t.w)
  {
    var u := WithHandle(s.w, handle);
    assert Grows(s.w, u);
    forall h | 0 <= h < |u.handles| ensures HandleAgrees(u, u.handles[h]) {
      if h < |s.w.handles| { HandleKept(s.w, u, s.w.handles[h]); } else { HandleKept(s.w, u, handle); }
    }
    DeliveryKept(s.w, u, s.delivery);
    ClosesKept(s.w, u, s.closes);
  }

  lemma {:induction false} CompletedIdsAre(jobs: seq<JobRow>)
    requires DistinctJobs(jobs)
    ensures NoRepeats(CompletedIds(jobs))
    ensures forall id :: id in CompletedIds(jobs) <==> Completed(jobs, id)
    ensures (forall i :: 0 <= i < |jobs| ==> jobs[i].complete) ==> CompletedIds(jobs) == Ids(jobs)
    decreases |jobs|
  {
    if jobs != [] {
      var init, last := jobs[..|jobs| - 1], jobs[|jobs| - 1];
      CompletedIdsAre(init);
      forall id ensures Completed(jobs, id) <==> Completed(init, id) || (last.complete && last.job.id == id) {
        if i :| 0 <= i < |init| && CompleteAt(init, id, i) { assert CompleteAt(jobs, id, i); }
        if last.complete && last.job.id == id { assert CompleteAt(jobs, id, |jobs| - 1); }
        if i :| 0 <= i < |jobs| && CompleteAt(jobs, id, i) {
          if i < |init| { assert CompleteAt(init, id, i); }
        }
      }
      LastIsNew(jobs);
    }
  }

  lemma {:induction false} LastIsNew(jobs: seq<JobRow>)
    requires DistinctJobs(jobs) && jobs != []
    ensures !Completed(jobs[..|jobs| - 1], jobs[|jobs| - 1].job.id)
  {
    var init, id := jobs[..|jobs| - 1], jobs[|jobs| - 1].job.id;
    forall i | 0 <= i < |init| ensures !CompleteAt(init, id, i) { assert jobs[i].job.id != jobs[|jobs| - 1].job.id; }
  }

  lemma {:induction false} ResumeKeeps(s: System, snapshot: Handle)
    requires Inv(s)
    ensures Inv(ResumeHandle(s, snapshot)) && Grows(s.w, ResumeHandle(s, snapshot).w)
  {
    CompletedIdsAre(s.w.jobs);
    var handle := Handle(snapshot.sessions, CompletedIds(s.w.jobs), Active);
    forall i | 0 <= i < |handle.delivered| ensures Completed(s.w.jobs, handle.delivered[i]) {
      assert handle.delivered[i] in handle.delivered;
    }
    WithHandleKeeps(s, handle);
    assert Grows(s.w, s.w);
  }

  /** A change of outbox and receipts that grows them keeps the rest. */
  lemma {:induction false} OutboxKeeps(w: World, u: World)
    requires Valid(w) && Grows(w, u) && u.handles == w.handles && u.log == w.log
    requires DistinctJobs(u.jobs) && CompleteIsHeld(u) && NeverResent(u.marks) && AckedIsMarked(u)
    ensures Valid(u)
  {
    HandlesKept(w, u);
  }

  lemma {:induction false} PrepareKeeps(w: World, h: nat, job: Job)
    requires Valid(w) && h < |w.handles| && CanPrepare(w, h, job)
    ensures Valid(Prepared(w, h, job)) && Grows(w, Prepared(w, h, job)) && RowAgrees(Prepared(w, h, job), h, job)
  {
    var i, u := FindJob(w.jobs, job.id), Prepared(w, h, job);
    if i == |w.jobs| {
      assert u.jobs[i].job.id == job.id && FindJob(u.jobs, job.id) == i;
      OutboxKeeps(w, u);
    }
  }

  lemma {:induction false} DeliverKeeps(s: System, h: nat, job: Job, profile: string)
    requires Inv(s)
    ensures Inv(BeginDelivery(s, h, job, profile)) && Grows(s.w, BeginDelivery(s, h, job, profile).w)
  {
    hide Valid, Grows, CanPrepare, Prepared, RowAgrees;
    GrowsItself(s.w);
    if s.delivery == Nothing && h < |s.w.handles| && CanPrepare(s.w, h, job) {
      PrepareKeeps(s.w, h, job);
      PrepareTouchesJobs(s.w, h, job);
      ClosesKept(s.w, Prepared(s.w, h, job), s.closes);
    }
  }

  lemma {:induction false} PrepareTouchesJobs(w: World, h: nat, job: Job)
    requires h < |w.handles|
    ensures Prepared(w, h, job).handles == w.handles && Prepared(w, h, job).acked == w.acked
  {}

  lemma {:induction false} MoveKeeps(s: System, session: string, place: Place)
    requires Inv(s) && s.delivery.Fanning? && session in s.delivery.places
    requires PlaceAgrees(s.w, Key(s.delivery.job.id, session), place)
    ensures Inv(Move(s, session, place))
  {}

  lemma {:induction false} SendKeeps(s: System, session: string)
    requires Inv(s)
    ensures Inv(SendTo(s, session)) && Grows(s.w, SendTo(s, session).w)
  {
    assert Grows(s.w, s.w);
    if At(s, session, Ready) {
      var key := Key(s.delivery.job.id, session);
      var u := s.w.(marks := s.w.marks + [Sent(key)]);
      assert PlaceAgrees(s.w, key, Ready);
      MarkedMore(s.w.marks, Sent(key));
      OutboxKeeps(s.w, u);
      DeliveryKept(s.w, u, s.delivery);
      ClosesKept(s.w, u, s.closes);
      MoveKeeps(s.(w := u), session, Sending);
    }
  }

  lemma {:induction false} MarkedMore(marks: seq<Mark>, mark: Mark)
    requires NeverResent(marks) && (mark.Sent? ==> Acked(mark.key) !in marks)
    ensures NeverResent(marks + [mark])
    ensures forall x :: x in marks + [mark] <==> x in marks || x == mark
  {}

  lemma {:induction false} AnswerKeeps(s: System, session: string, answer: Answer)
    requires Inv(s)
    ensures Inv(Answered(s, session, answer)) && Grows(s.w, Answered(s, session, answer).w)
  {
    assert Grows(s.w, s.w);
    if At(s, session, Sending) {
      if answer.Raises? || answer.profile != s.delivery.profile {
        MoveKeeps(s, session, Failed);
      } else {
        AckKeeps(s, session, answer.profile);
      }
    }
  }

  lemma {:induction false} AckKeeps(s: System, session: string, profile: string)
    requires Inv(s) && At(s, session, Sending)
    ensures
      var key := Key(s.delivery.job.id, session);
      var u := s.w.(marks := s.w.marks + [Acked(key)], acked := s.w.acked[key := profile]);
      Inv(Move(s.(w := u), session, Done)) && Grows(s.w, u)
  {
    var key := Key(s.delivery.job.id, session);
    var u := s.w.(marks := s.w.marks + [Acked(key)], acked := s.w.acked[key := profile]);
    assert PlaceAgrees(s.w, key, Sending);
    MarkedMore(s.w.marks, Acked(key));
    assert Grows(s.w, u);
    forall i | 0 <= i < |u.jobs| && u.jobs[i].complete ensures Held(u, u.jobs[i].job.id, u.jobs[i].sessions) {
      assert Held(s.w, u.jobs[i].job.id, u.jobs[i].sessions);
    }
    OutboxKeeps(s.w, u);
    ClosesKept(s.w, u, s.closes);
    RowKept(s.w, u, s.delivery.h, s.delivery.job);
    var t := Move(s.(w := u), session, Done);
    forall x | x in t.delivery.places ensures PlaceAgrees(u, Key(s.delivery.job.id, x), t.delivery.places[x]) {
      assert x in s.delivery.places && PlaceAgrees(s.w, Key(s.delivery.job.id, x), s.delivery.places[x]);
    }
  }

  lemma {:induction false} CompleteKeeps(s: System)
    requires Inv(s)
    ensures Inv(CompleteRow(s)) && Grows(s.w, CompleteRow(s).w)
  {
    var t := CompleteRow(s);
    assert Grows(s.w, s.w);
    if t != s {
      var d, i := s.delivery, FindJob(s.w.jobs, s.delivery.job.id);
      assert Held(s.w, d.job.id, s.w.handles[d.h].sessions) by {
        forall session | session in s.w.handles[d.h].sessions ensures Key(d.job.id, session) in s.w.acked {
          assert session in d.places && PlaceAgrees(s.w, Key(d.job.id, session), d.places[session]);
        }
      }
      assert Grows(s.w, t.w);
      forall k | 0 <= k < |t.w.jobs| && t.w.jobs[k].complete
        ensures Held(t.w, t.w.jobs[k].job.id, t.w.jobs[k].sessions)
      {
        if k != i { assert Held(s.w, s.w.jobs[k].job.id, s.w.jobs[k].sessions); }
      }
      OutboxKeeps(s.w, t.w);
      ClosesKept(s.w, t.w, s.closes);
      RowKept(s.w, t.w, d.h, d.job);
      assert CompleteAt(t.w.jobs, d.job.id, i);
    }
  }

  lemma {:induction false} RememberKeeps(s: System)
    requires Inv(s)
    ensures Inv(RememberJob(s)) && Grows(s.w, RememberJob(s).w)
  {
    var t := RememberJob(s);
    assert Grows(s.w, s.w);
    if t != s {
      var d := s.delivery;
      var me := s.w.handles[d.h];
      NoRepeatsOfMore(me.delivered, d.job.id);
      assert HandleGrows(me, Listed(me, d.job.id));
      assert Grows(s.w, t.w);
      forall h | 0 <= h < |t.w.handles| ensures HandleAgrees(t.w, t.w.handles[h]) {
        assert HandleAgrees(s.w, s.w.handles[h]);
      }
      ClosesKept(s.w, t.w, s.closes);
      RowKept(s.w, t.w, d.h, d.job);
    }
  }

  /** Appending an entry that is not a closing one, or one behind its gates. */
  lemma {:induction false} EntryKeeps(log: seq<Entry>, e: Entry)
    requires GatesPrecede(log) && (e.kind == Closed ==> Gates(log, e.handle) == 3)
    ensures GatesPrecede(log + [e])
  {
    forall i | 0 <= i < |log + [e]| && (log + [e])[i].kind == Closed
      ensures Gates((log + [e])[..i], (log + [e])[i].handle) == 3
    {
      if i < |log| { assert (log + [e])[..i] == log[..i]; } else { assert (log + [e])[..i] == log; }
    }
  }

  /** A world that changes only in its log and in the statuses of its handles. */
  lemma {:induction false} LogKeeps(s: System, u: World, e: Entry)
    requires Inv(s) && u.log == s.w.log + [e] && (e.kind == Closed ==> Gates(s.w.log, e.handle) == 3)
    requires u.jobs == s.w.jobs && u.acked == s.w.acked && u.marks == s.w.marks && |u.handles| == |s.w.handles|
    requires forall h :: 0 <= h < |u.handles| ==> u.handles[h].(status := Active) == s.w.handles[h].(status := Active)
    ensures Inv(s.(w := u)) && Grows(s.w, u)
  {
    EntryKeeps(s.w.log, e);
    forall h | 0 <= h < |u.handles| ensures HandleGrows(s.w.handles[h], u.handles[h]) && HandleAgrees(u, u.handles[h]) {
      assert HandleAgrees(s.w, s.w.handles[h]) && u.handles[h].(status := Active) == s.w.handles[h].(status := Active);
    }
    DeliveryKept(s.w, u, s.delivery);
    ClosesKept(s.w, u, s.closes);
  }

  lemma {:induction false} GatesOfEntry(log: seq<Entry>, e: Entry)
    ensures
      var g := Gates(log, e.handle);
      Gates(log + [e], e.handle) ==
        if e.kind == DeliveryReconciled && g < 1 then 1
        else if e.kind == BudgetReconciled && g == 1 then 2
        else if e.kind == ComputeReconciled && g == 2 then 3
        else g
  {
    assert (log + [e])[..|log|] == log;
  }

  lemma {:induction false} CloseKeeps(s: System, h: nat, profile: string)
    requires Inv(s)
    ensures Inv(BeginClosing(s, h, profile)) && Grows(s.w, BeginClosing(s, h, profile).w)
  {
    assert Grows(s.w, s.w);
    if CanClose(s.w, h, profile) {
      LogKeeps(s, Logged(s.w, h, DeliveryReconciled), Entry(h, DeliveryReconciled));
      GatesOfEntry(s.w.log, Entry(h, DeliveryReconciled));
    }
  }

  lemma {:induction false} EndKeeps(s: System, h: nat, kind: Kind, status: Status)
    requires Inv(s) && h < |s.w.handles| && (kind == Closed ==> Gates(s.w.log, h) == 3)
    ensures
      var u := Ended(s.w, h, kind, status);
      Inv(s.(w := u)) && Grows(s.w, u)
  {
    hide Inv, Grows;
    LogKeeps(s, Ended(s.w, h, kind, status), Entry(h, kind));
  }

  lemma {:induction false} FewerCloses(s: System, closes: multiset<CloseCall>)
    requires Inv(s) && closes <= s.closes
    ensures Inv(s.(closes := closes))
  {}

  lemma {:induction false} PassKeeps(s: System, c: CloseCall, kind: Kind, stage: Stage)
    requires Inv(s) && c in s.closes
    requires (c.stage, kind, stage) == (Stopped, BudgetReconciled, BudgetPassed)
          || (c.stage, kind, stage) == (BudgetPassed, ComputeReconciled, ComputePassed)
    ensures Inv(PassGate(s, c, true, kind, stage)) && Grows(s.w, Logged(s.w, c.h, kind))
  {
    var u := Logged(s.w, c.h, kind);
    LogKeeps(s, u, Entry(c.h, kind));
    GatesOfEntry(s.w.log, Entry(c.h, kind));
    GatesBounded(s.w.log, c.h);
    hide Valid, DeliveryAgrees;
    assert u.log == s.w.log + [Entry(c.h, kind)];
  }

  lemma {:induction false} AskKeeps(s: System, c: CloseCall, passes: bool)
    requires Inv(s)
    ensures Inv(AskGate(s, c, passes)) && Grows(s.w, AskGate(s, c, passes).w)
  {
    if c !in s.closes {
      GrowsItself(s.w);
    } else {
      CallAgrees(s, c);
      hide Inv, Grows, Ended;
      if c.stage == ComputePassed {
        EndKeeps(s, c.h, Closed, Over);
        FewerCloses(s.(w := Ended(s.w, c.h, Closed, Over)), s.closes - multiset{c});
      } else if !passes {
        EndKeeps(s, c.h, Invalid, Spoilt);
        FewerCloses(s.(w := Ended(s.w, c.h, Invalid, Spoilt)), s.closes - multiset{c});
      } else if c.stage == Stopped {
        PassKeeps(s, c, BudgetReconciled, BudgetPassed);
      } else {
        PassKeeps(s, c, ComputeReconciled, ComputePassed);
      }
    }
  }

  lemma {:induction false} CallAgrees(s: System, c: CloseCall)
    requires Inv(s) && c in s.closes
    ensures c.h < |s.w.handles| && (c.stage == ComputePassed ==> Gates(s.w.log, c.h) == 3)
  {
    GatesBounded(s.w.log, c.h);
  }

  lemma {:induction false} StepKeeps(s: System, step: Step)
    requires Inv(s)
    ensures Inv(Next(s, step)) && Grows(s.w, Next(s, step).w)
  {
    hide Inv, Grows;
    GrowsItself(s.w);
    match step
    case Start(sessions) => StartKeeps(s, sessions);
    case Resume(snapshot) => ResumeKeeps(s, snapshot);
    case Deliver(h, job, profile) => DeliverKeeps(s, h, job, profile);
    case Look(session) => LookKeeps(s, session);
    case Send(session) => SendKeeps(s, session);
    case Answer(session, answer) => AnswerKeeps(s, session, answer);
    case Complete => CompleteKeeps(s);
    case Remember => RememberKeeps(s);
    case Announce => AnnounceKeeps(s);
    case Abandon => LeaveKeeps(s, CloseCall(0, Stopped));
    case Close(h, profile) => CloseKeeps(s, h, profile);
    case Ask(c, passes) => AskKeeps(s, c, passes);
    case Drop(c) => LeaveKeeps(s, c);
  }

  lemma {:induction false} GrowsItself(w: World)
    ensures Grows(w, w)
  {}

  lemma {:induction false} StartKeeps(s: System, sessions: seq<string>)
    requires Inv(s)
    ensures Inv(StartHandle(s, sessions)) && Grows(s.w, StartHandle(s, sessions).w)
  {
    assert Grows(s.w, s.w);
    if Usable(sessions) { WithHandleKeeps(s, Handle(sessions, [], Active)); }
  }

  lemma {:induction false} LookKeeps(s: System, session: string)
    requires Inv(s)
    ensures Inv(LookUp(s, session)) && Grows(s.w, LookUp(s, session).w)
  {
    assert Grows(s.w, s.w);
    if At(s, session, Fresh) {
      var key := Key(s.delivery.job.id, session);
      MoveKeeps(s, session, if key !in s.w.acked then Ready else if s.w.acked[key] == s.delivery.profile then Done
          else Failed);
    }
  }

  lemma {:induction false} AnnounceKeeps(s: System)
    requires Inv(s)
    ensures Inv(AnnounceJob(s)) && Grows(s.w, AnnounceJob(s).w)
  {
    assert Grows(s.w, s.w);
    if s.delivery.Announcing? {
      LogKeeps(s, Logged(s.w, s.delivery.h, JobDelivered), Entry(s.delivery.h, JobDelivered));
    }
  }

  lemma {:induction false} LeaveKeeps(s: System, c: CloseCall)
    requires Inv(s)
    ensures Inv(s.(delivery := Nothing)) && Inv(s.(closes := s.closes - multiset{c}))
  {}

  lemma {:induction false} BeginIsValid()
    ensures Inv(Quiet(EMPTY))
  {}

  /** Along every run the invariant holds, and everything durable only grows. */
  lemma {:induction false} PlayKeeps(s: System, steps: seq<Step>)
    requires Inv(s)
    ensures Inv(Play(s, steps)) && Grows(s.w, Play(s, steps).w)
    decreases |steps|
  {
    hide Inv, Grows, Next;
    if steps == [] {
      GrowsItself(s.w);
    } else {
      var init := steps[..|steps| - 1];
      PlayKeeps(s, init);
      StepKeeps(Play(s, init), steps[|steps| - 1]);
      GrowsTransitive(s.w, Play(s, init).w, Play(s, steps).w);
    }
  }
}
