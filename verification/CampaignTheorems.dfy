/** The promises of the controller over whole runs: deliveries, ends of the campaign, and the order that the
    outbox gate demands. */
module CampaignTheorems {
  import opened CampaignRuns
  import opened CampaignSteps
  import opened Sequences

  function After(steps: seq<Step>): System { Play(Quiet(EMPTY), steps) }

  lemma {:induction false} Reached(steps: seq<Step>, more: seq<Step>)
    ensures After(steps + more) == Play(After(steps), more)
    ensures Inv(After(steps)) && Inv(After(steps + more)) && Grows(After(steps).w, After(steps + more).w)
  {
    hide Inv, Grows, Next;
    BeginIsValid();
    PlayKeeps(Quiet(EMPTY), steps);
    PlayOn(Quiet(EMPTY), steps, more);
    PlayKeeps(After(steps), more);
  }

  // --- Deliveries -----------------------------------------------------------------------------------------------

  /** A recipient that has acknowledged a job keeps its receipt for ever, and is never sent the job again. */
  lemma {:induction false} NeverSentAgain(steps: seq<Step>, more: seq<Step>, key: Key, m: nat)
    requires key in After(steps).w.acked && |After(steps).w.marks| <= m < |After(steps + more).w.marks|
    ensures
      var (w, u) := (After(steps).w, After(steps + more).w);
      key in u.acked && u.acked[key] == w.acked[key] && u.marks[m] != Sent(key)
  {
    hide Play;
    Reached(steps, more);
    var w, u := After(steps).w, After(steps + more).w;
    var k :| 0 <= k < |w.marks| && w.marks[k] == Acked(key);
    assert u.marks[k] == Acked(key);
  }

  /** A call of `deliver` that returns leaves the job on the handle's list, acknowledged by every recipient. */
  lemma {:induction false} ReturnMeansAcknowledged(steps: seq<Step>, session: string)
    requires After(steps).delivery.Announcing?
    ensures
      var (d, w) := (After(steps).delivery, After(steps).w);
      && d.h < |w.handles| && d.job.id in w.handles[d.h].delivered
      && (session in w.handles[d.h].sessions ==> Key(d.job.id, session) in w.acked)
  {
    hide Play;
    Reached(steps, []);
  }

  /** A job that is complete stays complete, with every recipient's receipt, whoever runs or resumes what. */
  lemma {:induction false} CompletedForever(steps: seq<Step>, more: seq<Step>, id: string, session: string)
    requires Completed(After(steps).w.jobs, id)
    ensures
      var u := After(steps + more).w;
      && Completed(u.jobs, id) && FindJob(u.jobs, id) < |u.jobs|
      && (session in u.jobs[FindJob(u.jobs, id)].sessions ==> Key(id, session) in u.acked)
  {
    hide Play;
    Reached(steps, more);
    var u := After(steps + more).w;
    CompletedGrows(After(steps).w, u, id);
    var i :| 0 <= i < |u.jobs| && CompleteAt(u.jobs, id, i);
    FoundAt(u.jobs, i);
    assert Held(u, u.jobs[i].job.id, u.jobs[i].sessions);
  }

  lemma {:induction false} FoundAt(jobs: seq<JobRow>, i: nat)
    requires DistinctJobs(jobs) && i < |jobs|
    ensures FindJob(jobs, jobs[i].job.id) == i
  {
    var k := FindJob(jobs, jobs[i].job.id);
    assert k <= i && jobs[k].job.id == jobs[i].job.id;
  }

  /** A delivered job stays on its handle's list, and every handle that is resumed at any later time has it
      too, once. */
  lemma {:induction false} ResumeKeepsDelivered(steps: seq<Step>, more: seq<Step>, h: nat, id: string, snapshot: Handle)
    requires h < |After(steps).w.handles| && id in After(steps).w.handles[h].delivered
    requires CanResume(After(steps + more).w, snapshot)
    ensures
      var u := After(steps + more + [Resume(snapshot)]).w;
      && |u.handles| == |After(steps + more).w.handles| + 1
      && h < |u.handles| && id in u.handles[h].delivered
      && var resumed := u.handles[|u.handles| - 1]; id in resumed.delivered && NoRepeats(resumed.delivered)
  {
    hide Play, CompletedIds;
    Reached(steps, more);
    PlayOne(Quiet(EMPTY), steps + more, Resume(snapshot));
    var w, u := After(steps).w, After(steps + more).w;
    assert HandleAgrees(w, w.handles[h]);
    CompletedGrows(w, u, id);
    CompletedIdsAre(u.jobs);
    assert HandleGrows(w.handles[h], u.handles[h]);
  }

  // --- Gates ----------------------------------------------------------------------------------------------------

  /** Every closing entry comes after the three gates of its handle were passed, in their order. */
  lemma {:induction false} ClosedBehindGates(steps: seq<Step>, i: nat) returns (a: nat, b: nat, c: nat)
    requires i < |After(steps).w.log| && After(steps).w.log[i].kind == Closed
    ensures
      var (log, h) := (After(steps).w.log, After(steps).w.log[i].handle);
      && a < b < c < i
      && log[a] == Entry(h, DeliveryReconciled) && log[b] == Entry(h, BudgetReconciled)
          && log[c] == Entry(h, ComputeReconciled)
  {
    hide Play;
    Reached(steps, []);
    var log := After(steps).w.log;
    var prefix, h := log[..i], log[i].handle;
    c := PassedAt(prefix, h, 3);
    b := PassedAt(prefix[..c], h, 2);
    a := PassedAt(prefix[..c][..b], h, 1);
  }

  function GateKind(g: nat): Kind {
    if g == 1 then DeliveryReconciled else if g == 2 then BudgetReconciled else ComputeReconciled
  }

  /** Where a handle passed its gate `g`: just before, it had passed the one before. */
  lemma {:induction false} PassedAt(log: seq<Entry>, h: nat, g: nat) returns (k: nat)
    requires 1 <= g <= Gates(log, h)
    ensures k < |log| && log[k] == Entry(h, GateKind(g)) && Gates(log[..k], h) == g - 1
    decreases |log|
  {
    var init := log[..|log| - 1];
    GatesBounded(log, h);
    if Gates(init, h) >= g {
      k := PassedAt(init, h, g);
      assert init[..k] == log[..k];
    } else {
      k := |log| - 1;
    }
  }

  // --- Ends -------------------------------------------------------------------------------------------------------

  predicate IsEnd(e: Entry) { e.kind == Closed || e.kind == Invalid }

  function Ends(log: seq<Entry>): nat {
    if log == [] then 0 else Ends(log[..|log| - 1]) + if IsEnd(log[|log| - 1]) then 1 else 0
  }

  /** The campaign ends at most once: it is closed once, or found invalid once, and never both. */
  predicate EndsOnce(log: seq<Entry>) { forall i, j :: 0 <= i < j < |log| ==> !(IsEnd(log[i]) && IsEnd(log[j])) }

  lemma {:induction false} EndsZero(log: seq<Entry>)
    ensures Ends(log) == 0 <==> forall i :: 0 <= i < |log| ==> !IsEnd(log[i])
    decreases |log|
  {
    if log != [] { EndsZero(log[..|log| - 1]); }
  }

  lemma {:induction false} EndsOnceMore(log: seq<Entry>, e: Entry)
    ensures EndsOnce(log + [e]) <==> EndsOnce(log) && (IsEnd(e) ==> forall i :: 0 <= i < |log| ==> !IsEnd(log[i]))
  {
    var more := log + [e];
    if EndsOnce(more) {
      forall i, j | 0 <= i < j < |log| ensures !(IsEnd(log[i]) && IsEnd(log[j])) {
        assert !(IsEnd(more[i]) && IsEnd(more[j]));
      }
      forall i | 0 <= i < |log| ensures IsEnd(e) ==> !IsEnd(log[i]) { assert !(IsEnd(more[i]) && IsEnd(more[|log|])); }
    }
  }

  lemma {:induction false} EndsOnceCounts(log: seq<Entry>)
    ensures Ends(log) <= 1 <==> EndsOnce(log)
    decreases |log|
  {
    if log != [] {
      var init, last := log[..|log| - 1], log[|log| - 1];
      assert log == init + [last];
      EndsOnceCounts(init);
      EndsZero(init);
      EndsOnceMore(init, last);
    }
  }

  lemma {:induction false} EndsMore(log: seq<Entry>, e: Entry)
    ensures Ends(log + [e]) == Ends(log) + if IsEnd(e) then 1 else 0
  {
    assert (log + [e])[..|log|] == log;
  }

  lemma {:induction false} AskBalance(s: System, c: CloseCall, passes: bool)
    ensures Ends(AskGate(s, c, passes).w.log) + |AskGate(s, c, passes).closes| <= Ends(s.w.log) + |s.closes|
  {
    EndsMore(s.w.log, Entry(c.h, BudgetReconciled));
    EndsMore(s.w.log, Entry(c.h, ComputeReconciled));
    EndsMore(s.w.log, Entry(c.h, Closed));
    EndsMore(s.w.log, Entry(c.h, Invalid));
    hide Ends;
    if c in s.closes {
      assert s.closes == (s.closes - multiset{c}) + multiset{c};
      assert |s.closes - multiset{c}| == |s.closes| - 1;
    }
  }

  /** Only a new call of `close` adds to the ends that there are and the calls that may still end. */
  lemma {:induction false} StepBalance(s: System, step: Step)
    ensures
      var t := Next(s, step);
      Ends(t.w.log) + |t.closes| <= Ends(s.w.log) + |s.closes| + if step.Close? && t != s then 1 else 0
  {
    match step
    case Ask(c, passes) => AskBalance(s, c, passes);
    case Announce => if s.delivery.Announcing? { EndsMore(s.w.log, Entry(s.delivery.h, JobDelivered)); }
    case Close(h, profile) => EndsMore(s.w.log, Entry(h, DeliveryReconciled));
    case _ =>
  }

  predicate NoCloses(steps: seq<Step>) { forall i :: 0 <= i < |steps| ==> !steps[i].Close? }

  lemma {:induction false} PlayBalance(s: System, steps: seq<Step>)
    requires NoCloses(steps)
    ensures Ends(Play(s, steps).w.log) + |Play(s, steps).closes| <= Ends(s.w.log) + |s.closes|
    decreases |steps|
  {
    hide Next, Ends;
    if steps != [] {
      PlayBalance(s, steps[..|steps| - 1]);
      StepBalance(Play(s, steps[..|steps| - 1]), steps[|steps| - 1]);
    }
  }

  /** What a caller can see before calling `close`: the campaign has not ended, and no other call is under way. */
  predicate Calm(s: System) { Ends(s.w.log) == 0 && s.closes == multiset{} }

  ghost predicate EndsOnceAfter(t: System, more: seq<Step>) { NoCloses(more) ==> EndsOnce(Play(t, more).w.log) }

  lemma {:induction false} AskEnds(s: System, c: CloseCall)
    requires c in s.closes && c.h < |s.w.handles|
    ensures
      var t := Next(s, Ask(c, false));
      Ends(t.w.log) == Ends(s.w.log) + 1 && t.closes == s.closes - multiset{c} && |t.w.handles| == |s.w.handles|
  {
    EndsMore(s.w.log, Entry(c.h, Closed));
    EndsMore(s.w.log, Entry(c.h, Invalid));
  }

  /** A call of `close` that passes its checks leaves the campaign with at most one end, whatever the gates
      answer and whatever else goes on, if and only if the campaign was calm when it was made. */
  lemma {:induction false} CloseIsSafeExactly(steps: seq<Step>, h: nat, profile: string)
    requires CanClose(After(steps).w, h, profile)
    ensures (forall more :: EndsOnceAfter(After(steps + [Close(h, profile)]), more)) <==> Calm(After(steps))
  {
    hide Play;
    Reached(steps, []);
    PlayOne(Quiet(EMPTY), steps, Close(h, profile));
    var s, t := After(steps), After(steps + [Close(h, profile)]);
    EndsMore(s.w.log, Entry(h, DeliveryReconciled));
    if Calm(s) {
      forall more ensures EndsOnceAfter(t, more) {
        if NoCloses(more) {
          PlayBalance(t, more);
          EndsOnceCounts(Play(t, more).w.log);
        }
      }
    } else {
      SecondEnd(s, t, h);
    }
  }

  lemma {:induction false} SecondEnd(s: System, t: System, h: nat)
    requires !Calm(s) && ClosesAgree(s.w, s.closes) && h < |s.w.handles| && |t.w.handles| == |s.w.handles|
    requires t.closes == s.closes + multiset{CloseCall(h, Stopped)} && Ends(t.w.log) == Ends(s.w.log)
    ensures exists more :: !EndsOnceAfter(t, more)
  {
    hide Next, Ends;
    var n := CloseCall(h, Stopped);
    if Ends(s.w.log) > 0 {
      AskEnds(t, n);
      PlayOne(t, [], Ask(n, false));
      assert [] + [Ask(n, false)] == [Ask(n, false)];
      EndsOnceCounts(Play(t, [Ask(n, false)]).w.log);
      assert !EndsOnceAfter(t, [Ask(n, false)]);
    } else {
      var c :| c in s.closes;
      var u := Next(t, Ask(c, false));
      AskEnds(t, c);
      AskEnds(u, n);
      PlayOne(t, [], Ask(c, false));
      assert [] + [Ask(c, false)] == [Ask(c, false)];
      PlayOne(t, [Ask(c, false)], Ask(n, false));
      assert [Ask(c, false)] + [Ask(n, false)] == [Ask(c, false), Ask(n, false)];
      EndsOnceCounts(Play(t, [Ask(c, false), Ask(n, false)]).w.log);
      assert !EndsOnceAfter(t, [Ask(c, false), Ask(n, false)]);
    }
  }

  /** Every call of `close` in the run is made in calm. */
  predicate Careful(steps: seq<Step>)
    decreases |steps|
  {
    steps == [] || (Careful(steps[..|steps| - 1]) && (steps[|steps| - 1].Close? ==> Calm(After(steps[..|steps| - 1]))))
  }

  /** In a careful run the campaign is closed at most once, and never closed and invalid. */
  lemma {:induction false} CarefulRunsEndOnce(steps: seq<Step>)
    requires Careful(steps)
    ensures EndsOnce(After(steps).w.log) && Ends(After(steps).w.log) + |After(steps).closes| <= 1
    decreases |steps|
  {
    hide Next;
    if steps != [] {
      CarefulRunsEndOnce(steps[..|steps| - 1]);
      StepBalance(After(steps[..|steps| - 1]), steps[|steps| - 1]);
    }
    EndsOnceCounts(After(steps).w.log);
  }

  // --- One handle -------------------------------------------------------------------------------------------------

  function EndsOf(log: seq<Entry>, h: nat): nat {
    if log == [] then 0
    else EndsOf(log[..|log| - 1], h) + if IsEnd(log[|log| - 1]) && log[|log| - 1].handle == h then 1 else 0
  }

  lemma {:induction false} EndsOfMore(log: seq<Entry>, e: Entry, h: nat)
    ensures EndsOf(log + [e], h) == EndsOf(log, h) + if IsEnd(e) && e.handle == h then 1 else 0
  {
    assert (log + [e])[..|log|] == log;
  }

  predicate HandleEnds(w: World, h: nat) {
    && EndsOf(w.log, h) <= 1
    && (h < |w.handles| && w.handles[h].status == Active ==> EndsOf(w.log, h) == 0)
    && (h >= |w.handles| ==> EndsOf(w.log, h) == 0)
  }

  predicate CallIsActive(w: World, c: CloseCall) { c.h < |w.handles| && w.handles[c.h].status == Active }

  ghost predicate OneAtATime(s: System) {
    && |s.closes| <= 1 && (forall c :: c in s.closes ==> CallIsActive(s.w, c))
    && (forall h: nat :: HandleEnds(s.w, h))
  }

  lemma {:induction false} OneLogged(s: System, e: Entry, u: World)
    requires OneAtATime(s) && u.log == s.w.log + [e] && !IsEnd(e)
    requires |u.handles| == |s.w.handles| && forall h :: 0 <= h < |u.handles| ==>
        u.handles[h].status == s.w.handles[h].status
    ensures OneAtATime(s.(w := u))
  {
    forall h: nat ensures HandleEnds(u, h) {
      assert HandleEnds(s.w, h);
      EndsOfMore(s.w.log, e, h);
    }
    forall c | c in s.closes ensures CallIsActive(u, c) { assert CallIsActive(s.w, c); }
  }

  lemma {:induction false} OnlyCall(closes: multiset<CloseCall>, c: CloseCall)
    requires |closes| <= 1 && c in closes
    ensures closes == multiset{c}
  {
    assert closes == (closes - multiset{c}) + multiset{c};
    assert |closes - multiset{c}| == 0;
  }

  lemma {:induction false} OneEnded(s: System, c: CloseCall, kind: Kind, status: Status)
    requires OneAtATime(s) && c in s.closes && status != Active && (kind == Closed || kind == Invalid)
    ensures OneAtATime(System(Ended(s.w, c.h, kind, status), s.delivery, s.closes - multiset{c}))
  {
    OnlyCall(s.closes, c);
    assert CallIsActive(s.w, c);
    var u := Ended(s.w, c.h, kind, status);
    forall h: nat ensures HandleEnds(u, h) {
      assert HandleEnds(s.w, h);
      EndsOfMore(s.w.log, Entry(c.h, kind), h);
    }
  }

  lemma {:induction false} OnePassed(s: System, c: CloseCall, kind: Kind, stage: Stage)
    requires OneAtATime(s) && c in s.closes && !IsEnd(Entry(c.h, kind))
    ensures OneAtATime(PassGate(s, c, true, kind, stage))
  {
    OnlyCall(s.closes, c);
    assert CallIsActive(s.w, c);
    OneLogged(s, Entry(c.h, kind), Logged(s.w, c.h, kind));
  }

  lemma {:induction false} StepOne(s: System, step: Step)
    requires OneAtATime(s) && (step.Close? ==> s.closes == multiset{})
    ensures OneAtATime(Next(s, step))
  {
    hide OneAtATime;
    match step
    case Start(sessions) => OneMore(s, Handle(sessions, [], Active));
    case Resume(snapshot) => OneResumed(s, snapshot);
    case Close(h, profile) => OneBegun(s, h, profile);
    case Announce => OneAnnounced(s);
    case Ask(c, passes) => OneAsked(s, c, passes);
    case Drop(c) => OneDropped(s, c);
    case _ => DeliveryUnmoved(s, step);
  }

  lemma {:induction false} OneResumed(s: System, snapshot: Handle)
    requires OneAtATime(s)
    ensures OneAtATime(ResumeHandle(s, snapshot))
  {
    hide OneAtATime, CompletedIds;
    OneMore(s, Handle(snapshot.sessions, CompletedIds(s.w.jobs), Active));
  }

  lemma {:induction false} OneAsked(s: System, c: CloseCall, passes: bool)
    requires OneAtATime(s)
    ensures OneAtATime(AskGate(s, c, passes))
  {
    hide OneAtATime, Ended;
    if c in s.closes {
      if c.stage == ComputePassed { OneEnded(s, c, Closed, Over); }
      else if !passes { OneEnded(s, c, Invalid, Spoilt); }
      else if c.stage == Stopped { OnePassed(s, c, BudgetReconciled, BudgetPassed); }
      else { OnePassed(s, c, ComputeReconciled, ComputePassed); }
    }
  }

  lemma {:induction false} DeliveryUnmoved(s: System, step: Step)
    requires OneAtATime(s)
    requires step.Deliver? || step.Look? || step.Send? || step.Answer? || step.Complete? || step.Remember?
        || step.Abandon?
    ensures OneAtATime(Next(s, step))
  {
    hide OneAtATime;
    OneUnmoved(s, Next(s, step));
  }

  lemma {:induction false} OneBegun(s: System, h: nat, profile: string)
    requires OneAtATime(s) && s.closes == multiset{}
    ensures OneAtATime(BeginClosing(s, h, profile))
  {
    OneLogged(s, Entry(h, DeliveryReconciled), Logged(s.w, h, DeliveryReconciled));
  }

  lemma {:induction false} OneAnnounced(s: System)
    requires OneAtATime(s)
    ensures OneAtATime(AnnounceJob(s))
  {
    if s.delivery.Announcing? {
      OneLogged(s, Entry(s.delivery.h, JobDelivered), Logged(s.w, s.delivery.h, JobDelivered));
    }
  }

  lemma {:induction false} OneMore(s: System, handle: Handle)
    requires OneAtATime(s)
    ensures OneAtATime(s.(w := WithHandle(s.w, handle)))
  {
    var u := WithHandle(s.w, handle);
    forall h: nat ensures HandleEnds(u, h) { assert HandleEnds(s.w, h); }
    forall c | c in s.closes ensures CallIsActive(u, c) { assert CallIsActive(s.w, c); }
  }

  lemma {:induction false} OneDropped(s: System, c: CloseCall)
    requires OneAtATime(s)
    ensures OneAtATime(s.(closes := s.closes - multiset{c}))
  {
    if c in s.closes { OnlyCall(s.closes, c); } else { assert s.closes - multiset{c} == s.closes; }
  }

  lemma {:induction false} OneUnmoved(s: System, t: System)
    requires OneAtATime(s) && t.closes == s.closes && t.w.log == s.w.log && |t.w.handles| == |s.w.handles|
    requires forall h :: 0 <= h < |t.w.handles| ==> t.w.handles[h].status == s.w.handles[h].status
    ensures OneAtATime(t)
  {
    forall h: nat ensures HandleEnds(t.w, h) { assert HandleEnds(s.w, h); }
    forall c | c in s.closes ensures CallIsActive(t.w, c) { assert CallIsActive(s.w, c); }
  }

  /** No call of `close` is made while another is under way. */
  predicate Sequential(steps: seq<Step>)
    decreases |steps|
  {
    steps == []
    || (Sequential(steps[..|steps| - 1]) && (steps[|steps| - 1].Close? ==>
        After(steps[..|steps| - 1]).closes == multiset{}))
  }

  /** When calls of `close` do not overlap, every handle ends at most once: closed once or invalid once. */
  lemma {:induction false} HandleEndsOnce(steps: seq<Step>, h: nat)
    requires Sequential(steps)
    ensures EndsOf(After(steps).w.log, h) <= 1
  {
    SequentialRuns(steps);
    assert HandleEnds(After(steps).w, h);
  }

  lemma {:induction false} SequentialRuns(steps: seq<Step>)
    requires Sequential(steps)
    ensures OneAtATime(After(steps))
    decreases |steps|
  {
    hide Next;
    if steps == [] {
      forall h: nat ensures HandleEnds(EMPTY, h) {}
    } else {
      SequentialRuns(steps[..|steps| - 1]);
      StepOne(After(steps[..|steps| - 1]), steps[|steps| - 1]);
    }
  }
}
