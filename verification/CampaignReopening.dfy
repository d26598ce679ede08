/** A campaign that has ended can be opened again from a snapshot, and then ends a second time. */
module CampaignReopening {
  import opened CampaignRuns
  import opened CampaignSteps
  import opened CampaignTheorems
  import opened Sequences

  lemma {:induction false} PlayFirst(s: System, step: Step, rest: seq<Step>)
    ensures Play(s, [step] + rest) == Play(Next(s, step), rest)
  {
    hide Next;
    PlayOn(s, [step], rest);
    PlayOne(s, [], step);
    assert [] + [step] == [step];
  }

  lemma {:induction false} PlayNone(s: System)
    ensures Play(s, []) == s
  {}

  // --- Whole calls of close ---------------------------------------------------------------------------------------

  function GatesPassed(h: nat): seq<Entry> {
    [Entry(h, DeliveryReconciled), Entry(h, BudgetReconciled), Entry(h, ComputeReconciled)]
  }

  function WithStatus(w: World, h: nat, status: Status): World
    requires h < |w.handles|
  {
    w.(handles := w.handles[h := w.handles[h].(status := status)])
  }

  function ClosedWorld(w: World, h: nat): World
    requires h < |w.handles|
  {
    WithStatus(w, h, Over).(log := w.log + GatesPassed(h) + [Entry(h, Closed)])
  }

  function SpoiltWorld(w: World, h: nat): World
    requires h < |w.handles|
  {
    WithStatus(w, h, Spoilt).(log := w.log + [Entry(h, DeliveryReconciled), Entry(h, Invalid)])
  }

  /** The world after the three gates and the closing entry, one after the other. */
  lemma {:induction false} ClosedByGates(w: World, h: nat)
    requires h < |w.handles|
    ensures
      var u := Logged(Logged(Logged(w, h, DeliveryReconciled), h, BudgetReconciled), h, ComputeReconciled);
      Ended(u, h, Closed, Over) == ClosedWorld(w, h)
  {
    assert w.log + [Entry(h, DeliveryReconciled)] + [Entry(h, BudgetReconciled)] + [Entry(h, ComputeReconciled)]
        == w.log + GatesPassed(h);
  }

  lemma {:induction false} SpoiltAt(u: World, h: nat)
    requires h < |u.handles|
    ensures
      var t := Ended(u, h, Invalid, Spoilt);
      && |t.handles| == |u.handles| && t.handles[h].status == Spoilt
      && |t.log| > 0 && t.log[|t.log| - 1] == Entry(h, Invalid)
  {}

  /** `close` when both gates pass. */
  function CloseSteps(h: nat, profile: string): seq<Step> {
    [Close(h, profile)] + ([Ask(CloseCall(h, Stopped), true)]
      + ([Ask(CloseCall(h, BudgetPassed), true)] + ([Ask(CloseCall(h, ComputePassed), true)] + [])))
  }

  /** `close` when the budget does not reconcile. */
  function SpoilSteps(h: nat, profile: string): seq<Step> {
    [Close(h, profile)] + ([Ask(CloseCall(h, Stopped), false)] + [])
  }

  lemma {:induction false} SoleCall(c: CloseCall, d: CloseCall)
    ensures multiset{} + multiset{c} == multiset{c} && multiset{c} - multiset{c} == multiset{}
    ensures multiset{c} - multiset{c} + multiset{d} == multiset{d}
  {}

  function OneCall(w: World, c: CloseCall): System { System(w, Nothing, multiset{c}) }

  lemma {:induction false} FirstGate(w: World, h: nat, profile: string, rest: seq<Step>)
    requires CanClose(w, h, profile)
    ensures Play(Quiet(w), [Close(h, profile)] + rest) ==
      Play(OneCall(Logged(w, h, DeliveryReconciled), CloseCall(h, Stopped)), rest)
  {
    hide Play, CanClose;
    SoleCall(CloseCall(h, Stopped), CloseCall(h, Stopped));
    PlayFirst(Quiet(w), Close(h, profile), rest);
  }

  lemma {:induction false} NextGate(w: World, c: CloseCall, kind: Kind, stage: Stage, rest: seq<Step>)
    requires (c.stage, kind, stage) == (Stopped, BudgetReconciled, BudgetPassed)
          || (c.stage, kind, stage) == (BudgetPassed, ComputeReconciled, ComputePassed)
    ensures Play(OneCall(w, c), [Ask(c, true)] + rest) ==
        Play(OneCall(Logged(w, c.h, kind), CloseCall(c.h, stage)), rest)
  {
    hide Play;
    SoleCall(c, CloseCall(c.h, stage));
    PlayFirst(OneCall(w, c), Ask(c, true), rest);
  }

  lemma {:induction false} LastGate(w: World, h: nat)
    requires h < |w.handles|
    ensures Play(OneCall(w, CloseCall(h, ComputePassed)), [Ask(CloseCall(h, ComputePassed), true)] + []) ==
        Quiet(Ended(w, h, Closed, Over))
  {
    hide Play;
    SoleCall(CloseCall(h, ComputePassed), CloseCall(h, ComputePassed));
    PlayFirst(OneCall(w, CloseCall(h, ComputePassed)), Ask(CloseCall(h, ComputePassed), true), []);
    PlayNone(Quiet(Ended(w, h, Closed, Over)));
  }

  lemma {:induction false} CloseRun(w: World, h: nat, profile: string)
    requires CanClose(w, h, profile)
    ensures Play(Quiet(w), CloseSteps(h, profile)) == Quiet(ClosedWorld(w, h))
  {
    InRange(w, h, profile);
    hide Play, CanClose;
    var (c1, c2, c3) := (CloseCall(h, Stopped), CloseCall(h, BudgetPassed), CloseCall(h, ComputePassed));
    var w1 := Logged(w, h, DeliveryReconciled);
    var w2 := Logged(w1, h, BudgetReconciled);
    var w3 := Logged(w2, h, ComputeReconciled);
    FirstGate(w, h, profile, [Ask(c1, true)] + ([Ask(c2, true)] + ([Ask(c3, true)] + [])));
    NextGate(w1, c1, BudgetReconciled, BudgetPassed, [Ask(c2, true)] + ([Ask(c3, true)] + []));
    NextGate(w2, c2, ComputeReconciled, ComputePassed, [Ask(c3, true)] + []);
    LastGate(w3, h);
    assert Ended(w3, h, Closed, Over).log == ClosedWorld(w, h).log;
  }

  lemma {:induction false} SpoilRun(w: World, h: nat, profile: string)
    requires CanClose(w, h, profile)
    ensures Play(Quiet(w), SpoilSteps(h, profile)) == Quiet(SpoiltWorld(w, h))
  {
    InRange(w, h, profile);
    hide Play, CanClose;
    var (c, w1) := (CloseCall(h, Stopped), Logged(w, h, DeliveryReconciled));
    SoleCall(c, c);
    FirstGate(w, h, profile, [Ask(c, false)] + []);
    PlayFirst(OneCall(w1, c), Ask(c, false), []);
    PlayNone(Quiet(SpoiltWorld(w, h)));
    assert Ended(w1, h, Invalid, Spoilt).log == SpoiltWorld(w, h).log;
  }

  // --- Reopening ----------------------------------------------------------------------------------------------------

  function Reopened(w: World, snapshot: Handle): World {
    WithHandle(w, Handle(snapshot.sessions, CompletedIds(w.jobs), Active))
  }

  /** The outbox that let a handle close accepts its earlier snapshot, and the resumed handle can close too. */
  lemma {:induction false} SnapshotOpens(w: World, u: World, h: nat, profile: string)
    requires Valid(w) && CanClose(w, h, profile)
    requires u.jobs == w.jobs && u.acked == w.acked && |u.handles| == |w.handles|
    ensures CanResume(u, w.handles[h]) && CanClose(Reopened(u, w.handles[h]), |w.handles|, profile)
  {
    var snapshot := w.handles[h];
    CompletedIdsAre(w.jobs);
    assert HandleAgrees(w, snapshot);
  }

  /** The snapshot is taken, the handle is closed, and the snapshot resumed; then the new handle ends as `last`
      does it. */
  function Reopening(h: nat, next: nat, snapshot: Handle, profile: string, last: seq<Step>): seq<Step> {
    CloseSteps(h, profile) + ([Resume(snapshot)] + last)
  }

  lemma {:induction false} ReopeningRun(w: World, h: nat, profile: string, last: seq<Step>)
    requires Valid(w) && CanClose(w, h, profile)
    ensures
      var u := Reopened(ClosedWorld(w, h), w.handles[h]);
      && Play(Quiet(w), Reopening(h, |w.handles|, w.handles[h], profile, last)) == Play(Quiet(u), last)
      && CanClose(u, |w.handles|, profile)
  {
    InRange(w, h, profile);
    hide Play, CanClose, CanResume, CompletedIds, Valid;
    CloseRun(w, h, profile);
    SnapshotOpens(w, ClosedWorld(w, h), h, profile);
    PlayOn(Quiet(w), CloseSteps(h, profile), [Resume(w.handles[h])] + last);
    PlayFirst(Quiet(ClosedWorld(w, h)), Resume(w.handles[h]), last);
  }

  /** Every campaign that can be closed can be closed twice: a snapshot taken before the close is resumed after
      it, by a new process, and the resumed handle is closed. No two calls overlap. */
  lemma {:induction false} StaleSnapshotClosesAgain(steps: seq<Step>, h: nat, profile: string)
    requires After(steps) == Quiet(After(steps).w) && CanClose(After(steps).w, h, profile)
    ensures
      var w := After(steps).w;
      var run := steps + Reopening(h, |w.handles|, w.handles[h], profile, CloseSteps(|w.handles|, profile));
      After(run).w.log == w.log + GatesPassed(h) + [Entry(h, Closed)]
          + GatesPassed(|w.handles|) + [Entry(|w.handles|, Closed)]
  {
    hide Play, CanClose, Inv, CompletedIds;
    var w := After(steps).w;
    InRange(w, h, profile);
    var u := Reopened(ClosedWorld(w, h), w.handles[h]);
    Reached(steps, Reopening(h, |w.handles|, w.handles[h], profile, CloseSteps(|w.handles|, profile)));
    InvIsValid(After(steps));
    ReopeningRun(w, h, profile, CloseSteps(|w.handles|, profile));
    CloseRun(u, |w.handles|, profile);
  }

  /** In the same way every campaign that can be closed can be closed and then found invalid. */
  lemma {:induction false} StaleSnapshotSpoilsAfterClose(steps: seq<Step>, h: nat, profile: string)
    requires After(steps) == Quiet(After(steps).w) && CanClose(After(steps).w, h, profile)
    ensures
      var w := After(steps).w;
      var run := steps + Reopening(h, |w.handles|, w.handles[h], profile, SpoilSteps(|w.handles|, profile));
      After(run).w.log == w.log + GatesPassed(h) + [Entry(h, Closed), Entry(|w.handles|, DeliveryReconciled),
          Entry(|w.handles|, Invalid)]
  {
    hide Play, CanClose, Inv, CompletedIds;
    var w := After(steps).w;
    InRange(w, h, profile);
    var u := Reopened(ClosedWorld(w, h), w.handles[h]);
    Reached(steps, Reopening(h, |w.handles|, w.handles[h], profile, SpoilSteps(|w.handles|, profile)));
    InvIsValid(After(steps));
    ReopeningRun(w, h, profile, SpoilSteps(|w.handles|, profile));
    SpoilRun(u, |w.handles|, profile);
  }

  lemma {:induction false} InRange(w: World, h: nat, profile: string)
    requires CanClose(w, h, profile)
    ensures h < |w.handles|
  {}

  lemma {:induction false} InvIsValid(s: System)
    requires Inv(s)
    ensures Valid(s.w)
  {}

  /** A campaign that was just started can be closed, so both runs exist. */
  lemma {:induction false} StartedCanClose(sessions: seq<string>, profile: string)
    requires Usable(sessions)
    ensures After([Start(sessions)]) == Quiet(After([Start(sessions)]).w)
        && CanClose(After([Start(sessions)]).w, 0, profile)
  {
    PlayOne(Quiet(EMPTY), [], Start(sessions));
    assert [] + [Start(sessions)] == [Start(sessions)];
  }
}
