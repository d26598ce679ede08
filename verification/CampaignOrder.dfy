/** The order that the outbox gate demands: a handle can still come to close exactly while its delivered jobs
    are a prefix of the prepared ones. */
module CampaignOrder {
  import opened CampaignReopening
  import opened CampaignRuns
  import opened CampaignSteps
  import opened CampaignTheorems
  import opened Sequences

  // --- A handle out of order never closes -------------------------------------------------------------------------

  /** A list of distinct completed jobs is no longer than the outbox. */
  lemma {:induction false} NoLongerThanOutbox(w: World, handle: Handle)
    requires HandleAgrees(w, handle)
    ensures |handle.delivered| <= |Ids(w.jobs)|
  {
    DistinctBySize(handle.delivered);
    DistinctBySize(Ids(w.jobs));
    forall id | id in Elements(handle.delivered) ensures id in Elements(Ids(w.jobs)) {
      var k :| 0 <= k < |handle.delivered| && handle.delivered[k] == id;
      var i :| 0 <= i < |w.jobs| && CompleteAt(w.jobs, handle.delivered[k], i);
      assert Ids(w.jobs)[i] == id;
    }
    SubsetSize(Elements(handle.delivered), Elements(Ids(w.jobs)));
  }

  lemma {:induction false} IdsGrow(a: seq<JobRow>, b: seq<JobRow>)
    requires |a| <= |b| && forall i :: 0 <= i < |a| ==> RowGrows(a[i], b[i])
    ensures Ids(a) <= Ids(b)
  {
    forall i | 0 <= i < |a| ensures Ids(a)[i] == Ids(b)[i] { assert RowGrows(a[i], b[i]); }
  }

  /** A handle whose delivered jobs are not a prefix of the prepared ones is refused by `close`, now and after
      anything that may still happen. */
  lemma {:induction false} OutOfOrderNeverCloses(steps: seq<Step>, more: seq<Step>, h: nat, profile: string)
    requires h < |After(steps).w.handles| && !(After(steps).w.handles[h].delivered <= Ids(After(steps).w.jobs))
    ensures !CanClose(After(steps + more).w, h, profile)
    ensures Next(After(steps + more), Close(h, profile)) == After(steps + more)
  {
    hide Play;
    Reached(steps, more);
    var w, u := After(steps).w, After(steps + more).w;
    IdsGrow(w.jobs, u.jobs);
    assert HandleAgrees(w, w.handles[h]);
    NoLongerThanOutbox(w, w.handles[h]);
    assert HandleGrows(w.handles[h], u.handles[h]);
    NotPrefix(w.handles[h].delivered, u.handles[h].delivered, Ids(w.jobs), Ids(u.jobs));
  }

  lemma {:induction false} NotPrefix(a: seq<string>, b: seq<string>, x: seq<string>, y: seq<string>)
    requires a <= b && x <= y && |a| <= |x| && !(a <= x)
    ensures b != y
  {
    var k :| 0 <= k < |a| && a[k] != x[k];
    assert b[k] == a[k] && y[k] == x[k];
  }

  // --- A handle in order can catch up ------------------------------------------------------------------------------

  function Looks(sessions: seq<string>): seq<Step> {
    if sessions == [] then [] else Looks(sessions[..|sessions| - 1]) + [Look(sessions[|sessions| - 1])]
  }

  function Places(sessions: seq<string>, n: nat): map<string, Place>
    requires n <= |sessions|
  {
    map session | session in sessions :: if session in sessions[..n] then Done else Fresh
  }

  lemma {:induction false} PlacesMore(sessions: seq<string>, n: nat)
    requires n < |sessions| && NoRepeats(sessions)
    ensures sessions[n] in Places(sessions, n) && Places(sessions, n)[sessions[n]] == Fresh
    ensures Places(sessions, n + 1) == Places(sessions, n)[sessions[n] := Done]
  {
    var x := sessions[n];
    assert sessions[..n + 1] == sessions[..n] + [x];
    assert x !in sessions[..n];
  }

  lemma {:induction false} LookOnce(w: World, h: nat, job: Job, profile: string, places: map<string, Place>,
      closes: multiset<CloseCall>, x: string)
    requires x in places && places[x] == Fresh && Key(job.id, x) in w.acked && w.acked[Key(job.id, x)] == profile
    ensures Next(System(w, Fanning(h, job, profile, places), closes), Look(x))
         == System(w, Fanning(h, job, profile, places[x := Done]), closes)
  {}

  predicate AckedBy(w: World, job: Job, profile: string, sessions: seq<string>) {
    forall x :: x in sessions ==> Key(job.id, x) in w.acked && w.acked[Key(job.id, x)] == profile
  }

  lemma {:induction false} LooksMore(sessions: seq<string>, n: nat)
    requires 0 < n <= |sessions|
    ensures Looks(sessions[..n]) == Looks(sessions[..n - 1]) + [Look(sessions[n - 1])]
  {
    assert sessions[..n][..n - 1] == sessions[..n - 1];
  }

  /** Looking at acknowledged recipients one after the other. */
  lemma {:induction false} LooksRun(w: World, h: nat, job: Job, profile: string, sessions: seq<string>, n: nat,
      closes: multiset<CloseCall>)
    requires n <= |sessions| && NoRepeats(sessions) && AckedBy(w, job, profile, sessions)
    ensures Play(System(w, Fanning(h, job, profile, Places(sessions, 0)), closes), Looks(sessions[..n]))
         == System(w, Fanning(h, job, profile, Places(sessions, n)), closes)
    decreases n
  {
    var s := System(w, Fanning(h, job, profile, Places(sessions, 0)), closes);
    if n == 0 {
      assert sessions[..0] == [];
    } else {
      var x := sessions[n - 1];
      assert x in sessions;
      LooksMore(sessions, n);
      hide Play, Next, Places, Looks, AckedBy, NoRepeats;
      LooksRun(w, h, job, profile, sessions, n - 1, closes);
      PlayOne(s, Looks(sessions[..n - 1]), Look(x));
      PlacesMore(sessions, n - 1);
      LookOnce(w, h, job, profile, Places(sessions, n - 1), closes, x);
    }
  }

  /** The job is delivered again to recipients that have all acknowledged it. */
  function Redelivery(h: nat, job: Job, profile: string, sessions: seq<string>): seq<Step> {
    [Deliver(h, job, profile)] + (Looks(sessions) + ([Complete] + ([Remember] + ([Announce] + []))))
  }

  function Relisted(w: World, h: nat, id: string): World
    requires h < |w.handles|
  {
    Logged(w.(handles := w.handles[h := w.handles[h].(delivered := w.handles[h].delivered + [id])]), h, JobDelivered)
  }

  /** Everything that `close` asks for but the list of delivered jobs. */
  ghost predicate OnlyListMissing(s: System, h: nat, profile: string) {
    && Inv(s) && s.delivery == Nothing && h < |s.w.handles| && s.w.handles[h].status == Active
    && Usable(s.w.handles[h].sessions) && AllComplete(s.w.jobs, s.w.handles[h].sessions)
    && ProfileAgrees(s.w, profile)
  }

  lemma {:induction false} LastSteps(s: System, i: nat)
    requires s.delivery.Fanning? && AllDone(s.delivery.places) && s.delivery.h < |s.w.handles|
    requires i < |s.w.jobs| && i == FindJob(s.w.jobs, s.delivery.job.id) && s.w.jobs[i].complete
    requires s.delivery.job.id !in s.w.handles[s.delivery.h].delivered
    ensures Play(s, [Complete] + ([Remember] + ([Announce] + []))) ==
        s.(w := Relisted(s.w, s.delivery.h, s.delivery.job.id), delivery := Nothing)
  {
    hide Play;
    var d := s.delivery;
    PlayFirst(s, Complete, [Remember] + ([Announce] + []));
    assert WithComplete(s.w, i) == s.w;
    var s1 := s.(delivery := Marking(d.h, d.job));
    PlayFirst(s1, Remember, [Announce] + []);
    var s2 := Next(s1, Remember);
    PlayFirst(s2, Announce, []);
    PlayNone(Next(s2, Announce));
  }

  lemma {:induction false} PreparedAgain(s: System, h: nat, profile: string, i: nat)
    requires OnlyListMissing(s, h, profile) && i < |s.w.jobs|
    ensures
      var (job, sessions) := (s.w.jobs[i].job, s.w.handles[h].sessions);
      && FindJob(s.w.jobs, job.id) == i && NoRepeats(sessions) && AckedBy(s.w, job, profile, sessions)
      && Next(s, Deliver(h, job, profile)) == s.(delivery := Fanning(h, job, profile, Places(sessions, 0)))
  {
    var (job, sessions) := (s.w.jobs[i].job, s.w.handles[h].sessions);
    FoundAt(s.w.jobs, i);
    assert Held(s.w, job.id, sessions);
    assert Places(sessions, 0) == map session | session in sessions :: Fresh;
  }

  lemma {:induction false} AllPlacesDone(sessions: seq<string>)
    ensures AllDone(Places(sessions, |sessions|))
  {
    assert sessions[..|sessions|] == sessions;
  }

  lemma {:induction false} RedeliveryRun(s: System, h: nat, profile: string, i: nat)
    requires OnlyListMissing(s, h, profile) && i < |s.w.jobs| && s.w.jobs[i].job.id !in s.w.handles[h].delivered
    ensures Play(s, Redelivery(h, s.w.jobs[i].job, profile, s.w.handles[h].sessions)) ==
        s.(w := Relisted(s.w, h, s.w.jobs[i].job.id))
  {
    var (job, sessions) := (s.w.jobs[i].job, s.w.handles[h].sessions);
    PreparedAgain(s, h, profile, i);
    hide Play, Next, Inv, Places, ProfileAgrees, Usable;
    var rest := [Complete] + ([Remember] + ([Announce] + []));
    PlayFirst(s, Deliver(h, job, profile), Looks(sessions) + rest);
    var s1 := s.(delivery := Fanning(h, job, profile, Places(sessions, 0)));
    PlayOn(s1, Looks(sessions), rest);
    LooksRun(s.w, h, job, profile, sessions, |sessions|, s.closes);
    assert sessions[..|sessions|] == sessions;
    AllPlacesDone(sessions);
    LastSteps(s.(delivery := Fanning(h, job, profile, Places(sessions, |sessions|))), i);
  }

  /** Delivering the missing jobs again, in the order of the outbox, sends nothing and lets the handle close. */
  lemma {:induction false} CatchUp(s: System, h: nat, profile: string) returns (more: seq<Step>)
    requires OnlyListMissing(s, h, profile) && s.w.handles[h].delivered <= Ids(s.w.jobs)
    ensures CanClose(Play(s, more).w, h, profile)
    ensures forall i :: 0 <= i < |more| ==> !more[i].Send?
    decreases |s.w.jobs| - |s.w.handles[h].delivered|
  {
    hide Play, Next, Inv;
    var n := |s.w.handles[h].delivered|;
    if n == |s.w.jobs| {
      more := [];
      PlayNone(s);
      ListIsWhole(s, h, profile);
    } else {
      var first := Redelivery(h, s.w.jobs[n].job, profile, s.w.handles[h].sessions);
      NextIsMissing(s, h, profile, n);
      RedeliveryRun(s, h, profile, n);
      var t := Play(s, first);
      PlayKeeps(s, first) by { assert Inv(s); }
      var rest := CatchUp(t, h, profile);
      more := first + rest;
      PlayOn(s, first, rest);
      LooksSendNothing(s.w.handles[h].sessions);
    }
  }

  lemma {:induction false} LooksSendNothing(sessions: seq<string>)
    ensures forall i :: 0 <= i < |Looks(sessions)| ==> Looks(sessions)[i].Look?
    decreases |sessions|
  {
    if sessions != [] { LooksSendNothing(sessions[..|sessions| - 1]); }
  }

  lemma {:induction false} ListIsWhole(s: System, h: nat, profile: string)
    requires OnlyListMissing(s, h, profile) && s.w.handles[h].delivered <= Ids(s.w.jobs)
        && |s.w.handles[h].delivered| == |s.w.jobs|
    ensures CanClose(s.w, h, profile)
  {
    assert HandleAgrees(s.w, s.w.handles[h]);
    assert s.w.handles[h].delivered == Ids(s.w.jobs);
  }

  lemma {:induction false} NextIsMissing(s: System, h: nat, profile: string, n: nat)
    requires OnlyListMissing(s, h, profile) && s.w.handles[h].delivered <= Ids(s.w.jobs)
    requires n == |s.w.handles[h].delivered| < |s.w.jobs|
    ensures s.w.jobs[n].job.id !in s.w.handles[h].delivered
    ensures s.w.handles[h].delivered + [s.w.jobs[n].job.id] <= Ids(s.w.jobs)
  {
    var list := s.w.handles[h].delivered;
    forall k | 0 <= k < n ensures list[k] != s.w.jobs[n].job.id {
      assert list[k] == Ids(s.w.jobs)[k];
      assert s.w.jobs[k].job.id != s.w.jobs[n].job.id;
    }
  }

  /** Once every prepared job is complete for its sessions, an active handle can still come to close if and only
      if its delivered jobs are a prefix of the prepared ones. */
  lemma {:induction false} CanStillCloseExactly(steps: seq<Step>, h: nat, profile: string)
    requires OnlyListMissing(After(steps), h, profile)
    ensures (exists more :: CanClose(After(steps + more).w, h, profile)) <==>
              After(steps).w.handles[h].delivered <= Ids(After(steps).w.jobs)
  {
    hide Play, Next, Inv, CanClose;
    if After(steps).w.handles[h].delivered <= Ids(After(steps).w.jobs) {
      var more := CatchUp(After(steps), h, profile);
      Reached(steps, more);
      assert CanClose(After(steps + more).w, h, profile);
    } else {
      forall more ensures !CanClose(After(steps + more).w, h, profile) {
        OutOfOrderNeverCloses(steps, more, h, profile);
      }
    }
  }

  // --- A handle gets out of order --------------------------------------------------------------------------------

  /** A delivery to the one recipient `x` of a handle: it fails, or it is acknowledged. */
  function FailSteps(h: nat, job: Job, profile: string, x: string): seq<Step> {
    [Deliver(h, job, profile)] + ([Look(x)] + ([Send(x)] + ([Answer(x, Raises)] + ([Abandon] + []))))
  }

  function DeliverSteps(h: nat, job: Job, profile: string, x: string): seq<Step> {
    [Deliver(h, job, profile)] + ([Look(x)] + ([Send(x)] + ([Answer(x, Receipt(profile))]
      + ([Complete] + ([Remember] + ([Announce] + []))))))
  }

  /** The handle has one recipient, which has not acknowledged the job. */
  predicate Pending(w: World, h: nat, job: Job, x: string) {
    && h < |w.handles| && w.handles[h].status == Active && w.handles[h].sessions == [x] && x != ""
    && CanPrepare(w, h, job) && Key(job.id, x) !in w.acked
  }

  function SentWorld(w: World, h: nat, job: Job, x: string): World
    requires h < |w.handles|
  {
    Prepared(w, h, job).(marks := w.marks + [Sent(Key(job.id, x))])
  }

  lemma {:induction false} SentRun(w: World, h: nat, job: Job, profile: string, x: string, rest: seq<Step>)
    requires Pending(w, h, job, x)
    ensures Play(Quiet(w), [Deliver(h, job, profile)] + ([Look(x)] + ([Send(x)] + rest))) ==
      Play(System(SentWorld(w, h, job, x), Fanning(h, job, profile, map[x := Sending]), multiset{}), rest)
  {
    hide Play;
    var u := Prepared(w, h, job);
    PlayFirst(Quiet(w), Deliver(h, job, profile), [Look(x)] + ([Send(x)] + rest));
    assert (map session | session in [x] :: Fresh) == map[x := Fresh];
    var s1 := System(u, Fanning(h, job, profile, map[x := Fresh]), multiset{});
    PlayFirst(s1, Look(x), [Send(x)] + rest);
    assert map[x := Fresh][x := Ready] == map[x := Ready];
    var s2 := System(u, Fanning(h, job, profile, map[x := Ready]), multiset{});
    PlayFirst(s2, Send(x), rest);
    assert map[x := Ready][x := Sending] == map[x := Sending];
  }

  lemma {:induction false} FailRun(w: World, h: nat, job: Job, profile: string, x: string)
    requires Pending(w, h, job, x)
    ensures Play(Quiet(w), FailSteps(h, job, profile, x)) == Quiet(SentWorld(w, h, job, x))
  {
    hide Play, Pending;
    SentRun(w, h, job, profile, x, [Answer(x, Raises)] + ([Abandon] + []));
    assert h < |w.handles| by { PendingInRange(w, h, job, x); }
    var u := SentWorld(w, h, job, x);
    var s1 := System(u, Fanning(h, job, profile, map[x := Sending]), multiset{});
    PlayFirst(s1, Answer(x, Raises), [Abandon] + []);
    PlayFirst(Next(s1, Answer(x, Raises)), Abandon, []);
    PlayNone(Quiet(u));
  }

  lemma {:induction false} PendingInRange(w: World, h: nat, job: Job, x: string)
    requires Pending(w, h, job, x)
    ensures h < |w.handles|
  {}

  function DeliveredWorld(w: World, h: nat, job: Job, profile: string, x: string): World
    requires h < |w.handles| && FindJob(Prepared(w, h, job).jobs, job.id) < |Prepared(w, h, job).jobs|
  {
    var u := SentWorld(w, h, job, x);
    var key := Key(job.id, x);
    var acked := u.(marks := u.marks + [Acked(key)], acked := u.acked[key := profile]);
    Relisted(WithComplete(acked, FindJob(acked.jobs, job.id)), h, job.id)
  }

  lemma {:induction false} PreparedIsFound(w: World, h: nat, job: Job)
    requires h < |w.handles|
    ensures FindJob(Prepared(w, h, job).jobs, job.id) == FindJob(w.jobs, job.id) < |Prepared(w, h, job).jobs|
  {
    var i, u := FindJob(w.jobs, job.id), Prepared(w, h, job);
    if i == |w.jobs| { assert u.jobs[i].job.id == job.id; }
  }

  lemma {:induction false} DeliverRun(w: World, h: nat, job: Job, profile: string, x: string)
    requires Pending(w, h, job, x) && job.id !in w.handles[h].delivered
    ensures FindJob(Prepared(w, h, job).jobs, job.id) < |Prepared(w, h, job).jobs|
    ensures Play(Quiet(w), DeliverSteps(h, job, profile, x)) == Quiet(DeliveredWorld(w, h, job, profile, x))
  {
    hide Play;
    PreparedIsFound(w, h, job);
    var tail := [Complete] + ([Remember] + ([Announce] + []));
    SentRun(w, h, job, profile, x, [Answer(x, Receipt(profile))] + tail);
    var (u, key) := (SentWorld(w, h, job, x), Key(job.id, x));
    var s1 := System(u, Fanning(h, job, profile, map[x := Sending]), multiset{});
    PlayFirst(s1, Answer(x, Receipt(profile)), tail);
    assert map[x := Sending][x := Done] == map[x := Done];
    var v := u.(marks := u.marks + [Acked(key)], acked := u.acked[key := profile]);
    EndOfDelivery(System(v, Fanning(h, job, profile, map[x := Done]), multiset{}), FindJob(v.jobs, job.id));
  }

  lemma {:induction false} EndOfDelivery(s: System, i: nat)
    requires s.delivery.Fanning? && AllDone(s.delivery.places) && s.delivery.h < |s.w.handles|
    requires i < |s.w.jobs| && i == FindJob(s.w.jobs, s.delivery.job.id)
    requires s.delivery.job.id !in s.w.handles[s.delivery.h].delivered
    ensures Play(s, [Complete] + ([Remember] + ([Announce] + []))) ==
      s.(w := Relisted(WithComplete(s.w, i), s.delivery.h, s.delivery.job.id), delivery := Nothing)
  {
    hide Play;
    var d := s.delivery;
    PlayFirst(s, Complete, [Remember] + ([Announce] + []));
    var s1 := s.(w := WithComplete(s.w, i), delivery := Marking(d.h, d.job));
    PlayFirst(s1, Remember, [Announce] + []);
    var s2 := Next(s1, Remember);
    PlayFirst(s2, Announce, []);
    PlayNone(Next(s2, Announce));
  }

  /** Job `a` is prepared and its delivery fails, job `b` is delivered, and `a` is delivered again: every call
      ends as the program ends it, and every job is complete. */
  function RetriedRun(a: Job, b: Job, profile: string, x: string): seq<Step> {
    [Start([x])] + (FailSteps(0, a, profile, x) + (DeliverSteps(0, b, profile, x) + DeliverSteps(0, a, profile, x)))
  }

  function StartedWorld(x: string): World { WithHandle(EMPTY, Handle([x], [], Active)) }

  /** The world in which one job's delivery has failed. */
  function FailedWorld(a: Job, x: string): World {
    World([JobRow(a, [x], false)], map[], [Sent(Key(a.id, x))], [], [Handle([x], [], Active)])
  }

  /** The world in which the other job has been delivered after it. */
  function OvertakenWorld(a: Job, b: Job, profile: string, x: string): World {
    World([JobRow(a, [x], false), JobRow(b, [x], true)], map[Key(b.id, x) := profile],
          [Sent(Key(a.id, x)), Sent(Key(b.id, x)), Acked(Key(b.id, x))], [Entry(0, JobDelivered)],
          [Handle([x], [b.id], Active)])
  }

  function RetriedWorld(a: Job, b: Job, profile: string, x: string): World {
    World([JobRow(a, [x], true), JobRow(b, [x], true)], map[Key(b.id, x) := profile, Key(a.id, x) := profile],
          [Sent(Key(a.id, x)), Sent(Key(b.id, x)), Acked(Key(b.id, x)), Sent(Key(a.id, x)), Acked(Key(a.id, x))],
          [Entry(0, JobDelivered), Entry(0, JobDelivered)], [Handle([x], [b.id, a.id], Active)])
  }

  lemma {:induction false} FirstFails(a: Job, profile: string, x: string)
    requires x != ""
    ensures Play(Quiet(StartedWorld(x)), FailSteps(0, a, profile, x)) == Quiet(FailedWorld(a, x))
  {
    hide Play;
    FailRun(StartedWorld(x), 0, a, profile, x);
  }

  lemma {:induction false} SecondOvertakes(a: Job, b: Job, profile: string, x: string)
    requires a.id != b.id && x != ""
    ensures Play(Quiet(FailedWorld(a, x)), DeliverSteps(0, b, profile, x)) == Quiet(OvertakenWorld(a, b, profile, x))
  {
    hide Play;
    var w := FailedWorld(a, x);
    assert FindJob(w.jobs, b.id) == 1;
    DeliverRun(w, 0, b, profile, x);
    PreparedIsFound(w, 0, b);
    var v := DeliveredWorld(w, 0, b, profile, x);
    assert v.jobs == OvertakenWorld(a, b, profile, x).jobs && v.marks == OvertakenWorld(a, b, profile, x).marks;
    assert [] + [b.id] == [b.id] && v.handles[0] == OvertakenWorld(a, b, profile, x).handles[0];
    assert v.handles == OvertakenWorld(a, b, profile, x).handles && v.log == OvertakenWorld(a, b, profile, x).log;
  }

  lemma {:induction false} FirstIsRetried(a: Job, b: Job, profile: string, x: string)
    requires a.id != b.id && x != ""
    ensures Play(Quiet(OvertakenWorld(a, b, profile, x)), DeliverSteps(0, a, profile, x)) ==
        Quiet(RetriedWorld(a, b, profile, x))
  {
    hide Play;
    var w := OvertakenWorld(a, b, profile, x);
    assert FindJob(w.jobs, a.id) == 0;
    DeliverRun(w, 0, a, profile, x);
    PreparedIsFound(w, 0, a);
    var v := DeliveredWorld(w, 0, a, profile, x);
    assert v.jobs == RetriedWorld(a, b, profile, x).jobs && v.marks == RetriedWorld(a, b, profile, x).marks;
    assert [b.id] + [a.id] == [b.id, a.id] && v.handles[0] == RetriedWorld(a, b, profile, x).handles[0];
    assert v.handles == RetriedWorld(a, b, profile, x).handles && v.log == RetriedWorld(a, b, profile, x).log;
  }

  /** A retry is enough to lose the order: every delivery has returned, every job is complete and acknowledged,
      and the handle can never close, while a handle resumed from its snapshot can at once. */
  lemma {:induction false} RetriedHandleNeverCloses(a: Job, b: Job, profile: string, x: string, more: seq<Step>)
    requires a.id != b.id && x != ""
    ensures
      var run := RetriedRun(a, b, profile, x);
      var w := After(run).w;
      && |w.handles| == 1 && OnlyListMissing(After(run), 0, profile)
      && !CanClose(After(run + more).w, 0, profile)
      && CanClose(After(run + [Resume(w.handles[0])]).w, 1, profile)
  {
    hide Play, Inv;
    var run := RetriedRun(a, b, profile, x);
    PlayFirst(Quiet(EMPTY), Start([x]),
        FailSteps(0, a, profile, x) + (DeliverSteps(0, b, profile, x) + DeliverSteps(0, a, profile, x)));
    FirstFails(a, profile, x);
    PlayOn(Quiet(StartedWorld(x)), FailSteps(0, a, profile, x),
        DeliverSteps(0, b, profile, x) + DeliverSteps(0, a, profile, x));
    SecondOvertakes(a, b, profile, x);
    PlayOn(Quiet(FailedWorld(a, x)), DeliverSteps(0, b, profile, x), DeliverSteps(0, a, profile, x));
    FirstIsRetried(a, b, profile, x);
    assert After(run) == Quiet(RetriedWorld(a, b, profile, x));
    Reached(run, []);
    var w := RetriedWorld(a, b, profile, x);
    assert Ids(w.jobs)[0] == a.id && w.handles[0].delivered[0] == b.id;
    OutOfOrderNeverCloses(run, more, 0, profile);
    PlayOne(Quiet(EMPTY), run, Resume(w.handles[0]));
    RetriedResumes(a, b, profile, x);
  }

  lemma {:induction false} RetriedResumes(a: Job, b: Job, profile: string, x: string)
    requires a.id != b.id && x != ""
    ensures
      var w := RetriedWorld(a, b, profile, x);
      CanResume(w, w.handles[0]) && CanClose(Reopened(w, w.handles[0]), 1, profile)
  {
    var w := RetriedWorld(a, b, profile, x);
    assert CompleteAt(w.jobs, a.id, 0) && CompleteAt(w.jobs, b.id, 1);
    CompletedIdsAre(w.jobs);
    assert Ids(w.jobs) == [a.id, b.id];
  }
}
