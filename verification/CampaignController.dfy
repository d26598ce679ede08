/** The controller object. Each call, wherever it raises or dies, leaves the campaign where a chain of
    controller steps leaves it. */
module CampaignController {
  import opened CampaignReopening
  import opened CampaignRuns
  import opened CampaignSteps
  import opened Sequences

  ghost predicate Reaches(s: System, t: System) { exists steps :: Play(s, steps) == t }

  lemma ReachesItself(s: System)
    ensures Reaches(s, s)
  {
    PlayNone(s);
  }

  /** One more step of a chain. */
  lemma Advance(s: System, t: System, step: Step, u: System)
    requires Inv(s) && Reaches(s, t) && Next(t, step) == u
    ensures Reaches(s, u) && Inv(u) && Grows(s.w, u.w)
  {
    hide Inv, Grows, Next, Play;
    var steps :| Play(s, steps) == t;
    PlayOne(s, steps, step);
    PlayKeeps(s, steps + [step]);
  }

  lemma Join(s: System, t: System, u: System)
    requires Inv(s) && Reaches(s, t) && Reaches(t, u)
    ensures Reaches(s, u) && Inv(u) && Grows(s.w, u.w)
  {
    hide Inv, Grows, Next, Play;
    var a :| Play(s, a) == t;
    var b :| Play(t, b) == u;
    PlayOn(s, a, b);
    PlayKeeps(s, a + b);
  }

  datatype Ending = Returned | Raised | Crashed

  class Controller {
    var w: World

    constructor ()
      ensures w == EMPTY && Inv(Quiet(w))
    {
      w := EMPTY;
      new;
      BeginIsValid();
    }

    /** `start`: a new handle for the sessions that the harness created. */
    method StartCampaign(sessions: seq<string>) returns (ok: bool, h: nat)
      requires Inv(Quiet(w))
      modifies this
      ensures Inv(Quiet(w)) && Reaches(Quiet(old(w)), Quiet(w))
      ensures ok <==> Usable(sessions)
      ensures w == if ok then WithHandle(old(w), Handle(sessions, [], Active)) else old(w)
      ensures ok ==> h == |old(w).handles|
    {
      hide Inv, Grows;
      h := |w.handles|;
      ok := sessions != [] && "" !in sessions && NoRepeats(sessions);
      ReachesItself(Quiet(w));
      ghost var t := Next(Quiet(w), Start(sessions));
      Advance(Quiet(w), Quiet(w), Start(sessions), t);
      if ok { w := w.(handles := w.handles + [Handle(sessions, [], Active)]); }
    }

    /** `resume`: accepted for an active snapshot whose jobs the outbox holds as complete, unless the harness
        refuses; the new handle takes its delivered jobs from the outbox. */
    method ResumeCampaign(snapshot: Handle, harness: bool) returns (ok: bool, h: nat)
      requires Inv(Quiet(w))
      modifies this
      ensures Inv(Quiet(w)) && Reaches(Quiet(old(w)), Quiet(w))
      ensures ok <==> CanResume(old(w), snapshot) && harness
      ensures w == if ok then WithHandle(old(w), Handle(snapshot.sessions, CompletedIds(old(w).jobs), Active))
          else old(w)
      ensures ok ==> h == |old(w).handles|
    {
      hide Inv, Grows;
      h := |w.handles|;
      ReachesItself(Quiet(w));
      if !harness { return false, h; }
      ok := snapshot.status == Active && forall i :: 0 <= i < |snapshot.delivered| ==>
          Completed(w.jobs, snapshot.delivered[i]);
      ghost var t := Next(Quiet(w), Resume(snapshot));
      Advance(Quiet(w), Quiet(w), Resume(snapshot), t);
      if ok { w := w.(handles := w.handles + [Handle(snapshot.sessions, CompletedIds(w.jobs), Active)]); }
    }

    /** `deliver_one`, for one recipient of the delivery `d`. */
    method DeliverOne(job: Job, session: string, profile: string, answer: Answer, ghost d: Delivery)
      returns (ending: Ending, ghost place: Place)
      requires Inv(System(w, d, multiset{})) && d.Fanning? && d.job == job && d.profile == profile
      requires session in d.places && d.places[session] == Fresh
      modifies this
      ensures
        var after := System(w, d.(places := d.places[session := place]), multiset{});
        Inv(after) && Reaches(System(old(w), d, multiset{}), after)
      ensures w.handles == old(w).handles && w.log == old(w).log && w.jobs == old(w).jobs
      ensures ending == Returned ==>
        place == Done && Key(job.id, session) in w.acked && w.acked[Key(job.id, session)] == profile
      ensures ending == Raised ==> place == Failed
      ensures Key(job.id, session) in old(w).acked ==> w == old(w)
    {
      hide Inv, Grows, Reaches;
      var key := Key(job.id, session);
      ghost var s0 := System(w, d, multiset{});
      ReachesItself(s0);
      ghost var s1 := Next(s0, Look(session));
      Advance(s0, s0, Look(session), s1);
      if key in w.acked {
        place := s1.delivery.places[session];
        return if w.acked[key] == profile then Returned else Raised, place;
      }
      if * { return Crashed, Ready; }
      w := w.(marks := w.marks + [Sent(key)]);
      ghost var s2 := Next(s1, Send(session));
      Advance(s0, s1, Send(session), s2);
      assert s2.delivery.places == d.places[session := Sending];
      if * { return Crashed, Sending; }
      ghost var s3 := Next(s2, Answer(session, answer));
      Advance(s0, s2, Answer(session, answer), s3);
      if answer.Raises? || answer.profile != profile {
        assert s3.delivery.places == d.places[session := Failed];
        return Raised, Failed;
      }
      w := w.(marks := w.marks + [Acked(key)], acked := w.acked[key := profile]);
      assert s3.delivery.places == d.places[session := Done];
      return Returned, Done;
    }

    /** The fan-out: every recipient is attempted, one after another here, in parallel in the steps. */
    method DeliverAll(h: nat, job: Job, profile: string, ghost d: Delivery)
      returns (ending: Ending, ghost after: Delivery)
      requires Inv(System(w, d, multiset{})) && h < |w.handles|
      requires d == Fanning(h, job, profile, map session | session in w.handles[h].sessions :: Fresh)
      requires NoRepeats(w.handles[h].sessions)
      modifies this
      ensures Inv(System(w, after, multiset{})) && Reaches(System(old(w), d, multiset{}), System(w, after, multiset{}))
      ensures w.handles == old(w).handles && w.log == old(w).log && w.jobs == old(w).jobs
      ensures after.Fanning? && after.h == h && after.job == job
      ensures ending == Returned ==> AllDone(after.places)
    {
      hide Inv, Grows, Reaches;
      var failed := false;
      var sessions := w.handles[h].sessions;
      after := d;
      ReachesItself(System(w, d, multiset{}));
      for k := 0 to |sessions|
        invariant Inv(System(w, after, multiset{})) && Reaches(System(old(w), d, multiset{}),
            System(w, after, multiset{}))
        invariant w.handles == old(w).handles && w.log == old(w).log && w.jobs == old(w).jobs
        invariant after.Fanning? && after.h == h && after.job == job && after.profile == profile
        invariant forall x :: x in after.places <==> x in sessions
        invariant forall i :: k <= i < |sessions| ==> after.places[sessions[i]] == Fresh
        invariant !failed ==> forall i :: 0 <= i < k ==> after.places[sessions[i]] == Done
      {
        ghost var before := System(w, after, multiset{});
        var answer: Answer := *;
        ghost var place;
        ending, place := DeliverOne(job, sessions[k], profile, answer, after);
        after := after.(places := after.places[sessions[k] := place]);
        Join(System(old(w), d, multiset{}), before, System(w, after, multiset{}));
        if ending == Crashed { return; }
        if ending == Raised { failed := true; }
      }
      return if failed then Raised else Returned, after;
    }

    /** `_deliver`, under the delivery lock. */
    method DeliverJob(h: nat, job: Job, profile: string) returns (ending: Ending)
      requires Inv(Quiet(w)) && h < |w.handles|
      modifies this
      ensures Inv(Quiet(w)) && Reaches(Quiet(old(w)), Quiet(w)) && Grows(old(w), w)
      ensures |w.handles| == |old(w).handles| && forall k :: 0 <= k < |w.handles| && k != h ==>
          w.handles[k] == old(w).handles[k]
      ensures ending == Returned ==>
        && Held(w, job.id, w.handles[h].sessions)
        && w.handles[h] == Listed(old(w).handles[h], job.id)
      ensures old(w).handles[h].status != Active || !CanPrepare(old(w), h, job) ==> w == old(w) && ending == Raised
    {
      hide Inv, Grows, Reaches;
      ghost var first := Quiet(w);
      ReachesItself(first);
      GrowsItself(w);
      if w.handles[h].status != Active || !CanPrepare(w, h, job) { return Raised; }
      ghost var d := Fanning(h, job, profile, map session | session in w.handles[h].sessions :: Fresh);
      ghost var prepared := Next(first, Deliver(h, job, profile));
      Advance(first, first, Deliver(h, job, profile), prepared);
      if FindJob(w.jobs, job.id) == |w.jobs| { w := w.(jobs := w.jobs + [JobRow(job, w.handles[h].sessions, false)]); }
      ghost var done;
      ending, done := DeliverAll(h, job, profile, d);
      Join(first, prepared, System(w, done, multiset{}));
      ghost var fanned := System(w, done, multiset{});
      RowIsThere(fanned);
      if ending == Returned {
        var dies: bool := *;
        if !dies {
          ending := FinishDelivery(h, job, first, fanned);
          return;
        }
        ending := Crashed;
      }
      Advance(first, fanned, Abandon, Quiet(w));
    }

    /** The end of a delivery that every recipient has acknowledged. */
    method FinishDelivery(h: nat, job: Job, ghost first: System, ghost fanned: System) returns (ending: Ending)
      requires Inv(first) && Reaches(first, fanned) && Inv(fanned) && fanned.w == w && fanned.closes == multiset{}
      requires fanned.delivery.Fanning? && fanned.delivery.h == h && fanned.delivery.job == job
          && AllDone(fanned.delivery.places)
      requires h < |w.handles| && FindJob(w.jobs, job.id) < |w.jobs|
      modifies this
      ensures Inv(Quiet(w)) && Reaches(first, Quiet(w)) && Grows(first.w, w)
      ensures |w.handles| == |old(w).handles| && forall k :: 0 <= k < |w.handles| && k != h ==>
          w.handles[k] == old(w).handles[k]
      ensures ending == Returned ==>
        && Held(w, job.id, w.handles[h].sessions)
        && w.handles[h] == Listed(old(w).handles[h], job.id)
      ensures ending != Raised
    {
      hide Inv, Grows, Reaches;
      ghost var s1 := Next(fanned, Complete);
      Advance(first, fanned, Complete, s1);
      var i := FindJob(w.jobs, job.id);
      w := w.(jobs := w.jobs[i := w.jobs[i].(complete := true)]);
      if * {
        Advance(first, s1, Abandon, Quiet(w));
        return Crashed;
      }
      ending := AnnounceDelivery(h, job, first, s1);
    }

    /** The handle remembers the job, and the log says so. */
    method AnnounceDelivery(h: nat, job: Job, ghost first: System, ghost marked: System) returns (ending: Ending)
      requires Inv(first) && Reaches(first, marked) && Inv(marked) && marked == System(w, Marking(h, job), multiset{})
      requires h < |w.handles|
      modifies this
      ensures Inv(Quiet(w)) && Reaches(first, Quiet(w)) && Grows(first.w, w)
      ensures |w.handles| == |old(w).handles| && forall k :: 0 <= k < |w.handles| && k != h ==>
          w.handles[k] == old(w).handles[k]
      ensures ending == Returned ==>
        && Held(w, job.id, w.handles[h].sessions)
        && w.handles[h] == Listed(old(w).handles[h], job.id)
      ensures ending != Raised
    {
      hide Inv, Grows, Reaches;
      ghost var s2 := Next(marked, Remember);
      Advance(first, marked, Remember, s2);
      if job.id !in w.handles[h].delivered {
        w := w.(handles := w.handles[h := w.handles[h].(delivered := w.handles[h].delivered + [job.id])]);
      }
      AnnouncingIsHeld(s2);
      if * {
        Advance(first, s2, Abandon, Quiet(w));
        return Crashed;
      }
      Advance(first, s2, Announce, Next(s2, Announce));
      w := w.(log := w.log + [Entry(h, JobDelivered)]);
      return Returned;
    }

    /** `close`: the outbox first, then the runtime is stopped, then the budget, then compute. `budget` and
        `compute` are the answers of the two gates. */
    method CloseCampaign(h: nat, profile: string, budget: bool, compute: bool) returns (ending: Ending)
      requires Inv(Quiet(w))
      modifies this
      ensures Inv(Quiet(w)) && Reaches(Quiet(old(w)), Quiet(w)) && Grows(old(w), w)
      ensures ending == Returned ==> CanClose(old(w), h, profile) && budget && compute && w == ClosedWorld(old(w), h)
      ensures ending == Raised ==>
        if !CanClose(old(w), h, profile) then w == old(w)
        else
          && !(budget && compute) && w.handles[h].status == Spoilt
          && |w.log| > 0 && w.log[|w.log| - 1] == Entry(h, Invalid)
    {
      hide Inv, Grows, Reaches, CanClose;
      ghost var first := Quiet(w);
      ReachesItself(first);
      GrowsItself(w);
      if !CanClose(w, h, profile) { return Raised; }
      ending := CloseReconciled(h, profile, budget, compute);
    }

    /** The rest of `close`, once the outbox is found to agree with the handle. */
    method CloseReconciled(h: nat, profile: string, budget: bool, compute: bool) returns (ending: Ending)
      requires Inv(Quiet(w)) && CanClose(w, h, profile)
      modifies this
      ensures Inv(Quiet(w)) && Reaches(Quiet(old(w)), Quiet(w)) && Grows(old(w), w)
      ensures ending == Returned ==> budget && compute && w == ClosedWorld(old(w), h)
      ensures ending == Raised ==>
        && !(budget && compute) && h < |w.handles| && w.handles[h].status == Spoilt
        && |w.log| > 0 && w.log[|w.log| - 1] == Entry(h, Invalid)
    {
      hide Inv, Grows, Reaches, CanClose;
      ghost var first := Quiet(w);
      ReachesItself(first);
      InRange(w, h, profile);
      var (c1, c2, c3) := (CloseCall(h, Stopped), CloseCall(h, BudgetPassed), CloseCall(h, ComputePassed));
      SoleCall(c1, c2);
      SoleCall(c2, c3);
      SoleCall(c3, c3);
      Advance(first, first, Close(h, profile), OneCall(Logged(w, h, DeliveryReconciled), c1));
      w := w.(log := w.log + [Entry(h, DeliveryReconciled)]);
      if * {
        Advance(first, OneCall(w, c1), Drop(c1), Quiet(w));
        return Crashed;
      }
      SpoiltAt(w, h);
      ending := PassNext(first, c1, budget, BudgetReconciled, BudgetPassed);
      if ending != Returned { return; }
      SpoiltAt(w, h);
      ending := PassNext(first, c2, compute, ComputeReconciled, ComputePassed);
      if ending != Returned { return; }
      ClosedByGates(old(w), h);
      Advance(first, OneCall(w, c3), Ask(c3, true), Quiet(Ended(w, h, Closed, Over)));
      w := w.(handles := w.handles[h := w.handles[h].(status := Over)], log := w.log + [Entry(h, Closed)]);
      return Returned;
    }

    /** One gate of a call of `close`: it lets the call on, or spoils the campaign, or the call dies at it. */
    method PassNext(ghost first: System, c: CloseCall, passes: bool, kind: Kind, stage: Stage) returns (ending: Ending)
      requires Inv(first) && Reaches(first, OneCall(w, c)) && c.h < |w.handles|
      requires (c.stage, kind, stage) == (Stopped, BudgetReconciled, BudgetPassed)
            || (c.stage, kind, stage) == (BudgetPassed, ComputeReconciled, ComputePassed)
      modifies this
      ensures ending == Returned ==>
        passes && w == Logged(old(w), c.h, kind) && Reaches(first, OneCall(w, CloseCall(c.h, stage)))
      ensures ending == Raised ==> !passes && w == Ended(old(w), c.h, Invalid, Spoilt)
      ensures ending != Returned ==> Inv(Quiet(w)) && Reaches(first, Quiet(w)) && Grows(first.w, w)
      ensures ending == Returned ==> |w.handles| == |old(w).handles|
    {
      hide Inv, Grows, Reaches;
      SoleCall(c, CloseCall(c.h, stage));
      if !passes {
        Advance(first, OneCall(w, c), Ask(c, false), Quiet(Ended(w, c.h, Invalid, Spoilt)));
        w := w.(handles := w.handles[c.h := w.handles[c.h].(status := Spoilt)], log := w.log + [Entry(c.h, Invalid)]);
        return Raised;
      }
      Advance(first, OneCall(w, c), Ask(c, true), OneCall(Logged(w, c.h, kind), CloseCall(c.h, stage)));
      w := w.(log := w.log + [Entry(c.h, kind)]);
      if * {
        SoleCall(CloseCall(c.h, stage), c);
        Advance(first, OneCall(w, CloseCall(c.h, stage)), Drop(CloseCall(c.h, stage)), Quiet(w));
        return Crashed;
      }
      return Returned;
    }
  }

  lemma RowIsThere(s: System)
    requires Inv(s) && s.delivery.Fanning?
    ensures FindJob(s.w.jobs, s.delivery.job.id) < |s.w.jobs| && s.delivery.h < |s.w.handles|
  {}

  lemma AnnouncingIsHeld(s: System)
    requires Inv(s) && s.delivery.Announcing?
    ensures s.delivery.h < |s.w.handles| && Held(s.w, s.delivery.job.id, s.w.handles[s.delivery.h].sessions)
  {}
}
