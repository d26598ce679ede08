/** What the controller accepts and refuses, over the outbox and the handle themselves. */
module CampaignAnswers {
  import opened CampaignReopening
  import opened CampaignRuns
  import opened CampaignSteps
  import opened CampaignTheorems
  import opened Sequences

  /** Sessions that a campaign can have: some, all named, no two alike. */
  lemma {:induction false} UsableExactly(sessions: seq<string>)
    ensures Usable(sessions) <==>
      && |sessions| > 0 && (forall i :: 0 <= i < |sessions| ==> sessions[i] != "")
      && (forall i, j :: 0 <= i < j < |sessions| ==> sessions[i] != sessions[j])
  {}

  /** A handle passes the checks of `close` if and only if it is active, its delivered jobs are those of the outbox, one
      by one in the same order, all complete and prepared for its own sessions, and every receipt on file is under the
      runtime profile in use. */
  lemma {:induction false} ClosesExactly(w: World, h: nat, profile: string)
    requires DistinctJobs(w.jobs) && h < |w.handles|
    ensures CanClose(w, h, profile) <==>
      var handle := w.handles[h];
      && handle.status == Active && Usable(handle.sessions)
      && |handle.delivered| == |w.jobs|
      && (forall i :: 0 <= i < |w.jobs| ==>
            handle.delivered[i] == w.jobs[i].job.id && w.jobs[i].complete && w.jobs[i].sessions == handle.sessions)
      && (forall key :: key in w.acked ==> w.acked[key] == profile)
  {
    hide Usable;
    var handle := w.handles[h];
    if |handle.delivered| == |w.jobs| && forall i :: 0 <= i < |w.jobs| ==> handle.delivered[i] == w.jobs[i].job.id {
      assert Ids(w.jobs) == handle.delivered;
      forall i, j | 0 <= i < j < |handle.delivered| ensures handle.delivered[i] != handle.delivered[j] {
        assert w.jobs[i].job.id != w.jobs[j].job.id;
      }
    }
  }

  /** The same at every moment of every run, and when it passes the log gains the three gates and the closing entry, the
      handle ends, and nothing else changes. */
  lemma {:induction false} ClosedLeaves(steps: seq<Step>, h: nat, profile: string)
    requires After(steps) == Quiet(After(steps).w) && CanClose(After(steps).w, h, profile)
    ensures
      var (w, u) := (After(steps).w, After(steps + CloseSteps(h, profile)).w);
      && |u.handles| == |w.handles| && u.handles[h].status == Over
      && u.handles[h].delivered == w.handles[h].delivered && u.jobs == w.jobs && u.acked == w.acked
          && u.marks == w.marks
      && (forall k :: 0 <= k < |w.handles| && k != h ==> u.handles[k] == w.handles[k])
      && u.log == w.log + [Entry(h, DeliveryReconciled), Entry(h, BudgetReconciled), Entry(h, ComputeReconciled),
          Entry(h, Closed)]
  {
    var w := After(steps).w;
    InRange(w, h, profile);
    CloseRun(w, h, profile);
    Reached(steps, CloseSteps(h, profile));
    hide CanClose, Play, CloseSteps;
    assert w.log + GatesPassed(h) + [Entry(h, Closed)]
        == w.log + [Entry(h, DeliveryReconciled), Entry(h, BudgetReconciled), Entry(h, ComputeReconciled),
            Entry(h, Closed)];
  }

  /** The position of a job that is in the outbox, and what preparing it does. */
  lemma {:induction false} PreparesExactly(w: World, h: nat, job: Job)
    requires DistinctJobs(w.jobs) && h < |w.handles|
    ensures CanPrepare(w, h, job) <==>
      && Usable(w.handles[h].sessions)
      && (forall i :: 0 <= i < |w.jobs| && w.jobs[i].job.id == job.id ==>
            w.jobs[i].job.digest == job.digest && w.jobs[i].sessions == w.handles[h].sessions)
    ensures (exists i :: 0 <= i < |w.jobs| && w.jobs[i].job.id == job.id) ==> Prepared(w, h, job) == w
    ensures (forall i :: 0 <= i < |w.jobs| ==> w.jobs[i].job.id != job.id) ==>
      Prepared(w, h, job) == w.(jobs := w.jobs + [JobRow(job, w.handles[h].sessions, false)])
  {
    hide Usable;
  }

  predicate CompleteInOutbox(w: World, id: string) {
    exists i :: 0 <= i < |w.jobs| && w.jobs[i].job.id == id && w.jobs[i].complete
  }

  /** A snapshot can be resumed if and only if it is active and every job on its list is complete in the outbox; the
      resumed handle has the snapshot's sessions and lists exactly the complete jobs, each once, in
      the outbox's order. */
  lemma {:induction false} ResumesExactly(steps: seq<Step>, snapshot: Handle)
    ensures
      var (w, u) := (After(steps).w, After(steps + [Resume(snapshot)]).w);
      var can := snapshot.status == Active
        && forall i :: 0 <= i < |snapshot.delivered| ==> CompleteInOutbox(w, snapshot.delivered[i]);
      && |u.handles| == |w.handles| + (if can then 1 else 0)
      && (can ==>
            var resumed := u.handles[|w.handles|];
            && resumed.sessions == snapshot.sessions && resumed.status == Active
            && (forall id :: id in resumed.delivered <==> CompleteInOutbox(w, id))
            && InOutboxOrder(w.jobs, resumed.delivered))
  {
    Reached(steps, [Resume(snapshot)]);
    PlayOne(Quiet(EMPTY), steps, Resume(snapshot));
    hide Play, Inv, CompleteInOutbox, InOutboxOrder, CompletedIds;
    InvIsValid(After(steps));
    ResumedWorld(After(steps), snapshot);
  }

  lemma {:induction false} CompleteAgrees(w: World, id: string)
    ensures Completed(w.jobs, id) <==> CompleteInOutbox(w, id)
  {
    if Completed(w.jobs, id) {
      var i :| 0 <= i < |w.jobs| && CompleteAt(w.jobs, id, i);
    }
    if CompleteInOutbox(w, id) {
      var i :| 0 <= i < |w.jobs| && w.jobs[i].job.id == id && w.jobs[i].complete;
      assert CompleteAt(w.jobs, id, i);
    }
  }

  lemma {:induction false} ResumedWorld(s: System, snapshot: Handle)
    requires Valid(s.w)
    ensures
      var (w, u) := (s.w, Next(s, Resume(snapshot)).w);
      var can := snapshot.status == Active
        && forall i :: 0 <= i < |snapshot.delivered| ==> CompleteInOutbox(w, snapshot.delivered[i]);
      && |u.handles| == |w.handles| + (if can then 1 else 0)
      && (can ==>
            var resumed := u.handles[|w.handles|];
            && resumed.sessions == snapshot.sessions && resumed.status == Active
            && (forall id :: id in resumed.delivered <==> CompleteInOutbox(w, id))
            && InOutboxOrder(w.jobs, resumed.delivered))
  {
    CompletedIdsAre(s.w.jobs);
    CompletedInOrder(s.w.jobs);
    hide CompletedIds, InOutboxOrder, Completed, CompleteInOutbox;
    forall id ensures Completed(s.w.jobs, id) <==> CompleteInOutbox(s.w, id) { CompleteAgrees(s.w, id); }
  }

  predicate InOutboxOrder(jobs: seq<JobRow>, ids: seq<string>) {
    forall i, j :: 0 <= i < j < |ids| ==> FindJob(jobs, ids[i]) < FindJob(jobs, ids[j]) < |jobs|
  }

  lemma {:induction false} FindMore(jobs: seq<JobRow>, row: JobRow, id: string)
    ensures FindJob(jobs, id) < |jobs| ==> FindJob(jobs + [row], id) == FindJob(jobs, id)
    ensures FindJob(jobs, id) == |jobs| && row.job.id == id ==> FindJob(jobs + [row], id) == |jobs|
  {
    var more := jobs + [row];
    assert forall k :: 0 <= k < |jobs| ==> more[k] == jobs[k];
    assert more[|jobs|] == row;
  }

  lemma {:induction false} CompletedInOrder(jobs: seq<JobRow>)
    requires DistinctJobs(jobs)
    ensures InOutboxOrder(jobs, CompletedIds(jobs))
    ensures forall i :: 0 <= i < |CompletedIds(jobs)| ==> FindJob(jobs, CompletedIds(jobs)[i]) < |jobs|
    decreases |jobs|
  {
    if jobs != [] {
      var init, last := jobs[..|jobs| - 1], jobs[|jobs| - 1];
      CompletedInOrder(init);
      assert jobs == init + [last];
      var ids := CompletedIds(init);
      forall i | 0 <= i < |ids| ensures FindJob(jobs, ids[i]) == FindJob(init, ids[i]) < |init| {
        FindMore(init, last, ids[i]);
      }
      forall k | 0 <= k < |init| ensures init[k].job.id != last.job.id {
        assert jobs[k] == init[k] && jobs[|init|] == last;
      }
      FindMore(init, last, last.job.id);
    }
  }
}
