/** The campaign controller as interleaved steps over its durable outbox and event log: one function for each
    durable write or lock region. */
module CampaignSteps {
  import opened Sequences

  datatype Job = Job(id: string, digest: string)

  /** A row of the outbox, in the order in which jobs were prepared, with the recipients it was prepared for. */
  datatype JobRow = JobRow(job: Job, sessions: seq<string>, complete: bool)

  /** One recipient of one job. */
  datatype Key = Key(job: string, session: string)

  /** What happens at the runtime boundary: a job is sent to a session, or its delivery acknowledged. */
  datatype Mark = Sent(key: Key) | Acked(key: Key)

  datatype Kind = JobDelivered | DeliveryReconciled | BudgetReconciled | ComputeReconciled | Closed | Invalid

  /** An event in the campaign's log, with the handle that wrote it. */
  datatype Entry = Entry(handle: nat, kind: Kind)

  datatype Status = Active | Over | Spoilt

  /** A campaign handle; a snapshot of it has the same fields. */
  datatype Handle = Handle(sessions: seq<string>, delivered: seq<string>, status: Status)

  /** `acked` holds the runtime profile of each acknowledged receipt. */
  datatype World = World(
    jobs: seq<JobRow>, acked: map<Key, string>, marks: seq<Mark>, log: seq<Entry>, handles: seq<Handle>)

  const EMPTY := World([], map[], [], [], [])

  /** How a recipient's runtime answers: a receipt under some runtime profile, or an exception. */
  datatype Answer = Receipt(profile: string) | Raises

  /** Where the delivery to one recipient is: not looked at, found pending, sent, acknowledged, or failed. */
  datatype Place = Fresh | Ready | Sending | Done | Failed

  /** The delivery that holds the delivery lock: fanning out to its recipients in parallel, with the outbox row
      complete, or with the job on the handle's list. */
  datatype Delivery =
    | Nothing
    | Fanning(h: nat, job: Job, profile: string, places: map<string, Place>)
    | Marking(h: nat, job: Job)
    | Announcing(h: nat, job: Job)

  /** A call of `close` past its checks, by the gate that it has passed. Calls of `close` hold no lock. */
  datatype Stage = Stopped | BudgetPassed | ComputePassed
  datatype CloseCall = CloseCall(h: nat, stage: Stage)

  datatype System = System(w: World, delivery: Delivery, closes: multiset<CloseCall>)

  function Quiet(w: World): System { System(w, Nothing, multiset{}) }

  // --- The outbox -----------------------------------------------------------------------------------------

  function FindJob(jobs: seq<JobRow>, id: string): (i: nat)
    ensures i <= |jobs|
    ensures i < |jobs| ==> jobs[i].job.id == id
    ensures forall k :: 0 <= k < i ==> jobs[k].job.id != id
  {
    if jobs == [] then 0 else if jobs[0].job.id == id then 0 else 1 + FindJob(jobs[1..], id)
  }

  predicate CompleteAt(jobs: seq<JobRow>, id: string, i: int) {
    0 <= i < |jobs| && jobs[i].job.id == id && jobs[i].complete
  }

  predicate Completed(jobs: seq<JobRow>, id: string) { exists i | 0 <= i < |jobs| :: CompleteAt(jobs, id, i) }

  function CompletedIds(jobs: seq<JobRow>): seq<string> {
    if jobs == [] then []
    else
      var last := jobs[|jobs| - 1];
      CompletedIds(jobs[..|jobs| - 1]) + if last.complete then [last.job.id] else []
  }

  function Ids(jobs: seq<JobRow>): seq<string> { seq(|jobs|, i requires 0 <= i < |jobs| => jobs[i].job.id) }

  predicate Usable(sessions: seq<string>) { sessions != [] && "" !in sessions && NoRepeats(sessions) }

  /** `prepare` accepts a new job, or a known one that differs in nothing. */
  predicate CanPrepare(w: World, h: nat, job: Job)
    requires h < |w.handles|
  {
    var (i, sessions) := (FindJob(w.jobs, job.id), w.handles[h].sessions);
    Usable(sessions) && (i < |w.jobs| ==> w.jobs[i].job == job && w.jobs[i].sessions == sessions)
  }

  function Prepared(w: World, h: nat, job: Job): World
    requires h < |w.handles|
  {
    if FindJob(w.jobs, job.id) < |w.jobs| then w else w.(jobs := w.jobs + [JobRow(job, w.handles[h].sessions, false)])
  }

  predicate AllComplete(jobs: seq<JobRow>, sessions: seq<string>) {
    forall i :: 0 <= i < |jobs| ==> jobs[i].complete && jobs[i].sessions == sessions
  }

  /** The outbox at close: its jobs, in order, are the handle's delivered ones, all complete and for the
      handle's sessions. */
  predicate Reconciles(w: World, handle: Handle) {
    && Usable(handle.sessions) && NoRepeats(handle.delivered)
    && Ids(w.jobs) == handle.delivered && AllComplete(w.jobs, handle.sessions)
  }

  predicate ProfileAgrees(w: World, profile: string) { forall key :: key in w.acked ==> w.acked[key] == profile }

  predicate CanClose(w: World, h: nat, profile: string) {
    h < |w.handles| && w.handles[h].status == Active && Reconciles(w, w.handles[h]) && ProfileAgrees(w, profile)
  }

  // --- Steps ------------------------------------------------------------------------------------------------

  function WithHandle(w: World, handle: Handle): World { w.(handles := w.handles + [handle]) }

  function StartHandle(s: System, sessions: seq<string>): System {
    if Usable(sessions) then s.(w := WithHandle(s.w, Handle(sessions, [], Active))) else s
  }

  predicate CanResume(w: World, snapshot: Handle) {
    snapshot.status == Active && forall i :: 0 <= i < |snapshot.delivered| ==> Completed(w.jobs, snapshot.delivered[i])
  }

  /** `resume`: the new handle takes its delivered jobs from the outbox, which must hold all of the snapshot's. */
  function ResumeHandle(s: System, snapshot: Handle): System {
    if CanResume(s.w, snapshot)
    then s.(w := WithHandle(s.w, Handle(snapshot.sessions, CompletedIds(s.w.jobs), Active)))
    else s
  }

  function BeginDelivery(s: System, h: nat, job: Job, profile: string): System {
    if s.delivery == Nothing && h < |s.w.handles| && s.w.handles[h].status == Active && CanPrepare(s.w, h, job) then
      s.(w := Prepared(s.w, h, job),
         delivery := Fanning(h, job, profile, map session | session in s.w.handles[h].sessions :: Fresh))
    else s
  }

  predicate At(s: System, session: string, place: Place) {
    s.delivery.Fanning? && session in s.delivery.places && s.delivery.places[session] == place
  }

  function Move(s: System, session: string, place: Place): System
    requires s.delivery.Fanning?
  {
    s.(delivery := s.delivery.(places := s.delivery.places[session := place]))
  }

  /** An acknowledged recipient is left alone. */
  function LookUp(s: System, session: string): System {
    if !At(s, session, Fresh) then s
    else
      var key := Key(s.delivery.job.id, session);
      Move(s, session, if key !in s.w.acked then Ready else if s.w.acked[key] == s.delivery.profile then Done
          else Failed)
  }

  function SendTo(s: System, session: string): System {
    if !At(s, session, Ready) then s
    else Move(s.(w := s.w.(marks := s.w.marks + [Sent(Key(s.delivery.job.id, session))])), session, Sending)
  }

  function Answered(s: System, session: string, answer: Answer): System {
    if !At(s, session, Sending) then s
    else if answer.Raises? || answer.profile != s.delivery.profile then Move(s, session, Failed)
    else
      var key := Key(s.delivery.job.id, session);
      Move(s.(w := s.w.(marks := s.w.marks + [Acked(key)], acked := s.w.acked[key := answer.profile])), session, Done)
  }

  predicate AllDone(places: map<string, Place>) { forall session :: session in places ==> places[session] == Done }

  function WithComplete(w: World, i: nat): World
    requires i < |w.jobs|
  {
    w.(jobs := w.jobs[i := w.jobs[i].(complete := true)])
  }

  function CompleteRow(s: System): System {
    if s.delivery.Fanning? && AllDone(s.delivery.places) && FindJob(s.w.jobs, s.delivery.job.id) < |s.w.jobs| then
      s.(w := WithComplete(s.w, FindJob(s.w.jobs, s.delivery.job.id)),
          delivery := Marking(s.delivery.h, s.delivery.job))
    else s
  }

  function Listed(handle: Handle, id: string): Handle {
    if id in handle.delivered then handle else handle.(delivered := handle.delivered + [id])
  }

  function RememberJob(s: System): System {
    if s.delivery.Marking? && s.delivery.h < |s.w.handles| then
      var h := s.delivery.h;
      s.(w := s.w.(handles := s.w.handles[h := Listed(s.w.handles[h], s.delivery.job.id)]),
         delivery := Announcing(h, s.delivery.job))
    else s
  }

  function Logged(w: World, h: nat, kind: Kind): World { w.(log := w.log + [Entry(h, kind)]) }

  function AnnounceJob(s: System): System {
    if s.delivery.Announcing? then s.(w := Logged(s.w, s.delivery.h, JobDelivered), delivery := Nothing) else s
  }

  function BeginClosing(s: System, h: nat, profile: string): System {
    if CanClose(s.w, h, profile)
    then s.(w := Logged(s.w, h, DeliveryReconciled), closes := s.closes + multiset{CloseCall(h, Stopped)})
    else s
  }

  function Ended(w: World, h: nat, kind: Kind, status: Status): World {
    if h < |w.handles| then Logged(w.(handles := w.handles[h := w.handles[h].(status := status)]), h, kind) else w
  }

  /** A gate lets the call on to its next stage, or spoils the campaign. */
  function PassGate(s: System, c: CloseCall, passes: bool, kind: Kind, stage: Stage): System {
    var rest := s.closes - multiset{c};
    if passes then s.(w := Logged(s.w, c.h, kind), closes := rest + multiset{CloseCall(c.h, stage)})
    else s.(w := Ended(s.w, c.h, Invalid, Spoilt), closes := rest)
  }

  function AskGate(s: System, c: CloseCall, passes: bool): System {
    if c !in s.closes then s
    else match c.stage
    case Stopped => PassGate(s, c, passes, BudgetReconciled, BudgetPassed)
    case BudgetPassed => PassGate(s, c, passes, ComputeReconciled, ComputePassed)
    case ComputePassed => s.(w := Ended(s.w, c.h, Closed, Over), closes := s.closes - multiset{c})
  }

  /** `Abandon` ends the delivery and `Drop` a call of `close` with an exception or with the process. `Ask` is
      the next gate of a call of `close`, or its end when it has passed them all. */
  datatype Step =
    | Start(sessions: seq<string>)
    | Resume(snapshot: Handle)
    | Deliver(h: nat, job: Job, profile: string)
    | Look(session: string)
    | Send(session: string)
    | Answer(session: string, answer: Answer)
    | Complete
    | Remember
    | Announce
    | Abandon
    | Close(h: nat, profile: string)
    | Ask(c: CloseCall, passes: bool)
    | Drop(c: CloseCall)

  /** One step; a step out of turn, or refused, does nothing. */
  function Next(s: System, step: Step): System {
    match step
    case Start(sessions) => StartHandle(s, sessions)
    case Resume(snapshot) => ResumeHandle(s, snapshot)
    case Deliver(h, job, profile) => BeginDelivery(s, h, job, profile)
    case Look(session) => LookUp(s, session)
    case Send(session) => SendTo(s, session)
    case Answer(session, answer) => Answered(s, session, answer)
    case Complete => CompleteRow(s)
    case Remember => RememberJob(s)
    case Announce => AnnounceJob(s)
    case Abandon => s.(delivery := Nothing)
    case Close(h, profile) => BeginClosing(s, h, profile)
    case Ask(c, passes) => AskGate(s, c, passes)
    case Drop(c) => s.(closes := s.closes - multiset{c})
  }

  function Play(s: System, steps: seq<Step>): System {
    if steps == [] then s else Next(Play(s, steps[..|steps| - 1]), steps[|steps| - 1])
  }

  lemma {:induction false} PlayOn(s: System, a: seq<Step>, b: seq<Step>)
    ensures Play(s, a + b) == Play(Play(s, a), b)
    decreases |b|
  {
    hide Next;
    if b == [] {
      assert a + b == a;
    } else {
      var init, last := b[..|b| - 1], b[|b| - 1];
      PlayOn(s, a, init);
      assert (a + b)[..|a + b| - 1] == a + init;
    }
  }

  lemma {:induction false} PlayOne(s: System, steps: seq<Step>, step: Step)
    ensures Play(s, steps + [step]) == Next(Play(s, steps), step)
  {
    hide Next;
    assert (steps + [step])[..|steps + [step]| - 1] == steps;
  }
}
