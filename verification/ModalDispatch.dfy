/** Dispatching a paired job at most once, and collecting exactly that call: any number of processes. */
module ModalDispatch {

  /** What a process is started for: the request, and the job and transport that its input files name. */
  datatype Job = Job(request: string, job: string, transport: string)

  datatype Document = Document(job: Job, call: string)

  /** The durable state of all requests: consumed authorities, write-once intents, the calls that were
      really spawned outside, and the retained dispatch documents. */
  datatype Disk = Disk(
    consumed: set<string>, intents: set<string>, calls: map<string, seq<string>>, documents: map<string, Document>)
  {
    function Calls(request: string): seq<string> { if request in calls then calls[request] else [] }
  }

  datatype Process =
    | Starting(dispatch: bool, job: Job)
    | Armed(job: Job)
    | Spawned(job: Job, call: string)
    | Collecting(job: Job, call: string)
    | Over

  datatype System = System(disk: Disk, processes: seq<Process>)

  /** `Spawn` names the identifier that the provider gives; `SpawnFails` is a spawn that raises, whether or
      not the call exists. `Consume` is the parent, consuming an authority. */
  datatype Step = Consume(request: string) | Intend(p: nat) | Spawn(p: nat, call: string)
    | SpawnFails(p: nat, happened: bool, call: string) | Retain(p: nat) | Look(p: nat) | Die(p: nat)

  function Named(step: Step): nat { match step case Consume(_) => 0 case Intend(p) => p case Spawn(p, _) => p
    case SpawnFails(p, _, _) => p case Retain(p) => p case Look(p) => p case Die(p) => p }

  function Goto(s: System, p: nat, x: Process): System
    requires p < |s.processes|
  {
    s.(processes := s.processes[p := x])
  }

  function WithCall(d: Disk, request: string, call: string): Disk {
    d.(calls := d.calls[request := d.Calls(request) + [call]])
  }

  /** The identity that collection demands of the retained document. The performance bridge leaves it to its
      resolver, and does not ask for the authority again; the serving bridge does both itself. */
  predicate Matches(serving: bool, doc: Document, job: Job) {
    doc.job.request == job.request && (serving ==> doc.job == job)
  }

  function Next(serving: bool, s: System, step: Step): System
    requires step.Consume? || Named(step) < |s.processes|
  {
    match step
    case Consume(request) => s.(disk := s.disk.(consumed := s.disk.consumed + {request}))
    case Intend(p) =>
      (match s.processes[p]
       case Starting(true, job) =>
         if job.request !in s.disk.consumed || job.request in s.disk.intents then Goto(s, p, Over)
         else Goto(s.(disk := s.disk.(intents := s.disk.intents + {job.request})), p, Armed(job))
       case _ => s)
    case Spawn(p, call) =>
      (match s.processes[p]
       case Armed(job) => Goto(s.(disk := WithCall(s.disk, job.request, call)), p, Spawned(job, call))
       case _ => s)
    case SpawnFails(p, really, call) =>
      (match s.processes[p]
       case Armed(job) => Goto(if really then s.(disk := WithCall(s.disk, job.request, call)) else s, p, Over)
       case _ => s)
    case Retain(p) =>
      (match s.processes[p]
       case Spawned(job, call) =>
         if job.request in s.disk.documents then Goto(s, p, Over)
         else Goto(s.(disk := s.disk.(documents := s.disk.documents[job.request := Document(job, call)])), p, Over)
       case _ => s)
    case Look(p) =>
      (match s.processes[p]
       case Starting(false, job) =>
         if (serving && job.request !in s.disk.consumed) || job.request !in s.disk.documents
           || !Matches(serving, s.disk.documents[job.request], job)
         then Goto(s, p, Over)
         else Goto(s, p, Collecting(job, s.disk.documents[job.request].call))
       case _ => s)
    case Die(p) => Goto(s, p, Over)
  }

  predicate Begins(s: System) {
    && s.disk.intents == {} && s.disk.calls == map[] && s.disk.documents == map[]
    && forall p :: 0 <= p < |s.processes| ==> s.processes[p].Starting?
  }

  predicate Run(serving: bool, steps: seq<Step>, systems: seq<System>) {
    && |systems| == |steps| + 1 && Begins(systems[0])
    && forall i :: 0 <= i < |steps| ==>
         (steps[i].Consume? || Named(steps[i]) < |systems[i].processes|)
         && systems[i + 1] == Next(serving, systems[i], steps[i])
  }

  // --- The invariant ------------------------------------------------------------------------------------

  predicate RequestAgrees(d: Disk, request: string) {
    && |d.Calls(request)| <= 1
    && (request !in d.intents ==> d.Calls(request) == [])
    && (request in d.documents ==>
          d.documents[request].job.request == request && d.Calls(request) == [d.documents[request].call])
    && (request in d.intents ==> request in d.consumed)
  }

  predicate ProcessAgrees(serving: bool, d: Disk, x: Process) {
    && (x.Armed? ==> x.job.request in d.intents && d.Calls(x.job.request) == [] && x.job.request !in d.documents)
    && (x.Spawned? ==>
          x.job.request in d.intents && d.Calls(x.job.request) == [x.call] && x.job.request !in d.documents)
    && (x.Collecting? ==>
          x.job.request in d.documents && d.documents[x.job.request].call == x.call
          && (serving ==> d.documents[x.job.request].job == x.job))
  }

  predicate Holds(x: Process, request: string) { (x.Armed? || x.Spawned?) && x.job.request == request }

  predicate Rivals(x: Process, y: Process) { (x.Armed? || x.Spawned?) && Holds(y, x.job.request) }

  /** No two processes are past the intent of one request. */
  predicate Exclusive(processes: seq<Process>) {
    forall p, q :: 0 <= p < q < |processes| ==> !Rivals(processes[p], processes[q])
  }

  ghost predicate Inv(serving: bool, s: System) {
    && (forall request :: RequestAgrees(s.disk, request))
    && (forall p :: 0 <= p < |s.processes| ==> ProcessAgrees(serving, s.disk, s.processes[p]))
    && Exclusive(s.processes)
  }

  lemma IntendKeeps(serving: bool, s: System, p: nat)
    requires Inv(serving, s) && p < |s.processes|
    ensures Inv(serving, Next(serving, s, Intend(p)))
  {
    var c := Next(serving, s, Intend(p));
    forall request ensures RequestAgrees(c.disk, request) { assert RequestAgrees(s.disk, request); }
    if c.processes[p].Armed? {
      var request := c.processes[p].job.request;
      assert RequestAgrees(s.disk, request);
      forall q | 0 <= q < |s.processes| && q != p ensures !Holds(s.processes[q], request) {
        assert ProcessAgrees(serving, s.disk, s.processes[q]);
      }
    }
    forall q | 0 <= q < |c.processes| ensures ProcessAgrees(serving, c.disk, c.processes[q]) {
      assert ProcessAgrees(serving, s.disk, s.processes[q]);
    }
  }

  /** A process that holds a request moves on within it, and no other process is touched. */
  lemma HolderKeeps(serving: bool, s: System, p: nat, x: Process, d: Disk)
    requires Inv(serving, s) && p < |s.processes| && (s.processes[p].Armed? || s.processes[p].Spawned?)
    requires x == Over || (x.Spawned? && x.job == s.processes[p].job)
    requires d.intents == s.disk.intents && d.consumed == s.disk.consumed
    requires forall request :: request != s.processes[p].job.request ==>
      d.Calls(request) == s.disk.Calls(request)
      && (request in d.documents <==> request in s.disk.documents)
      && (request in d.documents ==> d.documents[request] == s.disk.documents[request])
    requires RequestAgrees(d, s.processes[p].job.request) && ProcessAgrees(serving, d, x)
    ensures Inv(serving, System(d, s.processes[p := x]))
  {
    var mine := s.processes[p].job.request;
    forall request ensures RequestAgrees(d, request) { assert RequestAgrees(s.disk, request); }
    forall q | 0 <= q < |s.processes| && q != p ensures ProcessAgrees(serving, d, s.processes[q]) {
      assert ProcessAgrees(serving, s.disk, s.processes[q]) && ProcessAgrees(serving, s.disk, s.processes[p]);
      assert !Holds(s.processes[q], mine);
    }
  }

  lemma SpawnKeeps(serving: bool, s: System, p: nat, step: Step)
    requires Inv(serving, s) && p < |s.processes| && s.processes[p].Armed?
    requires (step.Spawn? || step.SpawnFails?) && Named(step) == p
    ensures Inv(serving, Next(serving, s, step))
  {
    var job := s.processes[p].job;
    var c := Next(serving, s, step);
    assert ProcessAgrees(serving, s.disk, s.processes[p]) && RequestAgrees(s.disk, job.request);
    HolderKeeps(serving, s, p, c.processes[p], c.disk);
  }

  lemma RetainKeeps(serving: bool, s: System, p: nat)
    requires Inv(serving, s) && p < |s.processes| && s.processes[p].Spawned?
    ensures Inv(serving, Next(serving, s, Retain(p)))
  {
    var job := s.processes[p].job;
    var c := Next(serving, s, Retain(p));
    assert ProcessAgrees(serving, s.disk, s.processes[p]) && RequestAgrees(s.disk, job.request);
    HolderKeeps(serving, s, p, c.processes[p], c.disk);
  }

  lemma QuietKeeps(serving: bool, s: System, c: System)
    requires Inv(serving, s) && |c.processes| == |s.processes|
    requires c.disk == s.disk.(consumed := c.disk.consumed) && s.disk.consumed <= c.disk.consumed
    requires forall q :: 0 <= q < |s.processes| ==>
      c.processes[q] == s.processes[q] || c.processes[q] == Over
      || (c.processes[q].Collecting? && ProcessAgrees(serving, c.disk, c.processes[q]))
    ensures Inv(serving, c)
  {
    forall request ensures RequestAgrees(c.disk, request) { assert RequestAgrees(s.disk, request); }
    forall q | 0 <= q < |c.processes| ensures ProcessAgrees(serving, c.disk, c.processes[q]) {
      assert ProcessAgrees(serving, s.disk, s.processes[q]);
    }
  }

  lemma StepKeeps(serving: bool, s: System, step: Step)
    requires Inv(serving, s) && (step.Consume? || Named(step) < |s.processes|)
    ensures Inv(serving, Next(serving, s, step))
  {
    var c := Next(serving, s, step);
    match step {
      case Intend(p) => IntendKeeps(serving, s, p);
      case Spawn(p, _) => if s.processes[p].Armed? { SpawnKeeps(serving, s, p, step); }
      case SpawnFails(p, _, _) => if s.processes[p].Armed? { SpawnKeeps(serving, s, p, step); }
      case Retain(p) => if s.processes[p].Spawned? { RetainKeeps(serving, s, p); }
      case Look(p) => QuietKeeps(serving, s, c);
      case Die(p) => QuietKeeps(serving, s, c);
      case Consume(_) => QuietKeeps(serving, s, c);
    }
  }

  lemma {:induction false} RunSafe(serving: bool, steps: seq<Step>, systems: seq<System>, i: nat)
    requires Run(serving, steps, systems) && i < |systems|
    ensures Inv(serving, systems[i])
    decreases i
  {
    if i == 0 {
      forall request ensures RequestAgrees(systems[0].disk, request) {}
    } else {
      RunSafe(serving, steps, systems, i - 1);
      StepKeeps(serving, systems[i - 1], steps[i - 1]);
    }
  }

  /** However many processes race and wherever they die, each request is spawned at most once, and only
      after its authority was consumed. */
  lemma SpawnedAtMostOnce(serving: bool, steps: seq<Step>, systems: seq<System>, i: nat, request: string)
    requires Run(serving, steps, systems) && i < |systems|
    ensures |systems[i].disk.Calls(request)| <= 1
    ensures systems[i].disk.Calls(request) != [] ==> request in systems[i].disk.consumed
  {
    RunSafe(serving, steps, systems, i);
    assert RequestAgrees(systems[i].disk, request);
  }

  /** Every collection uses the one call that was spawned for its request; in the serving bridge it was
      spawned for the very same job and transport. */
  lemma CollectsTheSpawnedCall(serving: bool, steps: seq<Step>, systems: seq<System>, i: nat, p: nat)
    requires Run(serving, steps, systems) && i < |systems| && p < |systems[i].processes|
    requires systems[i].processes[p].Collecting?
    ensures
      var (d, x) := (systems[i].disk, systems[i].processes[p]);
      && d.Calls(x.job.request) == [x.call]
      && x.job.request in d.documents
      && (serving ==> d.documents[x.job.request].job == x.job)
  {
    RunSafe(serving, steps, systems, i);
    var s := systems[i];
    assert ProcessAgrees(serving, s.disk, s.processes[p]);
    assert RequestAgrees(s.disk, s.processes[p].job.request);
  }

  // --- A dead dispatcher blocks its request --------------------------------------------------------------

  /** The intent is there, and no process that could still act on it is. */
  predicate Abandoned(s: System, request: string) {
    request in s.disk.intents && forall p :: 0 <= p < |s.processes| ==> !Holds(s.processes[p], request)
  }

  lemma StepAbandoned(serving: bool, s: System, step: Step, request: string)
    requires (step.Consume? || Named(step) < |s.processes|) && Abandoned(s, request)
    ensures
      var c := Next(serving, s, step);
      && Abandoned(c, request) && c.disk.Calls(request) == s.disk.Calls(request)
      && (request in c.disk.documents <==> request in s.disk.documents)
  {}

  /** Once the dispatcher of a request is dead, nothing ever spawns it again and no document of it appears:
      it can only be inspected. */
  lemma {:induction false} AbandonedForever(serving: bool, steps: seq<Step>, systems: seq<System>, i: nat, j: nat,
      request: string)
    requires Run(serving, steps, systems) && i <= j < |systems| && Abandoned(systems[i], request)
    ensures Abandoned(systems[j], request) && systems[j].disk.Calls(request) == systems[i].disk.Calls(request)
    ensures request in systems[j].disk.documents <==> request in systems[i].disk.documents
    decreases j
  {
    if i < j {
      AbandonedForever(serving, steps, systems, i, j - 1, request);
      StepAbandoned(serving, systems[j - 1], steps[j - 1], request);
    }
  }

  // --- What does happen --------------------------------------------------------------------------------

  /** An authorized request is dispatched, retained and collected by a run of two processes, one of which dispatches it
      and the other collects it, under the identifier that the provider gave. */
  lemma {:induction false} DispatchIsCollected(serving: bool, job: Job, call: string)
    returns (steps: seq<Step>, systems: seq<System>)
    ensures Run(serving, steps, systems)
    ensures
      var s := systems[|steps|];
      && |s.processes| == 2 && s.processes[1] == Collecting(job, call)
      && s.disk.Calls(job.request) == [call] && s.disk.consumed == {job.request}
      && job.request in s.disk.documents && s.disk.documents[job.request] == Document(job, call)
  {
    var s0 := System(Disk({}, {}, map[], map[]), [Starting(true, job), Starting(false, job)]);
    var s2 := System(Disk({job.request}, {job.request}, map[], map[]), [Armed(job), Starting(false, job)]);
    var s1 := s2.(disk := s2.disk.(intents := {}), processes := s0.processes);
    var s3 := System(s2.disk.(calls := map[job.request := [call]]), [Spawned(job, call), Starting(false, job)]);
    var s4 := System(s3.disk.(documents := map[job.request := Document(job, call)]), [Over, Starting(false, job)]);
    var s5 := System(s4.disk, [Over, Collecting(job, call)]);
    DispatchSteps(serving, job, call, s0, s1, s2, s3);
    assert Next(serving, s3, Retain(0)) == s4 by { assert s3.processes[0 := Over] == s4.processes; }
    assert Next(serving, s4, Look(1)) == s5 by { assert s4.processes[1 := Collecting(job, call)] == s5.processes; }
    hide Next;
    steps, systems := [Consume(job.request), Intend(0), Spawn(0, call), Retain(0), Look(1)], [s0, s1, s2, s3, s4, s5];
  }

  lemma {:induction false} DispatchSteps(serving: bool, job: Job, call: string, s0: System, s1: System, s2: System,
      s3: System)
    requires s0 == System(Disk({}, {}, map[], map[]), [Starting(true, job), Starting(false, job)])
    requires s1 == System(Disk({job.request}, {}, map[], map[]), [Starting(true, job), Starting(false, job)])
    requires s2 == System(Disk({job.request}, {job.request}, map[], map[]), [Armed(job), Starting(false, job)])
    requires s3 == System(s2.disk.(calls := map[job.request := [call]]), [Spawned(job, call), Starting(false, job)])
    ensures Next(serving, s0, Consume(job.request)) == s1
    ensures Next(serving, s1, Intend(0)) == s2 && Next(serving, s2, Spawn(0, call)) == s3
  {
    assert {} + {job.request} == {job.request};
    assert s1.processes[0 := Armed(job)] == s2.processes;
    assert s2.processes[0 := Spawned(job, call)] == s3.processes;
    assert s2.disk.Calls(job.request) + [call] == [call];
  }

  /** A process that is started to collect goes on if and only if a document of its request is retained, in the serving
      bridge only the document of its own job and transport, and only while the authority is consumed. */
  lemma {:induction false} CollectsExactly(serving: bool, s: System, p: nat, job: Job)
    requires p < |s.processes| && s.processes[p] == Starting(false, job)
    ensures
      var t := Next(serving, s, Look(p));
      && t.disk == s.disk && |t.processes| == |s.processes|
      && (t.processes[p].Collecting? <==>
            && job.request in s.disk.documents && s.disk.documents[job.request].job.request == job.request
            && (serving ==>
                  job.request in s.disk.consumed
                  && s.disk.documents[job.request].job.job == job.job
                  && s.disk.documents[job.request].job.transport == job.transport))
      && (t.processes[p].Collecting? ==>
            t.processes[p].job == job && t.processes[p].call == s.disk.documents[job.request].call)
      && (t.processes[p].Collecting? || t.processes[p] == Over)
  {}
}
