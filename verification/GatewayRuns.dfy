/** What holds over whole runs of the token protocol: any number of threads, any interleaving. */
module GatewayRuns {
  import opened GatewayTokens
  import opened ModelGateway
  import opened Options

  // --- Closing --------------------------------------------------------------------------------------------

  ghost predicate Closer(s: System, r: Revoker) { (r in s.sleeping || r in s.woken) && r.close.Some? }

  ghost predicate NobodyCloses(s: System) { s.closing == multiset{} && forall r :: !Closer(s, r) }

  /** Every closer still has every registered token ahead of it. */
  ghost predicate ClosersCover(s: System) {
    && (forall ids, id :: ids in s.closing && id in s.t.tokenIds ==> id in ids)
    && (forall r, id :: Closer(s, r) && id in s.t.tokenIds ==> id == r.id || id in r.close.value)
  }

  /** `close` must not run alongside new issues. */
  ghost predicate ClosesAlone(s: System, step: Step) { step.IssueToken? ==> NobodyCloses(s) }

  ghost predicate Covered(s: System, close: Option<seq<string>>, id: string) {
    close.Some? ==> forall x :: x in s.t.tokenIds ==> x == id || x in close.value
  }

  lemma CoversFewer(s: System, c: System)
    requires ClosersCover(s)
    requires forall ids :: ids in c.closing ==> ids in s.closing
    requires forall r :: Closer(c, r) ==> Closer(s, r)
    requires forall id :: id in c.t.tokenIds ==> id in s.t.tokenIds
    ensures ClosersCover(c)
  {}

  lemma ProceedCovers(s: System, c: System, id: string, close: Option<seq<string>>)
    requires ClosersCover(s) && Covered(s, close, id)
    requires forall x :: x in c.t.tokenIds ==> x in s.t.tokenIds && x != id
    requires c == Proceed(s.(t := c.t), close)
    ensures ClosersCover(c)
  {
    assert forall r :: Closer(c, r) ==> Closer(s, r);
  }

  lemma AwaitCovers(s: System, r: Revoker)
    requires ClosersCover(s) && Holds(s.t.states, r) && Covered(s, r.close, r.id)
    ensures ClosersCover(AwaitQuiet(s, r))
  {
    var c := AwaitQuiet(s, r);
    if s.t.states[r.id].active == 0 {
      ProceedCovers(s, c, r.id, r.close);
    } else {
      forall q, id | Closer(c, q) && id in c.t.tokenIds ensures id == q.id || id in q.close.value {
        assert q == r || Closer(s, q);
      }
    }
  }

  lemma RevokeCovers(s: System, id: string, close: Option<seq<string>>)
    requires Inv(s) && ClosersCover(s) && Covered(s, close, id)
    ensures Revoke(s, id, close).Done? && ClosersCover(Revoke(s, id, close).value)
  {
    if id in s.t.tokenIds {
      Lookup(s.t, id);
      var u := s.(t := With(s.t, id, s.t.states[id].(revoked := true)));
      CoversFewer(s, u);
      AwaitCovers(u, Revoker(id, s.t.tokenIds[id], id, close));
    } else {
      ProceedCovers(s, Proceed(s, close), id, close);
    }
  }

  lemma ResumeCovers(s: System, r: Revoker)
    requires Inv(s) && ClosersCover(s) && r in s.woken
    ensures r.owner in s.t.states && ClosersCover(AwaitQuiet(s.(woken := s.woken - multiset{r}), r))
  {
    if r.close.Some? { assert Closer(s, r); }
    var u := s.(woken := s.woken - multiset{r});
    CoversFewer(s, u);
    AwaitCovers(u, r);
  }

  lemma ContinueCovers(s: System, ids: seq<string>)
    requires Inv(s) && ClosersCover(s) && ids != [] && ids in s.closing
    ensures
      var c := Revoke(s.(closing := s.closing - multiset{ids}), ids[0], Some(ids[1..]));
      c.Done? && ClosersCover(c.value)
  {
    var u := s.(closing := s.closing - multiset{ids});
    CoversFewer(s, u);
    RevokeCovers(u, ids[0], Some(ids[1..]));
  }

  lemma QuietByCover(s: System)
    requires Inv(s) && ClosersCover(s) && [] in s.closing
    ensures s.inside == multiset{} && s.t.tokenIds.Keys == {}
  {
    var none: seq<string> := [];
    assert none in s.closing && forall id :: id in s.t.tokenIds ==> id in none;
  }

  predicate RequestStep(step: Step) { step.ActivateToken? || step.EnterRequest? || step.LeaveRequest? }

  /** Requests and activations register nothing and only wake revokers. */
  predicate OnlyWakes(s: System, c: System) {
    && c.t.tokenIds == s.t.tokenIds && c.closing == s.closing
    && c.sleeping + c.woken == s.sleeping + s.woken
  }

  lemma ActivateShape(s: System, id: string, session: string)
    requires IndicesAgree(s.t)
    ensures Next(s, ActivateToken(id, session)).Done? && OnlyWakes(s, Next(s, ActivateToken(id, session)).value)
  {
    if id in s.t.tokenIds { Lookup(s.t, id); }
  }

  lemma EnterShape(s: System, digest: string, expected: Option<string>)
    requires IndicesAgree(s.t)
    ensures Next(s, EnterRequest(digest, expected)).Done? && OnlyWakes(s, Next(s, EnterRequest(digest, expected)).value)
  {
    assert DigestAgrees(s.t, digest);
    if digest in s.t.tokens { Lookup(s.t, s.t.tokens[digest]); }
  }

  lemma LeaveShape(s: System, id: string)
    requires IndicesAgree(s.t) && CountsAgree(s.t.states, s.inside) && InsideRegistered(s.t, s.inside) && id in s.inside
    ensures Next(s, LeaveRequest(id)).Done? && OnlyWakes(s, Next(s, LeaveRequest(id)).value)
  {
    Lookup(s.t, id);
    assert CountAgrees(s.t.states, s.inside, id);
  }

  lemma RequestStepShape(s: System, step: Step)
    requires Inv(s) && RequestStep(step) && Enabled(s, step)
    ensures Next(s, step).Done? && OnlyWakes(s, Next(s, step).value)
  {
    match step {
      case ActivateToken(id, session) => ActivateShape(s, id, session);
      case EnterRequest(digest, expected) => EnterShape(s, digest, expected);
      case LeaveRequest(id) => LeaveShape(s, id);
    }
  }

  lemma RequestStepCovers(s: System, step: Step)
    requires Inv(s) && ClosersCover(s) && RequestStep(step) && Enabled(s, step)
    ensures Next(s, step).Done? && ClosersCover(Next(s, step).value)
  {
    RequestStepShape(s, step);
    var c := Next(s, step).value;
    forall r | Closer(c, r) ensures Closer(s, r) {
      assert r in c.sleeping + c.woken;
    }
    CoversFewer(s, c);
  }

  lemma OtherStepCovers(s: System, step: Step)
    requires Inv(s) && ClosersCover(s) && (step.IssueToken? || step.StartClose? || step.FinishClose?)
    requires Enabled(s, step) && ClosesAlone(s, step) && Next(s, step).Done?
    ensures ClosersCover(Next(s, step).value)
  {
    var c := Next(s, step).value;
    assert forall r :: Closer(c, r) ==> Closer(s, r);
  }

  lemma StepCovers(s: System, step: Step)
    requires Inv(s) && ClosersCover(s) && Enabled(s, step) && Fresh(s.t, step) && ClosesAlone(s, step)
    ensures QuietClose(s, step)
    ensures Next(s, step).Done? && ClosersCover(Next(s, step).value)
  {
    if step.FinishClose? { QuietByCover(s); }
    StepKeeps(s, step);
    if RequestStep(step) {
      RequestStepCovers(s, step);
    } else {
      match step {
        case StartRevoke(id) => RevokeCovers(s, id, None);
        case ResumeRevoke(r) => ResumeCovers(s, r);
        case ContinueClose(ids) => ContinueCovers(s, ids);
        case _ => OtherStepCovers(s, step);
      }
    }
  }

  // --- Runs -------------------------------------------------------------------------------------------------

  ghost predicate StepsTo(s: System, step: Step, c: System) {
    && Enabled(s, step) && Fresh(s.t, step) && ClosesAlone(s, step)
    && (Next(s, step).Done? ==> c == Next(s, step).value)
  }

  ghost predicate Run(steps: seq<Step>, systems: seq<System>) {
    && |systems| == |steps| + 1 && systems[0] == START
    && forall i :: 0 <= i < |steps| ==> StepsTo(systems[i], steps[i], systems[i + 1])
  }

  /** At every moment of every run: the indices are mutual inverses, each count is the number of requests
      inside its token, and no step fails. */
  lemma {:induction false} RunSafe(steps: seq<Step>, systems: seq<System>, i: nat)
    requires Run(steps, systems) && i < |systems|
    ensures Inv(systems[i]) && ClosersCover(systems[i])
    ensures i < |steps| ==> Enabled(systems[i], steps[i]) && Next(systems[i], steps[i]).Done?
    decreases i
  {
    if i == 0 {
      forall id ensures IdAgrees(EMPTY, id) {}
      forall digest ensures DigestAgrees(EMPTY, digest) {}
    } else {
      RunSafe(steps, systems, i - 1);
      assert StepsTo(systems[i - 1], steps[i - 1], systems[i]);
      StepCovers(systems[i - 1], steps[i - 1]);
      StepKeeps(systems[i - 1], steps[i - 1]);
    }
    if i < |steps| {
      assert StepsTo(systems[i], steps[i], systems[i + 1]);
      StepCovers(systems[i], steps[i]);
    }
  }

  // --- Revocation -------------------------------------------------------------------------------------------

  /** How one object can change: marks stay, and once marked its count only falls. */
  predicate Settles(a: Access, b: Access) {
    b.digest == a.digest && (a.revoked ==> b.revoked && b.active <= a.active)
  }

  /** A token that has left the table stays out, as every token in it is one that was just issued or was
      there before. */
  predicate Leads(s: Tables, c: Tables, id: string) {
    id in s.states ==>
      && id in c.states && Settles(s.states[id], c.states[id])
      && (id !in s.tokenIds ==> id !in c.tokenIds)
  }

  lemma RevokeShape(s: System, x: string, close: Option<seq<string>>)
    requires IndicesAgree(s.t)
    ensures Revoke(s, x, close).Done?
    ensures
      var c := Revoke(s, x, close).value;
      && c.t.tokenIds.Keys <= s.t.tokenIds.Keys
      && c.t.states == (if x in s.t.tokenIds && x in s.t.states
                        then s.t.states[x := s.t.states[x].(revoked := true)] else s.t.states)
      && (c.sleeping == s.sleeping ==> x !in c.t.tokenIds)
  {
    if x in s.t.tokenIds { Lookup(s.t, x); }
  }

  lemma AwaitShape(s: System, r: Revoker)
    requires Holds(s.t.states, r)
    ensures
      var c := AwaitQuiet(s, r);
      && c.t.tokenIds.Keys <= s.t.tokenIds.Keys && c.t.states == s.t.states
      && (c.sleeping == s.sleeping ==> r.id !in c.t.tokenIds)
  {}

  lemma RequestStepLeads(s: System, step: Step, id: string)
    requires Inv(s) && RequestStep(step) && Enabled(s, step)
    ensures Next(s, step).Done? && Leads(s.t, Next(s, step).value.t, id)
  {
    hide CountsAgree, InsideRegistered, AllHold, AllWait, OnlyWakes;
    RequestStepShape(s, step);
    match step {
      case ActivateToken(x, _) => if x in s.t.tokenIds { Lookup(s.t, x); }
      case EnterRequest(digest, _) =>
        assert DigestAgrees(s.t, digest);
        if digest in s.t.tokens { Lookup(s.t, s.t.tokens[digest]); }
      case LeaveRequest(x) => Lookup(s.t, x);
    }
  }

  lemma RevokeLeads(s: System, x: string, close: Option<seq<string>>, id: string)
    requires IndicesAgree(s.t)
    ensures Revoke(s, x, close).Done? && Leads(s.t, Revoke(s, x, close).value.t, id)
  {
    RevokeShape(s, x, close);
    hide Revoke, IndicesAgree;
  }

  lemma ResumeLeads(s: System, r: Revoker, id: string)
    requires AllHold(s.t.states, s.woken) && r in s.woken
    ensures r.owner in s.t.states && Leads(s.t, AwaitQuiet(s.(woken := s.woken - multiset{r}), r).t, id)
  {
    AwaitShape(s.(woken := s.woken - multiset{r}), r);
  }

  lemma IssueLeads(t: Tables, x: string, digest: string, id: string)
    requires Fresh(t, IssueToken(x, digest)) && Issue(t, x, digest).Done?
    ensures Leads(t, Issue(t, x, digest).value, id)
  {}

  lemma StepLeads(s: System, step: Step, id: string)
    requires Inv(s) && Enabled(s, step) && Fresh(s.t, step) && Next(s, step).Done?
    ensures Leads(s.t, Next(s, step).value.t, id)
  {
    hide IndicesAgree, DigestsDiffer, CountsAgree, InsideRegistered, AllWait, Revoke, AwaitQuiet, Issue, Fresh;
    if RequestStep(step) {
      RequestStepLeads(s, step, id);
    } else {
      match step {
        case StartRevoke(x) => RevokeLeads(s, x, None, id);
        case ContinueClose(ids) => RevokeLeads(s.(closing := s.closing - multiset{ids}), ids[0], Some(ids[1..]), id);
        case ResumeRevoke(r) => ResumeLeads(s, r, id);
        case IssueToken(x, digest) => if Issue(s.t, x, digest).Done? { IssueLeads(s.t, x, digest, id); }
        case _ =>
      }
    }
  }

  lemma {:induction false} RunLeads(steps: seq<Step>, systems: seq<System>, i: nat, j: nat, id: string)
    requires Run(steps, systems) && i <= j < |systems| && id in systems[i].t.states
    ensures Leads(systems[i].t, systems[j].t, id)
    decreases j
  {
    hide StepsTo;
    if i < j {
      RunLeads(steps, systems, i, j - 1, id);
      LinkLeads(steps, systems, j - 1, id);
      LeadsTransitive(systems[i].t, systems[j - 1].t, systems[j].t, id);
    }
  }

  lemma LeadsTransitive(a: Tables, b: Tables, c: Tables, id: string)
    requires Leads(a, b, id) && Leads(b, c, id)
    ensures Leads(a, c, id)
  {}

  lemma LinkLeads(steps: seq<Step>, systems: seq<System>, i: nat, id: string)
    requires Run(steps, systems) && i < |steps|
    ensures Leads(systems[i].t, systems[i + 1].t, id)
  {
    hide Inv, ClosersCover, Enabled, Leads, Next;
    RunSafe(steps, systems, i);
    assert StepsTo(systems[i], steps[i], systems[i + 1]);
    StepCovers(systems[i], steps[i]);
    StepLeads(systems[i], steps[i], id);
  }

  /** Once a token is marked as revoked, the number of requests inside it only falls: the measure of the
      wait in `revoke`. */
  lemma RevokedOnlyFalls(steps: seq<Step>, systems: seq<System>, i: nat, j: nat, id: string)
    requires Run(steps, systems) && i <= j < |systems|
    requires id in systems[i].t.states && systems[i].t.states[id].revoked
    ensures systems[j].inside[id] <= systems[i].inside[id]
  {
    RunLeads(steps, systems, i, j, id);
    RunSafe(steps, systems, i);
    RunSafe(steps, systems, j);
    assert CountAgrees(systems[i].t.states, systems[i].inside, id);
    assert CountAgrees(systems[j].t.states, systems[j].inside, id);
  }

  /** The steps that run the end of a revocation of `id`, unless they go to sleep. */
  predicate Revokes(step: Step, id: string) {
    || step == StartRevoke(id)
    || (step.ResumeRevoke? && step.r.id == id)
    || (step.ContinueClose? && step.ids != [] && step.ids[0] == id)
  }

  /** When a revocation gets past its wait its token is gone, and no request is ever in flight on it
      again. */
  lemma RevokedStaysQuiet(steps: seq<Step>, systems: seq<System>, i: nat, id: string, j: nat)
    requires Run(steps, systems) && i < |steps| && i < j < |systems|
    requires Revokes(steps[i], id) && id in systems[i].t.states && systems[i + 1].sleeping == systems[i].sleeping
    ensures id !in systems[j].t.tokenIds && systems[j].inside[id] == 0
  {
    RunSafe(steps, systems, i);
    var s := systems[i];
    assert StepsTo(s, steps[i], systems[i + 1]);
    match steps[i] {
      case StartRevoke(x) => RevokeShape(s, x, None);
      case ResumeRevoke(r) => AwaitShape(s.(woken := s.woken - multiset{r}), r);
      case ContinueClose(ids) => RevokeShape(s.(closing := s.closing - multiset{ids}), ids[0], Some(ids[1..]));
    }
    RunLeads(steps, systems, i, i + 1, id);
    GoneStaysGone(steps, systems, i + 1, j, id);
  }

  lemma GoneStaysGone(steps: seq<Step>, systems: seq<System>, i: nat, j: nat, id: string)
    requires Run(steps, systems) && i <= j < |systems|
    requires id in systems[i].t.states && id !in systems[i].t.tokenIds
    ensures id !in systems[j].t.tokenIds && systems[j].inside[id] == 0
  {
    RunLeads(steps, systems, i, j, id);
    RunSafe(steps, systems, j);
    assert InsideRegistered(systems[j].t, systems[j].inside);
  }

  lemma SleepersWait(s: System)
    requires Inv(s)
    ensures forall r :: r in s.sleeping ==> r.id in s.inside
  {
    forall r | r in s.sleeping ensures r.id in s.inside { assert CountAgrees(s.t.states, s.inside, r.id); }
  }

  lemma LeaveWakesAll(s: System, id: string)
    requires Inv(s) && id in s.inside && Next(s, LeaveRequest(id)).Done?
    ensures Next(s, LeaveRequest(id)).value.sleeping == multiset{}
  {
    Lookup(s.t, id);
    hide IndicesAgree, DigestsDiffer, CountsAgree, AllHold, AllWait;
  }

  lemma QuietResumeEnds(s: System, r: Revoker)
    requires Inv(s) && Enabled(s, ResumeRevoke(r)) && s.inside[r.id] == 0
    ensures
      var c := Next(s, ResumeRevoke(r)).value;
      c.sleeping == s.sleeping && r.id !in c.t.tokenIds
  {
    assert CountAgrees(s.t.states, s.inside, r.id);
    assert Holds(s.t.states, r);
    hide IndicesAgree, DigestsDiffer, CountsAgree, AllHold, AllWait;
  }

  /** No wakeup is lost. A revoker sleeps only while a request is inside its token; the end of any request
      wakes every sleeper; and a woken revoker whose token is quiet does not sleep again. */
  lemma NoLostWakeup(steps: seq<Step>, systems: seq<System>, i: nat)
    requires Run(steps, systems) && i < |systems|
    ensures forall r :: r in systems[i].sleeping ==> r.id in systems[i].inside
    ensures i < |steps| && steps[i].LeaveRequest? ==> systems[i + 1].sleeping == multiset{}
    ensures i < |steps| && steps[i].ResumeRevoke? && systems[i].inside[steps[i].r.id] == 0 ==>
              systems[i + 1].sleeping == systems[i].sleeping && steps[i].r.id !in systems[i + 1].t.tokenIds
  {
    hide Inv, ClosersCover, Next;
    RunSafe(steps, systems, i);
    SleepersWait(systems[i]);
    if i < |steps| {
      assert StepsTo(systems[i], steps[i], systems[i + 1]);
      if steps[i].LeaveRequest? { LeaveWakesAll(systems[i], steps[i].id); }
      if steps[i].ResumeRevoke? && systems[i].inside[steps[i].r.id] == 0 { QuietResumeEnds(systems[i], steps[i].r); }
    }
  }

  // --- Closing alongside new tokens ---------------------------------------------------------------------------

  /** The last region of `close` is harmless exactly when nothing is in flight; otherwise the requests that
      are will find their token gone. */
  lemma FinishCloseExactly(s: System)
    requires Inv(s) && [] in s.closing
    ensures Inv(Next(s, FinishClose).value) <==> s.inside == multiset{}
    ensures forall id :: id in s.inside ==> Next(Next(s, FinishClose).value, LeaveRequest(id)) == Disappeared
  {
    if s.inside == multiset{} {
      FinishKeeps(s);
    } else {
      var id :| id in s.inside;
      assert id !in Next(s, FinishClose).value.t.tokenIds;
    }
  }

  /** A token issued while `close` runs: its request is in flight when the tables are cleared, and its
      release then fails. */
  lemma CloseRacesIssue(id: string, digest: string, session: string)
    ensures
      var s0 := Next(START, StartClose([])).value;
      var s1 := Next(s0, IssueToken(id, digest)).value;
      var s2 := Next(s1, ActivateToken(id, session)).value;
      var s3 := Next(s2, EnterRequest(digest, None)).value;
      var s4 := Next(s3, FinishClose).value;
      Next(s4, LeaveRequest(id)) == Disappeared
  {}
}
