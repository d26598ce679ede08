/** The session index of the gateway, which one revocation of a token keeps and two overlapping ones
    may break. */
module GatewaySessions {
  import opened GatewayRuns
  import opened GatewayTokens
  import opened ModelGateway
  import opened Options

  predicate SessionAgrees(t: Tables, session: string) {
    session in t.sessions ==>
      && t.sessions[session] in t.tokenIds && t.sessions[session] in t.states
      && t.states[t.sessions[session]].session == Some(session)
  }

  predicate OwnerAgrees(t: Tables, id: string) {
    id in t.tokenIds && id in t.states && t.states[id].session.Some? ==>
      && t.states[id].session.value in t.sessions && t.sessions[t.states[id].session.value] == id
  }

  /** Sessions and the tokens active for them are in one-to-one correspondence. */
  ghost predicate SessionsAgree(t: Tables) {
    (forall session :: SessionAgrees(t, session)) && (forall id :: OwnerAgrees(t, id))
  }

  /** A revocation that gets past its wait keeps the session index exactly when its token is still
      registered, never had a session, or its session name is not in use again. */
  lemma DropSessionsExactly(t: Tables, r: Revoker)
    requires IndicesAgree(t) && SessionsAgree(t) && Holds(t.states, r)
    ensures SessionsAgree(Drop(t, r)) <==>
      || r.id in t.tokenIds || t.states[r.id].session.None? || t.states[r.id].session.value !in t.sessions
  {
    var u, session := Drop(t, r), t.states[r.id].session;
    if r.id in t.tokenIds || session.None? || session.value !in t.sessions {
      DropKeepsSessions(t, r);
    } else {
      assert SessionAgrees(t, session.value);
      assert !OwnerAgrees(u, t.sessions[session.value]);
    }
  }

  lemma DropKeepsSessions(t: Tables, r: Revoker)
    requires SessionsAgree(t) && Holds(t.states, r)
    requires r.id in t.tokenIds || t.states[r.id].session.None? || t.states[r.id].session.value !in t.sessions
    ensures SessionsAgree(Drop(t, r))
  {
    var u := Drop(t, r);
    forall session ensures SessionAgrees(u, session) {
      assert SessionAgrees(t, session);
      assert OwnerAgrees(t, r.id);
    }
    forall id ensures OwnerAgrees(u, id) {
      assert OwnerAgrees(t, id);
      assert OwnerAgrees(t, r.id);
    }
  }

  // --- Revocations that do not overlap ------------------------------------------------------------------------

  /** Each revoker inside `revoke` is the only one of its token, and the token is still registered. */
  ghost predicate Sole(t: Tables, revokers: multiset<Revoker>) {
    && (forall r :: r in revokers ==> revokers[r] == 1 && r.id in t.tokenIds)
    && (forall r, q :: r in revokers && q in revokers && r.id == q.id ==> r == q)
  }

  predicate Unmarked(t: Tables, id: string) { id in t.states ==> !t.states[id].revoked }

  /** No revocation begins on a token that is already being revoked. */
  predicate NoOverlap(s: System, step: Step) {
    && (step.StartRevoke? ==> Unmarked(s.t, step.id))
    && (step.ContinueClose? && step.ids != [] ==> Unmarked(s.t, step.ids[0]))
  }

  ghost predicate SessionInv(s: System) { SessionsAgree(s.t) && Sole(s.t, s.sleeping + s.woken) }

  lemma SameSessions(t: Tables, u: Tables)
    requires SessionsAgree(t)
    requires u.tokenIds == t.tokenIds && u.sessions == t.sessions && u.states.Keys == t.states.Keys
    requires forall id :: id in t.states ==> u.states[id].session == t.states[id].session
    ensures SessionsAgree(u)
  {
    forall session ensures SessionAgrees(u, session) { assert SessionAgrees(t, session); }
    forall id ensures OwnerAgrees(u, id) { assert OwnerAgrees(t, id); }
  }

  lemma SoleDrop(t: Tables, revokers: multiset<Revoker>, r: Revoker)
    requires Sole(t, revokers + multiset{r})
    ensures Sole(Unregistered(t, r), revokers)
  {
    var all := revokers + multiset{r};
    assert r in all && all[r] == 1;
    forall q | q in revokers ensures revokers[q] == 1 && q.id in Unregistered(t, r).tokenIds {
      assert q in all;
    }
    forall p, q | p in revokers && q in revokers && p.id == q.id ensures p == q {
      assert p in all && q in all;
    }
  }

  function Unregistered(t: Tables, r: Revoker): Tables { t.(tokenIds := t.tokenIds - {r.id}) }

  lemma SoleTables(t: Tables, u: Tables, revokers: multiset<Revoker>)
    requires Sole(t, revokers) && t.tokenIds.Keys <= u.tokenIds.Keys
    ensures Sole(u, revokers)
  {
    forall r | r in revokers ensures r.id in u.tokenIds { assert r.id in t.tokenIds.Keys; }
  }

  /** A revoker alone on its registered token, at its wait: it sleeps, or drops the token. */
  lemma AwaitSessions(s: System, r: Revoker)
    requires SessionsAgree(s.t) && Holds(s.t.states, r) && Sole(s.t, s.sleeping + s.woken + multiset{r})
    ensures SessionInv(AwaitQuiet(s, r))
  {
    var all := s.sleeping + s.woken + multiset{r};
    assert r in all;
    var c := AwaitQuiet(s, r);
    if s.t.states[r.id].active == 0 {
      DropKeepsSessions(s.t, r);
      SoleDrop(s.t, s.sleeping + s.woken, r);
      SoleTables(Unregistered(s.t, r), c.t, s.sleeping + s.woken);
    } else {
      assert c.sleeping + c.woken == all;
    }
  }

  lemma AddSole(t: Tables, revokers: multiset<Revoker>, r: Revoker)
    requires Sole(t, revokers) && r.id in t.tokenIds && forall q :: q in revokers ==> q.id != r.id
    ensures Sole(t, revokers + multiset{r})
  {
    assert r !in revokers;
  }

  lemma RevokeSessions(s: System, id: string, close: Option<seq<string>>)
    requires Inv(s) && SessionInv(s) && Unmarked(s.t, id)
    ensures Revoke(s, id, close).Done? && SessionInv(Revoke(s, id, close).value)
  {
    if id in s.t.tokenIds {
      Lookup(s.t, id);
      var u := s.(t := With(s.t, id, s.t.states[id].(revoked := true)));
      var r := Revoker(id, s.t.tokenIds[id], id, close);
      SameSessions(s.t, u.t);
      forall q | q in s.sleeping + s.woken ensures q.id != id { assert q in s.sleeping || q in s.woken; }
      SoleTables(s.t, u.t, s.sleeping + s.woken);
      AddSole(u.t, s.sleeping + s.woken, r);
      AwaitSessions(u, r);
    }
  }

  lemma ResumeSessions(s: System, r: Revoker)
    requires Inv(s) && SessionInv(s) && r in s.woken
    ensures r.owner in s.t.states && SessionInv(AwaitQuiet(s.(woken := s.woken - multiset{r}), r))
  {
    assert s.sleeping + s.woken == s.sleeping + (s.woken - multiset{r}) + multiset{r};
    AwaitSessions(s.(woken := s.woken - multiset{r}), r);
  }

  lemma IssueSessions(t: Tables, id: string, digest: string)
    requires IndicesAgree(t) && SessionsAgree(t) && id !in t.states && id !in t.tokenIds && digest !in t.tokens
    ensures SessionsAgree(Issue(t, id, digest).value)
  {
    var u := Issue(t, id, digest).value;
    forall session ensures SessionAgrees(u, session) { assert SessionAgrees(t, session); }
    forall x ensures OwnerAgrees(u, x) { assert OwnerAgrees(t, x); }
  }

  lemma ActivateSessions(t: Tables, id: string, session: string)
    requires IndicesAgree(t) && SessionsAgree(t) && Activate(t, id, session).Done?
    ensures SessionsAgree(Activate(t, id, session).value)
  {
    Lookup(t, id);
    var u := Activate(t, id, session).value;
    forall x ensures SessionAgrees(u, x) { assert SessionAgrees(t, x); }
    forall x ensures OwnerAgrees(u, x) { assert OwnerAgrees(t, x); }
  }

  lemma EnterSessions(t: Tables, digest: string, expected: Option<string>)
    requires SessionsAgree(t) && Authorize(t, digest, expected).Done?
    ensures SessionsAgree(Authorize(t, digest, expected).value.0)
  {
    SameSessions(t, Authorize(t, digest, expected).value.0);
  }

  lemma LeaveSessions(t: Tables, id: string)
    requires SessionsAgree(t) && Release(t, id).Done?
    ensures SessionsAgree(Release(t, id).value)
  {
    SameSessions(t, Release(t, id).value);
  }

  lemma RequestStepSessions(s: System, step: Step)
    requires Inv(s) && SessionInv(s) && RequestStep(step) && Enabled(s, step)
    ensures Next(s, step).Done? && SessionInv(Next(s, step).value)
  {
    RequestStepShape(s, step);
    var c := Next(s, step).value;
    assert s.sleeping + s.woken == c.sleeping + c.woken;
    SoleTables(s.t, c.t, s.sleeping + s.woken);
    match step {
      case ActivateToken(id, session) => if Activate(s.t, id, session).Done? { ActivateSessions(s.t, id, session); }
      case EnterRequest(digest, expected) =>
        if Authorize(s.t, digest, expected).Done? { EnterSessions(s.t, digest, expected); }
      case LeaveRequest(id) => LeaveSessions(s.t, id);
    }
  }

  lemma FinishSessions(s: System)
    requires Inv(s) && SessionInv(s) && s.t.tokenIds.Keys == {}
    ensures SessionInv(s.(t := Cleared(s.t)))
  {
    var t := Cleared(s.t);
    forall session ensures SessionAgrees(t, session) {}
    forall id ensures OwnerAgrees(t, id) {}
    SoleTables(s.t, t, s.sleeping + s.woken);
  }

  lemma StepSessions(s: System, step: Step)
    requires Inv(s) && ClosersCover(s) && SessionInv(s)
    requires Enabled(s, step) && Fresh(s.t, step) && ClosesAlone(s, step) && NoOverlap(s, step)
    ensures Next(s, step).Done? && SessionInv(Next(s, step).value)
  {
    if RequestStep(step) {
      RequestStepSessions(s, step);
    } else {
      match step {
        case StartRevoke(id) => RevokeSessions(s, id, None);
        case ResumeRevoke(r) => ResumeSessions(s, r);
        case ContinueClose(ids) => RevokeSessions(s.(closing := s.closing - multiset{ids}), ids[0], Some(ids[1..]));
        case IssueToken(id, digest) =>
          IssueTables(s.t, id, digest);
          IssueSessions(s.t, id, digest);
          SoleTables(s.t, Issue(s.t, id, digest).value, s.sleeping + s.woken);
        case FinishClose => QuietByCover(s); FinishSessions(s);
        case StartClose(_) =>
      }
    }
  }

  /** In every run in which no revocation begins on a token already being revoked, sessions and active
      tokens stay in one-to-one correspondence. */
  lemma {:induction false} RunSessions(steps: seq<Step>, systems: seq<System>, i: nat)
    requires Run(steps, systems) && i < |systems|
    requires forall k :: 0 <= k < |steps| ==> NoOverlap(systems[k], steps[k])
    ensures SessionInv(systems[i])
    decreases i
  {
    hide SessionInv, Inv, ClosersCover, Enabled, Fresh, ClosesAlone, NoOverlap, Next;
    if i == 0 {
      StartSessions();
    } else {
      RunSessions(steps, systems, i - 1);
      RunSafe(steps, systems, i - 1);
      assert StepsTo(systems[i - 1], steps[i - 1], systems[i]);
      assert NoOverlap(systems[i - 1], steps[i - 1]);
      StepSessions(systems[i - 1], steps[i - 1]);
    }
  }

  lemma StartSessions()
    ensures SessionInv(START)
  {
    forall session ensures SessionAgrees(EMPTY, session) {}
    forall id ensures OwnerAgrees(EMPTY, id) {}
  }

  // --- Revocations that do overlap --------------------------------------------------------------------------

  /** One token, active under a session, with one request inside. */
  function Busy(id: string, digest: string, session: string): System {
    System(Tables(map[digest := id], map[id := digest], map[session := id],
        map[id := Access(digest, Some(session), 1, false)]),
           multiset{id}, multiset{}, multiset{}, multiset{})
  }

  /** The same token gone, with one of its revokers still to resume. */
  function HalfRevoked(id: string, digest: string, session: string): System {
    System(Tables(map[], map[], map[], map[id := Access(digest, Some(session), 0, true)]),
           multiset{}, multiset{}, multiset{Revoker(id, digest, id, None)}, multiset{})
  }

  lemma BusyReached(id: string, digest: string, session: string)
    ensures
      var s := Next(Next(START, IssueToken(id, digest)).value, ActivateToken(id, session)).value;
      Next(s, EnterRequest(digest, None)) == Done(Busy(id, digest, session))
  {
    var s := Next(Next(START, IssueToken(id, digest)).value, ActivateToken(id, session)).value;
    assert s.t.states == map[id := Access(digest, Some(session), 0, false)];
    assert s.t.sessions == map[session := id];
    var u := Next(s, EnterRequest(digest, None)).value;
    assert u.t.states == Busy(id, digest, session).t.states && u.inside == multiset{id};
  }

  /** The same token marked by two revokers, both asleep. */
  function TwiceMarked(id: string, digest: string, session: string): System {
    var r := Revoker(id, digest, id, None);
    Busy(id, digest, session).(
      t := Busy(id, digest, session).t.(states := map[id := Access(digest, Some(session), 1, true)]),
      sleeping := multiset{r, r})
  }

  lemma OnceMarkedReached(id: string, digest: string, session: string)
    ensures Next(Busy(id, digest, session), StartRevoke(id)) ==
      Done(TwiceMarked(id, digest, session).(sleeping := multiset{Revoker(id, digest, id, None)}))
  {
    var s := Next(Busy(id, digest, session), StartRevoke(id)).value;
    assert s.t.states == map[id := Access(digest, Some(session), 1, true)];
    assert s.sleeping == multiset{Revoker(id, digest, id, None)};
  }

  lemma TwiceMarkedReached(id: string, digest: string, session: string)
    ensures
      var once := TwiceMarked(id, digest, session).(sleeping := multiset{Revoker(id, digest, id, None)});
      Next(once, StartRevoke(id)) == Done(TwiceMarked(id, digest, session))
  {
    var r := Revoker(id, digest, id, None);
    var once := TwiceMarked(id, digest, session).(sleeping := multiset{r});
    var s := Next(once, StartRevoke(id)).value;
    assert s.t.states == map[id := Access(digest, Some(session), 1, true)];
    assert s.sleeping == multiset{r, r};
  }

  /** The two of them are woken together, and one resumes first. */
  function BothWoken(id: string, digest: string, session: string): System {
    var r := Revoker(id, digest, id, None);
    System(Busy(id, digest, session).t.(states := map[id := Access(digest, Some(session), 0, true)]),
           multiset{}, multiset{}, multiset{r, r}, multiset{})
  }

  lemma BothWokenReached(id: string, digest: string, session: string)
    ensures Next(TwiceMarked(id, digest, session), LeaveRequest(id)) == Done(BothWoken(id, digest, session))
  {
    var c := Next(TwiceMarked(id, digest, session), LeaveRequest(id)).value;
    assert c.t.states == map[id := Access(digest, Some(session), 0, true)];
    assert c.inside == multiset{} && c.woken == BothWoken(id, digest, session).woken;
  }

  lemma HalfRevokedReached(id: string, digest: string, session: string)
    ensures Next(BothWoken(id, digest, session), ResumeRevoke(Revoker(id, digest, id, None)))
         == Done(HalfRevoked(id, digest, session))
  {
    var r, s := Revoker(id, digest, id, None), BothWoken(id, digest, session);
    var dropped := Drop(s.t, r);
    assert dropped.tokenIds == map[] && dropped.tokens == map[] && dropped.sessions == map[];
    assert multiset{r, r} - multiset{r} == multiset{r};
  }

  /** After that, token `b` is active under the session name. */
  function Taken(a: string, b: string, da: string, db: string, session: string): System {
    var s := HalfRevoked(a, da, session);
    s.(t := Tables(map[db := b], map[b := db], map[session := b],
        map[a := Access(da, Some(session), 0, true), b := Access(db, Some(session), 0, false)]))
  }

  /** Token `b` is issued, not active yet. */
  function Issued(a: string, b: string, da: string, db: string, session: string): System {
    var s := HalfRevoked(a, da, session);
    s.(t := Tables(map[db := b], map[b := db], map[],
        map[a := Access(da, Some(session), 0, true), b := Access(db, None, 0, false)]))
  }

  lemma TakenReached(a: string, b: string, da: string, db: string, session: string)
    requires a != b && da != db
    ensures Next(HalfRevoked(a, da, session), IssueToken(b, db)) == Done(Issued(a, b, da, db, session))
    ensures Next(Issued(a, b, da, db, session), ActivateToken(b, session)) == Done(Taken(a, b, da, db, session))
  {
    var s := Next(HalfRevoked(a, da, session), IssueToken(b, db)).value;
    assert s.t.states == Issued(a, b, da, db, session).t.states;
    var u := Next(Issued(a, b, da, db, session), ActivateToken(b, session)).value;
    assert u.t.states == Taken(a, b, da, db, session).t.states;
  }

  /** The second revocation of `a` takes the name of `b`'s session out of the index. */
  function Unlisted(a: string, b: string, da: string, db: string, session: string): System {
    var s := Taken(a, b, da, db, session);
    System(s.t.(sessions := map[]), multiset{}, multiset{}, multiset{}, multiset{})
  }

  lemma UnlistedReached(a: string, b: string, da: string, db: string, session: string)
    requires a != b && da != db
    ensures Next(Taken(a, b, da, db, session), ResumeRevoke(Revoker(a, da, a, None)))
         == Done(Unlisted(a, b, da, db, session))
    ensures
      var t := Unlisted(a, b, da, db, session).t;
      && b in t.tokenIds && b in t.states && t.states[b].session == Some(session)
      && session !in t.sessions && !SessionsAgree(t)
  {
    var r, s := Revoker(a, da, a, None), Taken(a, b, da, db, session);
    var dropped := Drop(s.t, r);
    assert dropped.tokenIds == map[b := db] && dropped.tokens == map[db := b] && dropped.sessions == map[];
    assert !OwnerAgrees(Unlisted(a, b, da, db, session).t, b);
  }

  /** One more step of a run. */
  lemma More(steps: seq<Step>, systems: seq<System>, step: Step, next: System)
    returns (longer: seq<Step>, further: seq<System>)
    requires Run(steps, systems) && StepsTo(systems[|steps|], step, next)
    ensures Run(longer, further) && further[|longer|] == next && longer == steps + [step]
  {
    hide StepsTo;
    longer, further := steps + [step], systems + [next];
    forall i | 0 <= i < |longer| ensures StepsTo(further[i], longer[i], further[i + 1]) {
      if i < |steps| { assert StepsTo(systems[i], steps[i], systems[i + 1]); }
    }
  }

  /** A token is issued, activated, and entered. */
  lemma BusyRun(id: string, digest: string, session: string) returns (steps: seq<Step>, systems: seq<System>)
    ensures Run(steps, systems) && systems[|steps|] == Busy(id, digest, session)
  {
    var s := Next(START, IssueToken(id, digest)).value;
    var u := Next(s, ActivateToken(id, session)).value;
    FirstThree(id, digest, session);
    steps, systems := [], [START];
    hide StepsTo, Next, Busy;
    steps, systems := More(steps, systems, IssueToken(id, digest), s);
    steps, systems := More(steps, systems, ActivateToken(id, session), u);
    steps, systems := More(steps, systems, EnterRequest(digest, None), Busy(id, digest, session));
  }

  lemma FirstThree(id: string, digest: string, session: string)
    ensures
      var s := Next(START, IssueToken(id, digest)).value;
      var u := Next(s, ActivateToken(id, session)).value;
      && StepsTo(START, IssueToken(id, digest), s) && StepsTo(s, ActivateToken(id, session), u)
      && StepsTo(u, EnterRequest(digest, None), Busy(id, digest, session))
  {
    BusyReached(id, digest, session);
  }

  /** Two revocations of it go to sleep, the request ends and wakes them, and one of them resumes. */
  lemma HalfRevokedRun(id: string, digest: string, session: string) returns (steps: seq<Step>, systems: seq<System>)
    ensures Run(steps, systems) && systems[|steps|] == HalfRevoked(id, digest, session)
  {
    var r := Revoker(id, digest, id, None);
    var once := TwiceMarked(id, digest, session).(sleeping := multiset{r});
    MiddleFour(id, digest, session);
    steps, systems := BusyRun(id, digest, session);
    hide StepsTo, Run, Busy, TwiceMarked, BothWoken, HalfRevoked;
    steps, systems := More(steps, systems, StartRevoke(id), once);
    steps, systems := More(steps, systems, StartRevoke(id), TwiceMarked(id, digest, session));
    steps, systems := More(steps, systems, LeaveRequest(id), BothWoken(id, digest, session));
    steps, systems := More(steps, systems, ResumeRevoke(r), HalfRevoked(id, digest, session));
  }

  lemma MiddleFour(id: string, digest: string, session: string)
    ensures
      var r := Revoker(id, digest, id, None);
      var once := TwiceMarked(id, digest, session).(sleeping := multiset{r});
      && StepsTo(Busy(id, digest, session), StartRevoke(id), once)
      && StepsTo(once, StartRevoke(id), TwiceMarked(id, digest, session))
      && StepsTo(TwiceMarked(id, digest, session), LeaveRequest(id), BothWoken(id, digest, session))
      && StepsTo(BothWoken(id, digest, session), ResumeRevoke(r), HalfRevoked(id, digest, session))
  {
    OnceMarkedReached(id, digest, session);
    TwiceMarkedReached(id, digest, session);
    BothWokenReached(id, digest, session);
    HalfRevokedReached(id, digest, session);
  }

  /** A run from the empty gateway: two revocations of token `a` overlap, its session name passes to token `b`
      between their ends, and the second end takes the name out of the index although `b` is active under it, so
      another token can then be activated for the same session. */
  lemma OverlapBreaksSessions(a: string, b: string, da: string, db: string, session: string)
    returns (steps: seq<Step>, systems: seq<System>)
    requires a != b && da != db
    ensures Run(steps, systems)
    ensures
      var t := systems[|steps|].t;
      && b in t.tokenIds && b in t.states && t.states[b].session == Some(session)
      && session !in t.sessions && !SessionsAgree(t)
  {
    LastThree(a, b, da, db, session);
    UnlistedReached(a, b, da, db, session);
    steps, systems := HalfRevokedRun(a, da, session);
    hide StepsTo, Run, SessionsAgree, HalfRevoked, Issued, Taken, Unlisted;
    steps, systems := More(steps, systems, IssueToken(b, db), Issued(a, b, da, db, session));
    steps, systems := More(steps, systems, ActivateToken(b, session), Taken(a, b, da, db, session));
    steps, systems := More(steps, systems, ResumeRevoke(Revoker(a, da, a, None)), Unlisted(a, b, da, db, session));
  }

  lemma LastThree(a: string, b: string, da: string, db: string, session: string)
    requires a != b && da != db
    ensures StepsTo(HalfRevoked(a, da, session), IssueToken(b, db), Issued(a, b, da, db, session))
    ensures StepsTo(Issued(a, b, da, db, session), ActivateToken(b, session), Taken(a, b, da, db, session))
    ensures StepsTo(Taken(a, b, da, db, session), ResumeRevoke(Revoker(a, da, a, None)),
                    Unlisted(a, b, da, db, session))
  {
    TakenReached(a, b, da, db, session);
    UnlistedReached(a, b, da, db, session);
  }
}
