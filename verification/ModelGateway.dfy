/** Safety of the token protocol under every interleaving of its lock regions. */
module ModelGateway {
  import opened GatewayTokens
  import opened Options

  // --- The invariant --------------------------------------------------------------------------------------

  predicate IdAgrees(t: Tables, id: string) {
    id in t.tokenIds ==>
      && t.tokenIds[id] in t.tokens && t.tokens[t.tokenIds[id]] == id
      && id in t.states && t.states[id].digest == t.tokenIds[id]
  }

  predicate DigestAgrees(t: Tables, digest: string) {
    digest in t.tokens ==> t.tokens[digest] in t.tokenIds && t.tokenIds[t.tokens[digest]] == digest
  }

  /** The two token indices are mutual inverses and reach live objects. */
  ghost predicate IndicesAgree(t: Tables) {
    (forall id :: IdAgrees(t, id)) && (forall digest :: DigestAgrees(t, digest))
  }

  predicate Differ(states: map<string, Access>, x: string, y: string) {
    x in states && y in states && states[x].digest == states[y].digest ==> x == y
  }

  /** No two objects were ever issued under one digest. */
  ghost predicate DigestsDiffer(states: map<string, Access>) { forall x, y :: Differ(states, x, y) }

  predicate CountAgrees(states: map<string, Access>, inside: multiset<string>, id: string) {
    if id in states then states[id].active == inside[id] else inside[id] == 0
  }

  /** Every object counts exactly the requests inside its token. */
  ghost predicate CountsAgree(states: map<string, Access>, inside: multiset<string>) {
    forall id :: CountAgrees(states, inside, id)
  }

  /** Only registered tokens have requests in flight. */
  ghost predicate InsideRegistered(t: Tables, inside: multiset<string>) {
    forall id :: id in inside ==> id in t.tokenIds
  }

  /** A revoker holds the object that it marked. */
  predicate Holds(states: map<string, Access>, r: Revoker) {
    r.owner == r.id && r.id in states && states[r.id].revoked && states[r.id].digest == r.digest
  }

  ghost predicate AllHold(states: map<string, Access>, revokers: multiset<Revoker>) {
    forall r :: r in revokers ==> Holds(states, r)
  }

  /** A revoker that sleeps waits for a request that is really there. */
  ghost predicate AllWait(states: map<string, Access>, sleeping: multiset<Revoker>) {
    forall r :: r in sleeping ==> Holds(states, r) && states[r.id].active > 0
  }

  ghost predicate Inv(s: System) {
    && IndicesAgree(s.t) && DigestsDiffer(s.t.states)
    && CountsAgree(s.t.states, s.inside) && InsideRegistered(s.t, s.inside)
    && AllHold(s.t.states, s.woken) && AllWait(s.t.states, s.sleeping)
  }

  predicate UnusedDigest(states: map<string, Access>, digest: string) {
    forall id :: id in states ==> states[id].digest != digest
  }

  /** Random identifiers: a token is issued under an identifier and a digest never issued before. */
  predicate Fresh(t: Tables, step: Step) {
    step.IssueToken? ==> step.id !in t.states && UnusedDigest(t.states, step.digest)
  }

  /** Closing is quiet when it clears tables that nothing is in flight on. */
  predicate QuietClose(s: System, step: Step) { step.FinishClose? ==> s.inside == multiset{} }

  // --- Updating one object ------------------------------------------------------------------------------------

  function With(t: Tables, id: string, a: Access): Tables { t.(states := t.states[id := a]) }

  lemma WithIndices(t: Tables, id: string, a: Access)
    requires IndicesAgree(t) && DigestsDiffer(t.states) && id in t.states && a.digest == t.states[id].digest
    ensures IndicesAgree(With(t, id, a)) && DigestsDiffer(With(t, id, a).states)
  {
    var u := With(t, id, a);
    forall x ensures IdAgrees(u, x) { assert IdAgrees(t, x); }
    forall digest ensures DigestAgrees(u, digest) { assert DigestAgrees(t, digest); }
    forall x, y ensures Differ(u.states, x, y) { assert Differ(t.states, x, y); }
  }

  lemma WithHolds(states: map<string, Access>, id: string, a: Access, revokers: multiset<Revoker>)
    requires AllHold(states, revokers)
    requires id in states ==> a.digest == states[id].digest && (states[id].revoked ==> a.revoked)
    ensures AllHold(states[id := a], revokers)
  {}

  lemma WithWaits(states: map<string, Access>, id: string, a: Access, sleeping: multiset<Revoker>)
    requires AllWait(states, sleeping)
    requires id in states ==>
      a.digest == states[id].digest && (states[id].revoked ==> a.revoked) && (states[id].active > 0 ==> a.active > 0)
    ensures AllWait(states[id := a], sleeping)
  {}

  lemma WithCounts(states: map<string, Access>, inside: multiset<string>, id: string, a: Access,
      after: multiset<string>)
    requires CountsAgree(states, inside) && after[id] == a.active
    requires forall x :: x != id ==> after[x] == inside[x]
    ensures CountsAgree(states[id := a], after)
  {
    var updated := states[id := a];
    forall x ensures CountAgrees(updated, after, x) { assert CountAgrees(states, inside, x); }
  }

  // --- Preservation ---------------------------------------------------------------------------------------

  /** The lookup that every region makes finds the object itself. */
  lemma Lookup(t: Tables, id: string)
    requires IndicesAgree(t) && id in t.tokenIds
    ensures t.tokenIds[id] in t.tokens && t.tokens[t.tokenIds[id]] == id
    ensures id in t.states && t.states[id].digest == t.tokenIds[id]
  {
    assert IdAgrees(t, id);
  }

  lemma IssueTables(t: Tables, id: string, digest: string)
    requires IndicesAgree(t) && DigestsDiffer(t.states) && Fresh(t, IssueToken(id, digest))
    ensures digest !in t.tokens && id !in t.tokenIds
    ensures IndicesAgree(Issue(t, id, digest).value) && DigestsDiffer(Issue(t, id, digest).value.states)
  {
    assert IdAgrees(t, id) && DigestAgrees(t, digest);
    if digest in t.tokens { Lookup(t, t.tokens[digest]); }
    var u := Issue(t, id, digest).value;
    forall x ensures IdAgrees(u, x) { assert IdAgrees(t, x); }
    forall x ensures DigestAgrees(u, x) { assert DigestAgrees(t, x); }
    forall x, y ensures Differ(u.states, x, y) { assert Differ(t.states, x, y); }
  }

  lemma IssueKeeps(s: System, id: string, digest: string)
    requires Inv(s) && Fresh(s.t, IssueToken(id, digest))
    ensures Next(s, IssueToken(id, digest)).Done? && Inv(Next(s, IssueToken(id, digest)).value)
  {
    IssueTables(s.t, id, digest);
    var a := Access(digest, None, 0, false);
    assert CountAgrees(s.t.states, s.inside, id);
    WithCounts(s.t.states, s.inside, id, a, s.inside);
    WithHolds(s.t.states, id, a, s.woken);
    WithWaits(s.t.states, id, a, s.sleeping);
  }

  /** Regions that change one object without touching its count or clearing its mark. */
  lemma MarkKeeps(s: System, id: string, a: Access)
    requires Inv(s) && id in s.t.states
    requires a.digest == s.t.states[id].digest && a.active == s.t.states[id].active
        && (s.t.states[id].revoked ==> a.revoked)
    ensures Inv(s.(t := With(s.t, id, a)))
  {
    WithIndices(s.t, id, a);
    assert CountAgrees(s.t.states, s.inside, id);
    WithCounts(s.t.states, s.inside, id, a, s.inside);
    WithHolds(s.t.states, id, a, s.woken);
    WithWaits(s.t.states, id, a, s.sleeping);
  }

  lemma ActivateKeeps(s: System, id: string, session: string)
    requires Inv(s)
    ensures Next(s, ActivateToken(id, session)).Done? && Inv(Next(s, ActivateToken(id, session)).value)
  {
    if id in s.t.tokenIds {
      Lookup(s.t, id);
      if Activate(s.t, id, session).Done? {
        var a := s.t.states[id].(session := Some(session));
        MarkKeeps(s, id, a);
        SessionsApart(With(s.t, id, a), s.t.sessions[session := id]);
      }
    }
  }

  lemma SessionsApart(t: Tables, sessions: map<string, string>)
    requires IndicesAgree(t)
    ensures IndicesAgree(t.(sessions := sessions))
  {
    var u := t.(sessions := sessions);
    forall x ensures IdAgrees(u, x) { assert IdAgrees(t, x); }
    forall x ensures DigestAgrees(u, x) { assert DigestAgrees(t, x); }
  }

  lemma EnterKeeps(s: System, digest: string, expected: Option<string>)
    requires Inv(s)
    ensures Next(s, EnterRequest(digest, expected)).Done? && Inv(Next(s, EnterRequest(digest, expected)).value)
  {
    if digest in s.t.tokens {
      assert DigestAgrees(s.t, digest);
      var id := s.t.tokens[digest];
      Lookup(s.t, id);
      if Authorize(s.t, digest, expected).Done? {
        var a := s.t.states[id].(active := s.t.states[id].active + 1);
        WithIndices(s.t, id, a);
        assert CountAgrees(s.t.states, s.inside, id);
        WithCounts(s.t.states, s.inside, id, a, s.inside + multiset{id});
        WithHolds(s.t.states, id, a, s.woken);
        WithWaits(s.t.states, id, a, s.sleeping);
      }
    }
  }

  lemma LeaveKeeps(s: System, id: string)
    requires Inv(s) && id in s.inside
    ensures Next(s, LeaveRequest(id)).Done? && Inv(Next(s, LeaveRequest(id)).value)
  {
    Lookup(s.t, id);
    assert CountAgrees(s.t.states, s.inside, id);
    var a := s.t.states[id].(active := s.t.states[id].active - 1);
    WithIndices(s.t, id, a);
    WithCounts(s.t.states, s.inside, id, a, s.inside - multiset{id});
    assert AllHold(s.t.states, s.woken + s.sleeping);
    WithHolds(s.t.states, id, a, s.woken + s.sleeping);
  }

  lemma DropIndices(t: Tables, r: Revoker)
    requires IndicesAgree(t) && DigestsDiffer(t.states) && Holds(t.states, r)
    ensures IndicesAgree(Drop(t, r))
  {
    var u := Drop(t, r);
    forall id ensures IdAgrees(u, id) {
      assert IdAgrees(t, id) && Differ(t.states, id, r.id);
    }
    forall digest ensures DigestAgrees(u, digest) {
      assert DigestAgrees(t, digest);
      if digest in t.tokens { Lookup(t, t.tokens[digest]); assert Differ(t.states, t.tokens[digest], r.id); }
    }
  }

  lemma AwaitKeeps(s: System, r: Revoker)
    requires Inv(s) && Holds(s.t.states, r)
    ensures Inv(AwaitQuiet(s, r))
  {
    assert CountAgrees(s.t.states, s.inside, r.id);
    if s.t.states[r.id].active == 0 { DropIndices(s.t, r); }
  }

  lemma RevokeKeeps(s: System, id: string, close: Option<seq<string>>)
    requires Inv(s)
    ensures Revoke(s, id, close).Done? && Inv(Revoke(s, id, close).value)
  {
    if id in s.t.tokenIds {
      assert IdAgrees(s.t, id);
      var a := s.t.states[id].(revoked := true);
      MarkKeeps(s, id, a);
      AwaitKeeps(s.(t := With(s.t, id, a)), Revoker(id, s.t.tokenIds[id], id, close));
    }
  }

  lemma FinishKeeps(s: System)
    requires Inv(s) && s.inside == multiset{}
    ensures Inv(s.(t := Cleared(s.t)))
  {
    forall x ensures IdAgrees(Cleared(s.t), x) {}
    forall x ensures DigestAgrees(Cleared(s.t), x) {}
  }

  /** No step of any thread reaches the "token disappeared" or "underflow" errors, or misses an object in
      the tables, and every step keeps the invariant. */
  lemma StepKeeps(s: System, step: Step)
    requires Inv(s) && Enabled(s, step) && Fresh(s.t, step) && QuietClose(s, step)
    ensures Next(s, step).Done? && Inv(Next(s, step).value)
  {
    match step {
      case IssueToken(id, digest) => IssueKeeps(s, id, digest);
      case ActivateToken(id, session) => ActivateKeeps(s, id, session);
      case EnterRequest(digest, expected) => EnterKeeps(s, digest, expected);
      case LeaveRequest(id) => LeaveKeeps(s, id);
      case StartRevoke(id) => RevokeKeeps(s, id, None);
      case ResumeRevoke(r) => AwaitKeeps(s.(woken := s.woken - multiset{r}), r);
      case StartClose(ids) =>
      case ContinueClose(ids) => RevokeKeeps(s.(closing := s.closing - multiset{ids}), ids[0], Some(ids[1..]));
      case FinishClose => FinishKeeps(s);
    }
  }
}
