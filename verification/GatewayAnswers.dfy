/** What the token tables answer: who is admitted, on which transport, and from when until when. */
module GatewayAnswers {
  import opened GatewayRuns
  import opened GatewayTokens
  import opened ModelGateway
  import opened Options

  /** A token that is registered under `digest`, has a session and is not being revoked. */
  predicate Live(t: Tables, id: string, digest: string) {
    id in t.tokenIds && t.tokenIds[id] == digest && id in t.states && t.states[id].session.Some?
        && !t.states[id].revoked
  }

  /** Over tables whose indices agree: a request is admitted if and only if its digest is that of a live token, and
      it came over the open port or over this token's own transport; it then runs under that token, which counts
      one more request and changes in nothing else. */
  lemma {:induction false} AdmittedExactly(t: Tables, digest: string, expected: Option<string>, id: string)
    requires IndicesAgree(t)
    ensures
      var r := Authorize(t, digest, expected);
      && (r.Done? || r == Refused)
      && (r.Done? && r.value.1 == id <==> Live(t, id, digest) && (expected.None? || expected.value == id))
      && (r.Done? ==>
            Live(t, r.value.1, digest)
            && var (u, owner) := r.value;
               u == t.(states := t.states[owner := t.states[owner].(active := t.states[owner].active + 1)]))
  {
    assert DigestAgrees(t, digest) && IdAgrees(t, id);
    if digest in t.tokens { assert IdAgrees(t, t.tokens[digest]); }
  }

  /** At every moment of every run, a live token is admitted on the open port and on its own transport and on no
      other, and a digest that is unknown, or whose token has no session or is being revoked, is admitted on none. */
  lemma {:induction false} AdmittedOnOwnTransport(steps: seq<Step>, systems: seq<System>, i: nat, digest: string,
      id: string,
      other: string)
    requires Run(steps, systems) && i < |systems| && other != id
    ensures
      var t := systems[i].t;
      && (Live(t, id, digest) ==>
            && Authorize(t, digest, None).Done? && Authorize(t, digest, None).value.1 == id
            && Authorize(t, digest, Some(id)).Done? && Authorize(t, digest, Some(id)).value.1 == id
            && Authorize(t, digest, Some(other)) == Refused)
      && (digest !in t.tokens ==> Authorize(t, digest, None) == Refused)
      && (id in t.tokenIds ==> id in t.states)
      && (id in t.tokenIds && (t.states[id].session.None? || t.states[id].revoked) ==>
            Authorize(t, t.tokenIds[id], None) == Refused && Authorize(t, t.tokenIds[id], Some(id)) == Refused)
  {
    RunSafe(steps, systems, i);
    var t := systems[i].t;
    AdmittedExactly(t, digest, None, id);
    AdmittedExactly(t, digest, Some(id), id);
    assert IdAgrees(t, id) && DigestAgrees(t, digest);
  }

  /** A token is registered if and only if neither its identifier nor its digest is; one with no session is
      activated under any session that is not in use, and once only. */
  lemma {:induction false} RegisteredExactly(t: Tables, id: string, digest: string, session: string)
    requires IndicesAgree(t)
    ensures id in t.tokenIds ==> id in t.states
    ensures Issue(t, id, digest).Done? <==> digest !in t.tokens && id !in t.tokenIds
    ensures Issue(t, id, digest).Done? || Issue(t, id, digest) == Refused
    ensures Activate(t, id, session).Done? <==>
      id in t.tokenIds && t.states[id].session.None? && session !in t.sessions
    ensures Activate(t, id, session).Done? || Activate(t, id, session) == Refused
    ensures Activate(t, id, session).Done? ==>
      var u := Activate(t, id, session).value;
      && u.sessions == t.sessions[session := id] && u.tokens == t.tokens && u.tokenIds == t.tokenIds
      && u.states == t.states[id := t.states[id].(session := Some(session))]
      && Activate(u, id, session) == Refused
  {
    assert IdAgrees(t, id);
  }

  /** The life of a token: denied until it is activated, admitted from then until its revocation begins, and denied
      from there on, before the revocation's wait is over and after it. */
  lemma {:induction false} TokenLife(t: Tables, id: string, digest: string, session: string, expected: Option<string>)
    requires IndicesAgree(t) && id !in t.states && digest !in t.tokens && session !in t.sessions
    requires expected.None? || expected.value == id
    ensures Issue(t, id, digest).Done? && Authorize(Issue(t, id, digest).value, digest, expected) == Refused
    ensures
      var active := Activate(Issue(t, id, digest).value, id, session);
      && active.Done? && Authorize(active.value, digest, expected).Done?
      && Authorize(active.value, digest, expected).value.1 == id
    ensures
      var marked := Mark(Activate(Issue(t, id, digest).value, id, session).value, id);
      && marked.Done? && marked.value.1 == id && id in marked.value.0.states
      && Authorize(marked.value.0, digest, expected) == Refused
    ensures
      var gone := Drop(Mark(Activate(Issue(t, id, digest).value, id, session).value, id).value.0,
          Revoker(id, digest, id, None));
      Authorize(gone, digest, expected) == Refused && id !in gone.tokenIds && session !in gone.sessions
  {
    assert IdAgrees(t, id);
  }

  /** Releasing counts a request out, and Python's two errors are for a token that is gone or that counts none. */
  lemma {:induction false} ReleasedExactly(t: Tables, id: string)
    requires IndicesAgree(t)
    ensures
      var r := Release(t, id);
      && (id in t.tokenIds ==> id in t.states)
      && (id !in t.tokenIds ==> r == Disappeared)
      && (id in t.tokenIds && t.states[id].active < 1 ==> r == Underflow)
      && (id in t.tokenIds && t.states[id].active >= 1 ==>
            r == Done(t.(states := t.states[id := t.states[id].(active := t.states[id].active - 1)])))
  {
    assert IdAgrees(t, id);
  }
}
