/** The token tables of the model gateway, one function for each lock region. */
module GatewayTokens {
  import opened Options

  /** One access-state object, together with the digest that it was registered under. */
  datatype Access = Access(digest: string, session: Option<string>, active: int, revoked: bool)

  /** `tokens` goes from a token digest to its state object, `tokenIds` from a token identifier to its
      digest, `sessions` from a session to its token identifier. State objects are named by the identifier
      they were issued for and stay in `states` after they leave the tables, because a revoker may still
      hold one. */
  datatype Tables = Tables(
    tokens: map<string, string>, tokenIds: map<string, string>,
    sessions: map<string, string>, states: map<string, Access>)

  datatype Reply<+T> = Done(value: T) | Refused | Disappeared | Underflow | KeyError

  const EMPTY := Tables(map[], map[], map[], map[])

  function Issue(t: Tables, id: string, digest: string): Reply<Tables> {
    if digest in t.tokens || id in t.tokenIds then Refused
    else Done(Tables(t.tokens[digest := id], t.tokenIds[id := digest], t.sessions,
                     t.states[id := Access(digest, None, 0, false)]))
  }

  function Activate(t: Tables, id: string, session: string): Reply<Tables> {
    if id !in t.tokenIds then Refused
    else if t.tokenIds[id] !in t.tokens || t.tokens[t.tokenIds[id]] !in t.states then KeyError
    else
      var owner := t.tokens[t.tokenIds[id]];
      if t.states[owner].session.Some? || session in t.sessions then Refused
      else Done(t.(states := t.states[owner := t.states[owner].(session := Some(session))],
                   sessions := t.sessions[session := id]))
  }

  /** The tables and the token that the request runs under; refused when access is denied. */
  function Authorize(t: Tables, digest: string, expected: Option<string>): Reply<(Tables, string)> {
    if digest !in t.tokens then Refused
    else if t.tokens[digest] !in t.states then KeyError
    else
      var owner := t.tokens[digest];
      var state := t.states[owner];
      if state.session.None? || state.revoked || (expected.Some? && owner != expected.value) then Refused
      else Done((t.(states := t.states[owner := state.(active := state.active + 1)]), owner))
  }

  function Release(t: Tables, id: string): Reply<Tables> {
    if id !in t.tokenIds then Disappeared
    else if t.tokenIds[id] !in t.tokens || t.tokens[t.tokenIds[id]] !in t.states then KeyError
    else
      var owner := t.tokens[t.tokenIds[id]];
      if t.states[owner].active < 1 then Underflow
      else Done(t.(states := t.states[owner := t.states[owner].(active := t.states[owner].active - 1)]))
  }

  /** What a thread inside `revoke` holds: its arguments, the object it waits on, and the identifiers that
      the thread still has to revoke when it runs `close`. */
  datatype Revoker = Revoker(id: string, digest: string, owner: string, close: Option<seq<string>>)

  /** The first lock region of `revoke`, up to its wait: the object found, marked as revoked. */
  function Mark(t: Tables, id: string): Reply<(Tables, string)> {
    if id !in t.tokenIds then Refused
    else if t.tokenIds[id] !in t.tokens || t.tokens[t.tokenIds[id]] !in t.states then KeyError
    else
      var owner := t.tokens[t.tokenIds[id]];
      Done((t.(states := t.states[owner := t.states[owner].(revoked := true)]), owner))
  }

  /** The rest of `revoke`, once nothing is in flight. */
  function Drop(t: Tables, r: Revoker): Tables
    requires r.owner in t.states
  {
    var session := t.states[r.owner].session;
    t.(tokenIds := t.tokenIds - {r.id},
       tokens := t.tokens - {r.digest},
       sessions := if session.Some? then t.sessions - {session.value} else t.sessions)
  }

  function Cleared(t: Tables): Tables { Tables(map[], map[], map[], t.states) }

  // --- Threads ------------------------------------------------------------------------------------------

  /** The tables and every thread that is between two lock regions: requests in flight, revokers asleep in
      the wait or woken from it, and closers with what they have left to revoke. */
  datatype System = System(
    t: Tables, inside: multiset<string>,
    sleeping: multiset<Revoker>, woken: multiset<Revoker>, closing: multiset<seq<string>>)

  const START := System(EMPTY, multiset{}, multiset{}, multiset{}, multiset{})

  datatype Step =
    | IssueToken(id: string, digest: string)
    | ActivateToken(id: string, session: string)
    | EnterRequest(digest: string, expected: Option<string>)
    | LeaveRequest(id: string)
    | StartRevoke(id: string)
    | ResumeRevoke(r: Revoker)
    | StartClose(ids: seq<string>)
    | ContinueClose(ids: seq<string>)
    | FinishClose

  ghost predicate Enabled(s: System, step: Step) {
    match step
    case IssueToken(_, _) => true
    case ActivateToken(_, _) => true
    case EnterRequest(_, _) => true
    case LeaveRequest(id) => id in s.inside
    case StartRevoke(_) => true
    case ResumeRevoke(r) => r in s.woken && r.owner in s.t.states
    case StartClose(ids) => forall id :: id in ids <==> id in s.t.tokenIds
    case ContinueClose(ids) => ids != [] && ids in s.closing
    case FinishClose => [] in s.closing
  }

  /** A thread that is done with one revocation goes on closing, or leaves. */
  function Proceed(s: System, close: Option<seq<string>>): System {
    if close.Some? then s.(closing := s.closing + multiset{close.value}) else s
  }

  /** The wait loop: sleep while the object counts a request, otherwise drop the token. */
  function AwaitQuiet(s: System, r: Revoker): System
    requires r.owner in s.t.states
  {
    if s.t.states[r.owner].active != 0 then s.(sleeping := s.sleeping + multiset{r})
    else Proceed(s.(t := Drop(s.t, r)), r.close)
  }

  function Revoke(s: System, id: string, close: Option<seq<string>>): Reply<System> {
    match Mark(s.t, id)
    case Done((t, owner)) => Done(AwaitQuiet(s.(t := t), Revoker(id, s.t.tokenIds[id], owner, close)))
    case Refused => Done(Proceed(s, close))
    case Disappeared => Disappeared
    case Underflow => Underflow
    case KeyError => KeyError
  }

  /** One step of one thread. Refused calls return to their caller and change nothing. */
  ghost function Next(s: System, step: Step): Reply<System>
    requires Enabled(s, step)
  {
    match step
    case IssueToken(id, digest) => Lift(s, Issue(s.t, id, digest))
    case ActivateToken(id, session) => Lift(s, Activate(s.t, id, session))
    case EnterRequest(digest, expected) =>
      (match Authorize(s.t, digest, expected)
       case Done((t, id)) => Done(s.(t := t, inside := s.inside + multiset{id}))
       case Refused => Done(s)
       case Disappeared => Disappeared
       case Underflow => Underflow
       case KeyError => KeyError)
    case LeaveRequest(id) =>
      Lift(s.(inside := s.inside - multiset{id}, woken := s.woken + s.sleeping, sleeping := multiset{}),
          Release(s.t, id))
    case StartRevoke(id) => Revoke(s, id, None)
    case ResumeRevoke(r) => Done(AwaitQuiet(s.(woken := s.woken - multiset{r}), r))
    case StartClose(ids) => Done(s.(closing := s.closing + multiset{ids}))
    case ContinueClose(ids) => Revoke(s.(closing := s.closing - multiset{ids}), ids[0], Some(ids[1..]))
    case FinishClose => Done(s.(t := Cleared(s.t), closing := s.closing - multiset{[]}))
  }

  function Lift(s: System, r: Reply<Tables>): Reply<System> {
    match r
    case Done(t) => Done(s.(t := t))
    case Refused => Done(s)
    case Disappeared => Disappeared
    case Underflow => Underflow
    case KeyError => KeyError
  }
}
