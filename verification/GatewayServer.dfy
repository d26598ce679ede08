/** The gateway object: its dictionaries, and its lock regions as the statements that the source runs. */
module GatewayServer {
  import opened GatewayTokens
  import opened Options

  function After(t: Tables, r: Reply<Tables>): Tables { if r.Done? then r.value else t }

  function Status<T>(r: Reply<T>): Reply<()> {
    match r
    case Done(_) => Done(())
    case Refused => Refused
    case Disappeared => Disappeared
    case Underflow => Underflow
    case KeyError => KeyError
  }

  class Gateway {
    var tokens: map<string, string>
    var tokenIds: map<string, string>
    var sessions: map<string, string>
    var states: map<string, Access>

    constructor ()
      ensures View() == EMPTY
    {
      tokens, tokenIds, sessions, states := map[], map[], map[], map[];
    }

    function View(): Tables reads this { Tables(tokens, tokenIds, sessions, states) }

    method IssueToken(id: string, digest: string) returns (r: Reply<()>)
      modifies this
      ensures r == Status(Issue(old(View()), id, digest))
      ensures View() == After(old(View()), Issue(old(View()), id, digest))
    {
      if digest in tokens || id in tokenIds { return Refused; }
      states := states[id := Access(digest, None, 0, false)];
      tokens := tokens[digest := id];
      tokenIds := tokenIds[id := digest];
      return Done(());
    }

    method ActivateToken(id: string, session: string) returns (r: Reply<()>)
      modifies this
      ensures r == Status(Activate(old(View()), id, session))
      ensures View() == After(old(View()), Activate(old(View()), id, session))
    {
      if id !in tokenIds { return Refused; }
      var digest := tokenIds[id];
      if digest !in tokens || tokens[digest] !in states { return KeyError; }
      var owner := tokens[digest];
      if states[owner].session.Some? || session in sessions { return Refused; }
      states := states[owner := states[owner].(session := Some(session))];
      sessions := sessions[session := id];
      return Done(());
    }

    method AuthorizeRequest(digest: string, expected: Option<string>) returns (r: Reply<string>)
      modifies this
      ensures
        var spec := Authorize(old(View()), digest, expected);
        && Status(r) == Status(spec)
        && (r.Done? ==> r.value == spec.value.1)
        && View() == if spec.Done? then spec.value.0 else old(View())
    {
      if digest !in tokens { return Refused; }
      var owner := tokens[digest];
      if owner !in states { return KeyError; }
      var state := states[owner];
      if state.session.None? || state.revoked || (expected.Some? && owner != expected.value) { return Refused; }
      states := states[owner := state.(active := state.active + 1)];
      return Done(owner);
    }

    method ReleaseRequest(id: string) returns (r: Reply<()>)
      modifies this
      ensures r == Status(Release(old(View()), id))
      ensures View() == After(old(View()), Release(old(View()), id))
    {
      if id !in tokenIds { return Disappeared; }
      var digest := tokenIds[id];
      if digest !in tokens || tokens[digest] !in states { return KeyError; }
      var owner := tokens[digest];
      if states[owner].active < 1 { return Underflow; }
      states := states[owner := states[owner].(active := states[owner].active - 1)];
      return Done(());
    }

    /** `revoke` up to its wait, or to its end when nothing is in flight: `waits` tells which. */
    method BeginRevoke(id: string) returns (r: Reply<Revoker>, waits: bool)
      modifies this
      ensures Status(r) == Status(Mark(old(View()), id))
      ensures r.Done? ==>
        var marked := Mark(old(View()), id).value;
        && r.value == Revoker(id, old(View()).tokenIds[id], marked.1, None)
        && waits == (marked.0.states[marked.1].active != 0)
        && View() == if waits then marked.0 else Drop(marked.0, r.value)
      ensures !r.Done? ==> View() == old(View())
    {
      waits := false;
      if id !in tokenIds { return Refused, false; }
      var digest := tokenIds[id];
      if digest !in tokens || tokens[digest] !in states { return KeyError, false; }
      var owner := tokens[digest];
      states := states[owner := states[owner].(revoked := true)];
      var revoker := Revoker(id, digest, owner, None);
      waits := states[owner].active != 0;
      if !waits { DropToken(revoker); }
      return Done(revoker), waits;
    }

    method DropToken(r: Revoker)
      requires r.owner in states
      modifies this
      ensures View() == Drop(old(View()), r)
    {
      tokenIds := tokenIds - {r.id};
      tokens := tokens - {r.digest};
      if states[r.owner].session.Some? { sessions := sessions - {states[r.owner].session.value}; }
    }

    /** `revoke` after a wakeup. */
    method ContinueRevoke(r: Revoker) returns (waits: bool)
      requires r.owner in states
      modifies this
      ensures waits == (old(states)[r.owner].active != 0)
      ensures View() == if waits then old(View()) else Drop(old(View()), r)
    {
      waits := states[r.owner].active != 0;
      if !waits { DropToken(r); }
    }

    /** The last region of `close`. */
    method ClearTables()
      modifies this
      ensures View() == Cleared(old(View()))
    {
      tokens, tokenIds, sessions := map[], map[], map[];
    }
  }
}
