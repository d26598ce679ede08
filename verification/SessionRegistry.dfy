/** The registry that binds local transports to campaign sessions. */
module SessionRegistry {

  datatype Reply<+T> = Done(value: T) | Refused | Inconsistent

  datatype Context = Context(campaign: string, actor: string, session: string)

  /** A transport carries an identity object; `address` is what `id` says of it, which a later object may
      have again once this one is gone. */
  datatype Transport = Transport(identity: nat, address: nat)

  datatype Binding = Binding(identity: nat, context: Context)

  /** `issued` counts the identity objects made so far, so that each has its own number. */
  datatype Registry = Registry(
    bindings: map<nat, Binding>, sessions: map<string, (string, nat)>, workspaces: map<nat, string>, issued: nat)

  const EMPTY := Registry(map[], map[], map[], 0)

  predicate Bound(r: Registry, t: Transport) { t.address in r.bindings && r.bindings[t.address].identity == t.identity }

  /** Objects that are alive at once have different addresses, and bound identities are alive. */
  function Bind(r: Registry, c: Context, address: nat): Reply<(Registry, Transport)> {
    var grown := r.(issued := r.issued + 1);
    if c.session in r.sessions then Refused
    else Done((grown.(bindings := r.bindings[address := Binding(r.issued, c)],
                      sessions := r.sessions[c.session := (c.actor, address)]),
               Transport(r.issued, address)))
  }

  function Resolve(r: Registry, t: Transport): Reply<Context> {
    if Bound(r, t) then Done(r.bindings[t.address].context) else Refused
  }

  function Assign(r: Registry, t: Transport, root: string): Reply<Registry> {
    if !Bound(r, t) then Refused
    else if t.address in r.workspaces && r.workspaces[t.address] != root then Refused
    else Done(r.(workspaces := r.workspaces[t.address := root]))
  }

  function Workspace(r: Registry, t: Transport): Reply<string> {
    if Bound(r, t) && t.address in r.workspaces then Done(r.workspaces[t.address]) else Refused
  }

  function Revoke(r: Registry, t: Transport): Reply<Registry> {
    if !Bound(r, t) then Refused
    else
      var c := r.bindings[t.address].context;
      if c.session !in r.sessions || r.sessions[c.session] != (c.actor, t.address) then Inconsistent
      else Done(r.(bindings := r.bindings - {t.address},
                   sessions := r.sessions - {c.session},
                   workspaces := r.workspaces - {t.address}))
  }

  // --- The invariant ------------------------------------------------------------------------------------

  predicate BindingAgrees(r: Registry, address: nat) {
    address in r.bindings ==>
      var b := r.bindings[address];
      b.identity < r.issued && b.context.session in r.sessions
          && r.sessions[b.context.session] == (b.context.actor, address)
  }

  predicate SessionAgrees(r: Registry, session: string) {
    session in r.sessions ==>
      var (actor, address) := r.sessions[session];
      address in r.bindings && r.bindings[address].context.session == session
          && r.bindings[address].context.actor == actor
  }

  /** The two indices are mutual inverses, and only bound transports have workspaces. */
  ghost predicate Inv(r: Registry) {
    && (forall address :: BindingAgrees(r, address))
    && (forall session :: SessionAgrees(r, session))
    && r.workspaces.Keys <= r.bindings.Keys
  }

  lemma {:induction false} BindKeeps(r: Registry, c: Context, address: nat)
    requires Inv(r) && address !in r.bindings && Bind(r, c, address).Done?
    ensures Inv(Bind(r, c, address).value.0)
  {
    var u := Bind(r, c, address).value.0;
    forall a ensures BindingAgrees(u, a) { assert BindingAgrees(r, a); }
    forall s ensures SessionAgrees(u, s) { assert SessionAgrees(r, s); }
  }

  lemma {:induction false} AssignKeeps(r: Registry, t: Transport, root: string)
    requires Inv(r) && Assign(r, t, root).Done?
    ensures Inv(Assign(r, t, root).value)
  {
    var u := Assign(r, t, root).value;
    forall a ensures BindingAgrees(u, a) { assert BindingAgrees(r, a); }
    forall s ensures SessionAgrees(u, s) { assert SessionAgrees(r, s); }
  }

  /** The "index is inconsistent" error is unreachable: a bound transport can always be revoked. */
  lemma {:induction false} RevokeKeeps(r: Registry, t: Transport)
    requires Inv(r)
    ensures Revoke(r, t).Done? <==> Bound(r, t)
    ensures Revoke(r, t) != Inconsistent
    ensures Revoke(r, t).Done? ==> Inv(Revoke(r, t).value) && !Bound(Revoke(r, t).value, t)
  {
    assert BindingAgrees(r, t.address);
    if Bound(r, t) {
      var u := Revoke(r, t).value;
      var gone := r.bindings[t.address].context.session;
      forall a ensures BindingAgrees(u, a) {
        assert BindingAgrees(r, a) && SessionAgrees(r, gone);
      }
      forall s ensures SessionAgrees(u, s) {
        assert SessionAgrees(r, s);
      }
    }
  }

  // --- Runs ---------------------------------------------------------------------------------------------

  datatype Event =
    | BindSession(c: Context, address: nat)
    | AssignRoot(t: Transport, root: string)
    | RevokeTransport(t: Transport)

  function Answer(r: Registry, e: Event): Reply<Registry> {
    match e
    case BindSession(c, address) =>
      (match Bind(r, c, address) case Done((u, _)) => Done(u) case Refused => Refused case Inconsistent => Inconsistent)
    case AssignRoot(t, root) => Assign(r, t, root)
    case RevokeTransport(t) => Revoke(r, t)
  }

  function After(r: Registry, e: Event): Registry { if Answer(r, e).Done? then Answer(r, e).value else r }

  predicate Run(events: seq<Event>, states: seq<Registry>) {
    && |states| == |events| + 1 && states[0] == EMPTY
    && forall i :: 0 <= i < |events| ==>
         (events[i].BindSession? ==> events[i].address !in states[i].bindings)
             && states[i + 1] == After(states[i], events[i])
  }

  lemma {:induction false} StepKeeps(r: Registry, e: Event)
    requires Inv(r) && (e.BindSession? ==> e.address !in r.bindings)
    ensures Inv(After(r, e)) && Answer(r, e) != Inconsistent
  {
    match e
    case BindSession(c, address) => if Bind(r, c, address).Done? { BindKeeps(r, c, address); }
    case AssignRoot(t, root) => if Assign(r, t, root).Done? { AssignKeeps(r, t, root); }
    case RevokeTransport(t) => RevokeKeeps(r, t);
  }

  /** The indices stay mutual inverses throughout, and no call ever meets them otherwise. */
  lemma {:induction false} RunKeeps(events: seq<Event>, states: seq<Registry>, i: nat)
    requires Run(events, states) && i < |states|
    ensures Inv(states[i])
    ensures i < |events| ==> Answer(states[i], events[i]) != Inconsistent
    decreases i
  {
    if i == 0 {
      forall a ensures BindingAgrees(EMPTY, a) {}
      forall s ensures SessionAgrees(EMPTY, s) {}
    } else {
      RunKeeps(events, states, i - 1);
      StepKeeps(states[i - 1], events[i - 1]);
    }
    if i < |events| { StepKeeps(states[i], events[i]); }
  }

  /** The identity was made, and no binding holds it. */
  predicate Gone(r: Registry, identity: nat) {
    identity < r.issued && forall a :: a in r.bindings ==> r.bindings[a].identity != identity
  }

  lemma {:induction false} StepKeepsGone(r: Registry, e: Event, identity: nat)
    requires Gone(r, identity)
    ensures Gone(After(r, e), identity)
  {}

  predicate SoleIdentity(r: Registry, a: nat, b: nat) {
    a in r.bindings && b in r.bindings && r.bindings[a].identity == r.bindings[b].identity ==> a == b
  }

  ghost predicate IdentitiesDiffer(r: Registry) { forall a, b :: SoleIdentity(r, a, b) }

  lemma {:induction false} StepKeepsIdentities(r: Registry, e: Event)
    requires Inv(r) && IdentitiesDiffer(r)
    ensures IdentitiesDiffer(After(r, e))
  {
    var u := After(r, e);
    forall a, b ensures SoleIdentity(u, a, b) {
      assert SoleIdentity(r, a, b) && BindingAgrees(r, a) && BindingAgrees(r, b);
    }
  }

  lemma {:induction false} RunIdentities(events: seq<Event>, states: seq<Registry>, i: nat)
    requires Run(events, states) && i < |states|
    ensures IdentitiesDiffer(states[i])
    decreases i
  {
    if i == 0 {
      forall a, b ensures SoleIdentity(EMPTY, a, b) {}
    } else {
      RunIdentities(events, states, i - 1);
      RunKeeps(events, states, i - 1);
      StepKeepsIdentities(states[i - 1], events[i - 1]);
    }
  }

  lemma {:induction false} GoneStaysGone(events: seq<Event>, states: seq<Registry>, i: nat, j: nat, identity: nat)
    requires Run(events, states) && i <= j < |states| && Gone(states[i], identity)
    ensures Gone(states[j], identity)
    decreases j
  {
    if i < j {
      GoneStaysGone(events, states, i, j - 1, identity);
      StepKeepsGone(states[j - 1], events[j - 1], identity);
    }
  }

  /** A revoked transport never resolves again, even when a later identity is given its address. */
  lemma {:induction false} RevokedNeverResolves(events: seq<Event>, states: seq<Registry>, i: nat, j: nat, t: Transport)
    requires Run(events, states) && i < |events| && i < j < |states|
    requires events[i] == RevokeTransport(t) && Bound(states[i], t)
    ensures Resolve(states[j], t) == Refused && Workspace(states[j], t) == Refused
  {
    RunKeeps(events, states, i);
    RunIdentities(events, states, i);
    RevokeKeeps(states[i], t);
    assert BindingAgrees(states[i], t.address);
    var after := states[i + 1].bindings;
    forall a | a in after ensures after[a].identity != t.identity {
      assert SoleIdentity(states[i], a, t.address);
    }
    GoneStaysGone(events, states, i + 1, j, t.identity);
  }

  // --- The object -----------------------------------------------------------------------------------------

  class SessionIdentities {
    var bindings: map<nat, Binding>
    var sessions: map<string, (string, nat)>
    var workspaces: map<nat, string>
    var issued: nat

    constructor ()
      ensures View() == EMPTY
    {
      bindings, sessions, workspaces, issued := map[], map[], map[], 0;
    }

    function View(): Registry reads this { Registry(bindings, sessions, workspaces, issued) }

    method BindTransport(c: Context, address: nat) returns (r: Reply<Transport>)
      modifies this
      ensures
        var spec := Bind(old(View()), c, address);
        && (r.Done? <==> spec.Done?) && r != Inconsistent
        && (spec.Done? ==> r.value == spec.value.1 && View() == spec.value.0)
        && (!spec.Done? ==> View() == old(View()).(issued := old(issued) + 1))
    {
      var transport := Transport(issued, address);
      issued := issued + 1;
      if c.session in sessions { return Refused; }
      bindings := bindings[address := Binding(transport.identity, c)];
      sessions := sessions[c.session := (c.actor, address)];
      return Done(transport);
    }

    method AssignWorkspace(t: Transport, root: string) returns (ok: bool)
      modifies this
      ensures ok <==> Assign(old(View()), t, root).Done?
      ensures View() == if ok then Assign(old(View()), t, root).value else old(View())
    {
      if t.address !in bindings || bindings[t.address].identity != t.identity { return false; }
      if t.address in workspaces && workspaces[t.address] != root { return false; }
      workspaces := workspaces[t.address := root];
      return true;
    }

    method RevokeBinding(t: Transport) returns (r: Reply<()>)
      modifies this
      ensures match Revoke(old(View()), t)
        case Done(u) => r == Done(()) && View() == u
        case Refused => r == Refused && View() == old(View())
        case Inconsistent => r == Inconsistent && View() == old(View())
    {
      if t.address !in bindings || bindings[t.address].identity != t.identity { return Refused; }
      var c := bindings[t.address].context;
      if c.session !in sessions || sessions[c.session] != (c.actor, t.address) { return Inconsistent; }
      bindings := bindings - {t.address};
      sessions := sessions - {c.session};
      workspaces := workspaces - {t.address};
      return Done(());
    }
  }

  // --- The life of a binding --------------------------------------------------------------------------------------

  /** A session is bound if and only if it is not bound yet. From then on its transport, and no other, resolves to
      its context; it takes one workspace, again any number of times but never another one; and once revoked it
      resolves to nothing and has no workspace, and its session can be bound again. */
  lemma {:induction false} BindingLife(r: Registry, c: Context, address: nat, root: string, other: string, t: Transport)
    requires Inv(r) && address !in r.bindings && root != other
    ensures Bind(r, c, address).Done? <==> c.session !in r.sessions
    ensures Bind(r, c, address).Done? ==>
      var u := Bind(r, c, address).value.0;
      var mine := Bind(r, c, address).value.1;
      && Resolve(u, mine) == Done(c) && Workspace(u, mine) == Refused
      && Bind(u, c, address + 1) == Refused
      && (t != mine && Bound(u, t) ==> Resolve(u, t) == Resolve(r, t))
  {
    assert BindingAgrees(r, address);
  }

  lemma {:induction false} WorkspaceLife(r: Registry, t: Transport, root: string, other: string)
    requires Inv(r) && Bound(r, t) && t.address !in r.workspaces && root != other
    ensures
      var after := Assign(r, t, root);
      && after.Done? && Workspace(after.value, t) == Done(root)
      && Assign(after.value, t, root) == after && Assign(after.value, t, other) == Refused
  {
    assert r.workspaces[t.address := root][t.address := root] == r.workspaces[t.address := root];
  }

  lemma {:induction false} RevokedLife(r: Registry, t: Transport, c: Context, root: string)
    requires Inv(r) && Resolve(r, t) == Done(c)
    ensures
      var gone := Revoke(r, t);
      && gone.Done? && Resolve(gone.value, t) == Refused && Workspace(gone.value, t) == Refused
      && Assign(gone.value, t, root) == Refused && Revoke(gone.value, t) == Refused
      && Bind(gone.value, c, t.address).Done?
  {
    assert BindingAgrees(r, t.address);
  }
}
