/** Planning the recovery of an aborted pilot: what is reused, what is replaced, what is still to run. */
module EvaluationRecovery {
  import opened Ordering
  import opened Outcomes
  import opened StockControl

  /** A retained spend authorization: whether it names this campaign, transport and manifest. */
  datatype SpendRow = SpendRow(identityAgrees: bool, status: string)

  datatype Spend = NoAuthority | Issued | Consumed

  /** The terminal bundle that the trusted resolver finds on the local disk, if any. */
  datatype Terminal = NoTerminal | Terminal(identityAgrees: bool, complete: bool, used: int, failure: string)

  /** What the source run left about one request. `Untouched` is a request without a ledger row. */
  datatype Observation = Observation(
    status: Status, spend: seq<SpendRow>, resolves: bool, terminal: Terminal, maximum: int)

  datatype Planned = Planned(digest: string, key: string, campaign: string, seen: Observation)

  /** One route; `foreign` tells of ledger rows that its manifest does not plan. */
  datatype Route = Route(id: string, adapter: string, foreign: bool, requests: seq<Planned>)

  datatype Action = ReuseVerified | ReplaceEnvironmentRejected | ExecuteMissing

  datatype Entry = Entry(route: string, adapter: string, request: Planned, action: Action)

  /** A row of the sealed inventory, beside its digest. */
  datatype Sealed = Sealed(key: string, campaign: string, route: string)

  // --- One request ----------------------------------------------------------------------------------------

  predicate OccursAt(text: string, part: string, i: nat) { i + |part| <= |text| && text[i..i + |part|] == part }

  predicate Contains(text: string, part: string) { exists i :: 0 <= i <= |text| && OccursAt(text, part, i) }

  function SpendStatus(rows: seq<SpendRow>): Outcome<Spend> {
    if rows == [] then Done(NoAuthority)
    else if |rows| != 1 || !rows[0].identityAgrees then Refused
    else if rows[0].status == "issued" then Done(Issued)
    else if rows[0].status == "consumed" then Done(Consumed)
    else Refused
  }

  /** The terminal evidence of a dispatched call, found locally. */
  function ClassifyTerminal(o: Observation): Outcome<Action> {
    match o.terminal
    case NoTerminal => Refused
    case Terminal(identityAgrees, complete, used, failure) =>
      if !identityAgrees || !(0 <= used <= o.maximum) then Refused
      else if complete then Done(ReuseVerified)
      else if Contains(failure, "driver_version differs") then Done(ReplaceEnvironmentRejected)
      else Refused
  }

  function Classify(o: Observation): Outcome<Action> {
    var spend := SpendStatus(o.spend);
    if spend.Refused? then Refused
    else if o.status == Untouched || o.status == Registered then
      if spend.value == Consumed then Refused else Done(ExecuteMissing)
    else if o.status == Complete then
      if spend.value == Consumed && o.resolves then Done(ReuseVerified) else Refused
    else if o.status == Dispatched then
      if spend.value == Consumed then ClassifyTerminal(o) else Refused
    else Refused
  }

  // --- The plan -------------------------------------------------------------------------------------------

  function RouteEntries(r: Route, n: nat): (es: seq<Entry>)
    requires n <= |r.requests|
    ensures |es| == n
  {
    if n == 0 then []
    else
      var q := r.requests[n - 1];
      var action := if Classify(q.seen).Done? then Classify(q.seen).value else ExecuteMissing;
      RouteEntries(r, n - 1) + [Entry(r.id, r.adapter, q, action)]
  }

  function Entries(routes: seq<Route>): seq<Entry> {
    if routes == [] then []
    else
      var last := routes[|routes| - 1];
      Entries(routes[..|routes| - 1]) + RouteEntries(last, |last.requests|)
  }

  predicate RouteClassified(r: Route, n: nat)
    requires n <= |r.requests|
  {
    !r.foreign && forall i :: 0 <= i < n ==> Classify(r.requests[i].seen).Done?
  }

  predicate Classified(routes: seq<Route>) {
    forall i :: 0 <= i < |routes| ==> RouteClassified(routes[i], |routes[i].requests|)
  }

  function SealOf(e: Entry): Field<Sealed> {
    Field(e.request.digest, Sealed(e.request.key, e.request.campaign, e.route))
  }

  function Seals(es: seq<Entry>): seq<Field<Sealed>> { seq(|es|, i requires 0 <= i < |es| => SealOf(es[i])) }

  /** `plan_evaluation_recovery`: the nested loops over routes and their planned requests, then the match
      with the sealed inventory, whose rows are read in the order of their digests. */
  method PlanRecovery(routes: seq<Route>, rows: seq<Field<Sealed>>) returns (r: Outcome<seq<Entry>>)
    ensures r.Done? <==> Classified(routes) && Sort(Seals(Entries(routes))) == rows
    ensures r.Done? ==> r.value == Entries(routes)
  {
    hide Classify, Sort, SealOf;
    var entries: seq<Entry> := [];
    for i := 0 to |routes|
      invariant Classified(routes[..i]) && entries == Entries(routes[..i])
    {
      var route := routes[i];
      assert routes[..i + 1][..i] == routes[..i];
      if route.foreign { return Refused; }
      for j := 0 to |route.requests|
        invariant entries == Entries(routes[..i]) + RouteEntries(route, j)
        invariant RouteClassified(route, j)
      {
        var request := route.requests[j];
        var action := Classify(request.seen);
        if action.Refused? { return Refused; }
        entries := entries + [Entry(route.id, route.adapter, request, action.value)];
      }
    }
    assert routes[..|routes|] == routes;
    if Sort(Seals(entries)) != rows { return Refused; }
    return Done(entries);
  }

  // --- What an accepted plan says ---------------------------------------------------------------------------

  predicate Unconsumed(o: Observation) {
    SpendStatus(o.spend) == Done(NoAuthority) || SpendStatus(o.spend) == Done(Issued)
  }

  /** A classified request is to be executed exactly when its authority was not consumed, is to be replaced
      exactly when its call ended in a retained rejection by the environment, and is reused otherwise. */
  lemma ActionsDecide(o: Observation)
    requires Classify(o).Done?
    ensures Classify(o).value == ExecuteMissing <==> Unconsumed(o)
    ensures Classify(o).value == ReplaceEnvironmentRejected <==>
      o.status == Dispatched && o.terminal.Terminal? && !o.terminal.complete && o.terminal.identityAgrees
    ensures Classify(o).value == ReplaceEnvironmentRejected ==> Contains(o.terminal.failure, "driver_version differs")
    ensures Classify(o).value == ReuseVerified ==>
      (o.status == Complete && o.resolves) || (o.status == Dispatched && o.terminal.Terminal? && o.terminal.complete)
  {}

  lemma {:induction false} RouteEntryAt(r: Route, n: nat, i: nat)
    requires i < n <= |r.requests| && RouteClassified(r, n)
    ensures
      var e := RouteEntries(r, n)[i];
      e.route == r.id && e.adapter == r.adapter && e.request == r.requests[i]
      && Classify(e.request.seen) == Done(e.action)
    decreases n
  {
    assert Classify(r.requests[n - 1].seen).Done?;
    if i < n - 1 { RouteEntryAt(r, n - 1, i); }
  }

  lemma {:induction false} EntriesAreClassified(routes: seq<Route>, i: nat)
    requires Classified(routes) && i < |Entries(routes)|
    ensures Classify(Entries(routes)[i].request.seen) == Done(Entries(routes)[i].action)
    decreases |routes|
  {
    var init, last := routes[..|routes| - 1], routes[|routes| - 1];
    assert RouteClassified(last, |last.requests|);
    assert forall k :: 0 <= k < |init| ==> init[k] == routes[k];
    if i < |Entries(init)| {
      EntriesAreClassified(init, i);
    } else {
      RouteEntryAt(last, |last.requests|, i - |Entries(init)|);
    }
  }

  /** An accepted plan gives every request of the sealed inventory exactly one entry, under its own route,
      and has no other entries. */
  lemma EveryRequestOnce(routes: seq<Route>, rows: seq<Field<Sealed>>, row: Field<Sealed>) returns (i: nat)
    requires KeySorted(rows) && Sort(Seals(Entries(routes))) == rows && row in rows
    ensures i < |Entries(routes)| == |rows| && SealOf(Entries(routes)[i]) == row
    ensures forall j :: 0 <= j < |Entries(routes)| && Entries(routes)[j].request.digest == row.key ==> j == i
  {
    var es := Entries(routes);
    SortElements(Seals(es));
    assert row in Seals(es);
    i :| 0 <= i < |es| && Seals(es)[i] == row;
    SortedBack(Seals(es));
    forall j | 0 <= j < |es| && j != i ensures es[j].request.digest != row.key {
      assert Seals(es)[i].key == es[i].request.digest && Seals(es)[j].key == es[j].request.digest;
    }
  }

  /** Sorting only yields distinct keys from distinct keys. */
  lemma {:induction false} SortedBack(s: seq<Field<Sealed>>)
    requires KeySorted(Sort(s))
    ensures UniqueKeys(s)
    decreases |s|
  {
    if s != [] {
      var t := Sort(s[1..]);
      InsertedBack(s[0], t);
      SortedBack(s[1..]);
      SortElements(s[1..]);
      forall j | 1 <= j < |s| ensures s[0].key != s[j].key {
        assert s[1..][j - 1] in s[1..];
        assert s[j] in t;
      }
    }
  }

  lemma {:induction false} InsertedBack(f: Field<Sealed>, t: seq<Field<Sealed>>)
    requires KeySorted(Insert(f, t))
    ensures KeySorted(t) && forall g :: g in t ==> g.key != f.key
    decreases |t|
  {
    if t != [] {
      var u := Insert(f, t);
      if Below(t[0].key, f.key) {
        var rest := Insert(f, t[1..]);
        assert u == [t[0]] + rest && u[1..] == rest;
        InsertedBack(f, t[1..]);
        InsertElements(f, t[1..]);
        forall j | 1 <= j < |t| ensures Below(t[0].key, t[j].key) {
          assert t[1..][j - 1] in rest;
          var k :| 0 <= k < |rest| && rest[k] == t[j];
          assert u[k + 1] == t[j] && Below(u[0].key, u[k + 1].key);
        }
        BelowIrreflexive(f.key);
        assert t == [t[0]] + t[1..];
      } else {
        assert u == [f] + t && u[1..] == t;
        BelowIrreflexive(f.key);
        forall j | 0 <= j < |t| ensures t[j].key != f.key {
          assert u[j + 1] == t[j] && Below(u[0].key, u[j + 1].key);
        }
      }
    }
  }

  // --- Each action, by its evidence ---------------------------------------------------------------------------

  /** The one authorization of a request that was consumed, or issued and not consumed, under this very identity. */
  predicate AuthorizedAs(o: Observation, status: string) {
    |o.spend| == 1 && o.spend[0].identityAgrees && o.spend[0].status == status
  }

  predicate NeverConsumed(o: Observation) { o.spend == [] || AuthorizedAs(o, "issued") }

  /** A call whose local terminal evidence is its own and within its allowance. */
  predicate EndedLocally(o: Observation) {
    o.status == Dispatched && o.terminal.Terminal? && o.terminal.identityAgrees && 0 <= o.terminal.used <= o.maximum
  }

  /** A request is classified if and only if its evidence is of one of four kinds, and each kind has its action: not
      started and not consumed, to be executed; complete, resolved and consumed, or ended locally in success and
      consumed, to be reused; ended locally in the environment's rejection and consumed, to be replaced. Everything
      else stops the plan. */
  lemma {:induction false} ClassifiedExactly(o: Observation)
    ensures Classify(o) == Done(ExecuteMissing) <==>
      (o.status == Untouched || o.status == Registered) && NeverConsumed(o)
    ensures Classify(o) == Done(ReuseVerified) <==>
      && AuthorizedAs(o, "consumed")
      && ((o.status == Complete && o.resolves) || (EndedLocally(o) && o.terminal.complete))
    ensures Classify(o) == Done(ReplaceEnvironmentRejected) <==>
      && AuthorizedAs(o, "consumed") && EndedLocally(o) && !o.terminal.complete
      && Contains(o.terminal.failure, "driver_version differs")
  {}
}
