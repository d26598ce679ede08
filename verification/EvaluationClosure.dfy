/** Closing a candidate pilot: the reconciliation of frozen requests, receipts, reservations and use. */
module EvaluationClosure {
  import opened Options
  import opened Outcomes

  datatype Scope = Visible | Hidden

  datatype Allocation = Allocation(actor: string, limit: int)

  datatype Plan = Plan(campaign: string, organisationLimit: int, allocations: seq<Allocation>, hiddenLimit: int)

  datatype Candidate = Candidate(reservation: string, owner: string, artifact: string)

  datatype Request = Request(digest: string, campaign: string, scope: Scope, reservation: string, candidate: string,
      maximum: int)

  datatype Receipt = Receipt(digest: string, complete: bool, used: Option<int>)

  /** One frozen manifest and what its backend resolves: `enabled` and `profileAgrees` are the two checks
      on the manifest itself. */
  datatype Source = Source(enabled: bool, profileAgrees: bool, requests: seq<Request>, resolved: seq<Receipt>)

  datatype Accounting = Accounting(
    organisationLimit: int, allComplete: bool, actorUsed: map<string, int>, released: set<string>, hiddenUsed: int)

  /** Everything that the registry, the broker and the backends answer. */
  datatype Evidence = Evidence(candidates: seq<Candidate>, accounting: Accounting, sources: seq<Source>)

  // --- The plan -----------------------------------------------------------------------------------------

  function Actors(allocations: seq<Allocation>): set<string> { set a | a in allocations :: a.actor }

  function SumLimits(allocations: seq<Allocation>): int {
    if allocations == [] then 0
    else SumLimits(allocations[..|allocations| - 1]) + allocations[|allocations| - 1].limit
  }

  predicate DistinctActors(allocations: seq<Allocation>) {
    forall i, j :: 0 <= i < j < |allocations| ==> allocations[i].actor != allocations[j].actor
  }

  /** What `ComputePlan` checks: the actors are distinct and their limits partition the organisation's. */
  predicate PlanValid(p: Plan) {
    && p.allocations != [] && DistinctActors(p.allocations)
    && (forall a :: a in p.allocations ==> a.limit >= 1)
    && SumLimits(p.allocations) == p.organisationLimit
    && p.organisationLimit >= 1 && p.hiddenLimit >= 1
  }

  // --- Lookup tables ------------------------------------------------------------------------------------

  /** A dictionary comprehension: a repeated key keeps its last item. */
  function CandidateMap(candidates: seq<Candidate>): map<string, Candidate> {
    if candidates == [] then map[]
    else
      var last := candidates[|candidates| - 1];
      CandidateMap(candidates[..|candidates| - 1])[last.reservation := last]
  }

  function RequestMap(requests: seq<Request>): map<string, Request> {
    if requests == [] then map[]
    else
      var last := requests[|requests| - 1];
      RequestMap(requests[..|requests| - 1])[last.digest := last]
  }

  function Digests(receipts: seq<Receipt>): set<string> { set r | r in receipts :: r.digest }

  /** The frozen requests of a source and its receipts name the same executions, as often. */
  predicate SourceAgrees(s: Source) {
    && s.enabled && s.profileAgrees && s.requests != []
    && |s.resolved| == |RequestMap(s.requests)|
    && Digests(s.resolved) == RequestMap(s.requests).Keys
  }

  // --- Executions -----------------------------------------------------------------------------------------

  datatype Execution = Execution(request: Request, receipt: Receipt)

  const NO_REQUEST := Request("", "", Hidden, "", "", 0)

  function ExecutionOf(s: Source, r: Receipt): Execution {
    var requests := RequestMap(s.requests);
    Execution(if r.digest in requests then requests[r.digest] else NO_REQUEST, r)
  }

  function SourceExecutions(s: Source, n: nat): (xs: seq<Execution>)
    requires n <= |s.resolved|
    ensures |xs| == n && forall i :: 0 <= i < n ==> xs[i] == ExecutionOf(s, s.resolved[i])
  {
    if n == 0 then [] else SourceExecutions(s, n - 1) + [ExecutionOf(s, s.resolved[n - 1])]
  }

  function Executions(sources: seq<Source>): seq<Execution> {
    if sources == [] then []
    else
      var last := sources[|sources| - 1];
      Executions(sources[..|sources| - 1]) + SourceExecutions(last, |last.resolved|)
  }

  datatype Kind = Public | HiddenRun | Reference | Outside

  function KindOf(campaign: string, r: Request): Kind {
    if r.campaign == campaign then if r.scope == Visible then Public else HiddenRun
    else if r.campaign == "registered-reference" && r.scope == Visible then Reference
    else Outside
  }

  /** What the checks look executions up in. */
  datatype Context = Context(campaign: string, candidates: map<string, Candidate>)

  predicate IsPublic(c: Context, x: Execution) { KindOf(c.campaign, x.request) == Public }

  predicate Sound(c: Context, x: Execution) {
    && x.receipt.complete && x.receipt.used.Some? && x.receipt.used.value <= x.request.maximum
    && KindOf(c.campaign, x.request) != Outside
    && (IsPublic(c, x) ==>
          && x.request.reservation in c.candidates
          && x.request.candidate == "sha256:" + c.candidates[x.request.reservation].artifact)
  }

  predicate Apart(c: Context, x: Execution, y: Execution) {
    && x.receipt.digest != y.receipt.digest
    && (IsPublic(c, x) && IsPublic(c, y) ==> x.request.reservation != y.request.reservation)
  }

  /** Every execution is sound, none is counted twice, and no reservation is run twice in public. */
  predicate Admissible(c: Context, xs: seq<Execution>) {
    && (forall i :: 0 <= i < |xs| ==> Sound(c, xs[i]))
    && (forall i, j :: 0 <= i < j < |xs| ==> Apart(c, xs[i], xs[j]))
  }

  function Used(x: Execution): int { if x.receipt.used.Some? then x.receipt.used.value else 0 }

  predicate OwnedBy(c: Context, x: Execution, actor: string) {
    IsPublic(c, x) && x.request.reservation in c.candidates && c.candidates[x.request.reservation].owner == actor
  }

  function PublicUse(c: Context, xs: seq<Execution>, actor: string): int {
    if xs == [] then 0
    else
      var last := xs[|xs| - 1];
      PublicUse(c, xs[..|xs| - 1], actor) + if OwnedBy(c, last, actor) then Used(last) else 0
  }

  function TotalUse(c: Context, xs: seq<Execution>, kind: Kind): int {
    if xs == [] then 0
    else
      var last := xs[|xs| - 1];
      TotalUse(c, xs[..|xs| - 1], kind) + if KindOf(c.campaign, last.request) == kind then Used(last) else 0
  }

  function References(c: Context, xs: seq<Execution>): nat {
    if xs == [] then 0
    else
      var last := xs[|xs| - 1];
      References(c, xs[..|xs| - 1]) + if KindOf(c.campaign, last.request) == Reference then 1 else 0
  }

  function RunInPublic(c: Context, xs: seq<Execution>): set<string> {
    set x | x in xs && IsPublic(c, x) :: x.request.reservation
  }

  function SumUsed(allocations: seq<Allocation>, used: map<string, int>): int {
    if allocations == [] then 0
    else
      var last := allocations[|allocations| - 1];
      SumUsed(allocations[..|allocations| - 1], used) + if last.actor in used then used[last.actor] else 0
  }

  // --- Acceptance ---------------------------------------------------------------------------------------------

  function Owners(candidates: seq<Candidate>): set<string> { set c | c in candidates :: c.owner }

  /** The checks before the executions are looked at. */
  predicate RosterAgrees(p: Plan, e: Evidence) {
    && |e.candidates| == |Actors(p.allocations)| && Owners(e.candidates) == Actors(p.allocations)
    && e.accounting.organisationLimit == p.organisationLimit && e.accounting.allComplete
    && e.accounting.actorUsed.Keys == Actors(p.allocations)
    && e.accounting.released == Actors(p.allocations)
    && (forall a :: a in p.allocations ==>
         a.actor in e.accounting.actorUsed && e.accounting.actorUsed[a.actor] <= a.limit)
    && e.accounting.hiddenUsed <= p.hiddenLimit
  }

  function ContextOf(campaign: string, e: Evidence): Context { Context(campaign, CandidateMap(e.candidates)) }

  predicate SourcesAgree(sources: seq<Source>) { forall i :: 0 <= i < |sources| ==> SourceAgrees(sources[i]) }

  predicate ActorAgrees(c: Context, e: Evidence, xs: seq<Execution>, actor: string) {
    actor in e.accounting.actorUsed && PublicUse(c, xs, actor) == e.accounting.actorUsed[actor]
  }

  /** What the executions add up to is what was accounted for. */
  predicate UseAgrees(p: Plan, c: Context, e: Evidence, xs: seq<Execution>) {
    && References(c, xs) == 1
    && RunInPublic(c, xs) == c.candidates.Keys
    && (forall a :: a in p.allocations ==> ActorAgrees(c, e, xs, a.actor))
    && TotalUse(c, xs, Public) == SumUsed(p.allocations, e.accounting.actorUsed)
    && TotalUse(c, xs, HiddenRun) == e.accounting.hiddenUsed
  }

  predicate Accepted(p: Plan, campaign: string, e: Evidence) {
    var c, xs := ContextOf(campaign, e), Executions(e.sources);
    && campaign == p.campaign && RosterAgrees(p, e)
    && SourcesAgree(e.sources) && Admissible(c, xs)
    && UseAgrees(p, c, e, xs)
  }

  // --- The reconciliation --------------------------------------------------------------------------------------

  lemma AdmissibleNext(c: Context, xs: seq<Execution>, x: Execution)
    requires Admissible(c, xs)
    ensures Admissible(c, xs + [x]) <==>
      && Sound(c, x) && x.receipt.digest !in (set y | y in xs :: y.receipt.digest)
      && (IsPublic(c, x) ==> x.request.reservation !in RunInPublic(c, xs))
  {
    var next := xs + [x];
    assert next[|xs|] == x;
    if Admissible(c, next) {
      forall y | y in xs ensures Apart(c, y, x) {
        var i :| 0 <= i < |xs| && xs[i] == y;
        assert Apart(c, next[i], next[|xs|]);
      }
    }
    if Sound(c, x) && x.receipt.digest !in (set y | y in xs :: y.receipt.digest)
      && (IsPublic(c, x) ==> x.request.reservation !in RunInPublic(c, xs))
    {
      forall i | 0 <= i < |xs| ensures Apart(c, next[i], x) { assert xs[i] in xs; }
    }
  }

  lemma {:induction false} ExecutionsPrefix(sources: seq<Source>, n: nat)
    requires n <= |sources|
    ensures Executions(sources[..n]) <= Executions(sources)
    decreases |sources|
  {
    if n < |sources| {
      var init := sources[..|sources| - 1];
      ExecutionsPrefix(init, n);
      assert init[..n] == sources[..n];
    } else {
      assert sources[..n] == sources;
    }
  }

  /** The running totals of the loops, as a value: what they are after the executions `xs`. */
  datatype Tally = Tally(
    seen: set<string>, seenPublic: set<string>, usage: map<string, int>,
    publicSeconds: int, hiddenSeconds: int, references: nat, receipts: seq<Receipt>)

  function Receipts(xs: seq<Execution>): seq<Receipt> { seq(|xs|, i requires 0 <= i < |xs| => xs[i].receipt) }

  ghost predicate Tallied(p: Plan, c: Context, xs: seq<Execution>, t: Tally) {
    && t.seen == (set x | x in xs :: x.receipt.digest)
    && t.seenPublic == RunInPublic(c, xs)
    && t.usage.Keys == Actors(p.allocations)
    && (forall actor :: actor in t.usage ==> t.usage[actor] == PublicUse(c, xs, actor))
    && t.publicSeconds == TotalUse(c, xs, Public)
    && t.hiddenSeconds == TotalUse(c, xs, HiddenRun)
    && t.references == References(c, xs)
    && t.receipts == Receipts(xs)
  }

  /** The body of the inner loop: one receipt against its request. */
  method Account(p: Plan, c: Context, ghost xs: seq<Execution>, x: Execution, t: Tally) returns (r: Outcome<Tally>)
    requires Admissible(c, xs) && Tallied(p, c, xs, t)
    requires forall id :: id in c.candidates ==> c.candidates[id].owner in Actors(p.allocations)
    ensures r.Done? <==> Admissible(c, xs + [x])
    ensures r.Done? ==> Tallied(p, c, xs + [x], r.value)
  {
    AdmissibleNext(c, xs, x);
    assert (xs + [x])[..|xs|] == xs;
    if x.receipt.digest in t.seen { return Refused; }
    if !x.receipt.complete || x.receipt.used.None? || x.receipt.used.value > x.request.maximum { return Refused; }
    var used := x.receipt.used.value;
    var u := t.(seen := t.seen + {x.receipt.digest}, receipts := t.receipts + [x.receipt]);
    match KindOf(c.campaign, x.request) {
      case Outside => return Refused;
      case Reference => u := u.(references := u.references + 1);
      case HiddenRun => u := u.(hiddenSeconds := u.hiddenSeconds + used);
      case Public =>
        var id := x.request.reservation;
        if id !in c.candidates || id in t.seenPublic || x.request.candidate != "sha256:" + c.candidates[id].artifact {
          return Refused;
        }
        var owner := c.candidates[id].owner;
        u := u.(seenPublic := u.seenPublic + {id}, usage := u.usage[owner := u.usage[owner] + used],
                publicSeconds := u.publicSeconds + used);
    }
    return Done(u);
  }

  lemma {:induction false} CandidateMapFrom(candidates: seq<Candidate>, id: string)
    requires id in CandidateMap(candidates)
    ensures CandidateMap(candidates)[id] in candidates && CandidateMap(candidates)[id].reservation == id
  {
    var last := candidates[|candidates| - 1];
    if id != last.reservation { CandidateMapFrom(candidates[..|candidates| - 1], id); }
  }

  lemma NextSource(sources: seq<Source>, n: nat)
    requires n < |sources|
    ensures Executions(sources[..n + 1]) ==
        Executions(sources[..n]) + SourceExecutions(sources[n], |sources[n].resolved|)
  {
    assert sources[..n + 1][..n] == sources[..n];
  }

  lemma RefusedNext(c: Context, xs: seq<Execution>, all: seq<Execution>)
    requires xs <= all && !Admissible(c, xs)
    ensures !Admissible(c, all)
  {
    assert xs == all[..|xs|];
  }

  lemma TalliedNone(p: Plan, c: Context)
    ensures Tallied(p, c, [], Tally({}, {}, map actor | actor in Actors(p.allocations) :: 0, 0, 0, 0, []))
  {}

  lemma NextAgrees(sources: seq<Source>, n: nat)
    requires n < |sources|
    ensures SourcesAgree(sources[..n + 1]) <==> SourcesAgree(sources[..n]) && SourceAgrees(sources[n])
    ensures SourcesAgree(sources) ==> SourceAgrees(sources[n])
  {}

  /** The inner loop: the receipts of one source. */
  method AccountSource(p: Plan, c: Context, s: Source, ghost before: seq<Execution>,
      t: Tally) returns (r: Outcome<Tally>)
    requires forall id :: id in c.candidates ==> c.candidates[id].owner in Actors(p.allocations)
    requires Admissible(c, before) && Tallied(p, c, before, t)
    ensures r.Done? <==> Admissible(c, before + SourceExecutions(s, |s.resolved|))
    ensures r.Done? ==> Tallied(p, c, before + SourceExecutions(s, |s.resolved|), r.value)
  {
    var u := t;
    ghost var all := before + SourceExecutions(s, |s.resolved|);
    assert before + SourceExecutions(s, 0) == before;
    for k := 0 to |s.resolved|
      invariant Admissible(c, before + SourceExecutions(s, k))
      invariant Tallied(p, c, before + SourceExecutions(s, k), u)
    {
      ghost var xs := before + SourceExecutions(s, k);
      var x := ExecutionOf(s, s.resolved[k]);
      assert xs + [x] == before + SourceExecutions(s, k + 1);
      assert xs + [x] == all[..|xs| + 1];
      var next := Account(p, c, xs, x, u);
      if next.Refused? {
        RefusedNext(c, xs + [x], all);
        return Refused;
      }
      u := next.value;
    }
    return Done(u);
  }

  /** The outer loop over the sources. */
  method AccountAll(p: Plan, c: Context, sources: seq<Source>) returns (r: Outcome<Tally>)
    requires forall id :: id in c.candidates ==> c.candidates[id].owner in Actors(p.allocations)
    ensures r.Done? <==> SourcesAgree(sources) && Admissible(c, Executions(sources))
    ensures r.Done? ==> Tallied(p, c, Executions(sources), r.value)
  {
    var t := Tally({}, {}, map actor | actor in Actors(p.allocations) :: 0, 0, 0, 0, []);
    TalliedNone(p, c);
    for n := 0 to |sources|
      invariant SourcesAgree(sources[..n])
      invariant Admissible(c, Executions(sources[..n])) && Tallied(p, c, Executions(sources[..n]), t)
    {
      NextAgrees(sources, n);
      if !SourceAgrees(sources[n]) { return Refused; }
      NextSource(sources, n);
      var next := AccountSource(p, c, sources[n], Executions(sources[..n]), t);
      if next.Refused? {
        RefusedPrefix(c, sources, n + 1);
        return Refused;
      }
      t := next.value;
    }
    assert sources[..|sources|] == sources;
    return Done(t);
  }

  lemma RefusedPrefix(c: Context, sources: seq<Source>, n: nat)
    requires n <= |sources| && !Admissible(c, Executions(sources[..n]))
    ensures !Admissible(c, Executions(sources))
  {
    ExecutionsPrefix(sources, n);
    var xs, all := Executions(sources[..n]), Executions(sources);
    RefusedNext(c, xs, all);
  }

  /** `reconcile`. */
  method Reconcile(p: Plan, campaign: string, e: Evidence) returns (r: Outcome<seq<Receipt>>)
    ensures r.Done? <==> Accepted(p, campaign, e)
    ensures r.Done? ==> r.value == Receipts(Executions(e.sources))
  {
    if campaign != p.campaign || !RosterAgrees(p, e) { return Refused; }
    var c := ContextOf(campaign, e);
    forall id | id in c.candidates ensures c.candidates[id].owner in Actors(p.allocations) {
      CandidateMapFrom(e.candidates, id);
      assert c.candidates[id].owner in Owners(e.candidates);
    }
    var accounted := AccountAll(p, c, e.sources);
    if accounted.Refused? { return Refused; }
    var t := accounted.value;
    ghost var xs := Executions(e.sources);
    assert t.usage == e.accounting.actorUsed
      <==> forall a :: a in p.allocations ==> ActorAgrees(c, e, xs, a.actor) by {
      UsageEqual(p, c, e, xs, t);
    }
    if t.references != 1 { return Refused; }
    if t.seenPublic != c.candidates.Keys || t.usage != e.accounting.actorUsed { return Refused; }
    if t.publicSeconds != SumUsed(p.allocations, e.accounting.actorUsed) || t.hiddenSeconds != e.accounting.hiddenUsed {
      return Refused;
    }
    return Done(t.receipts);
  }

  lemma UsageEqual(p: Plan, c: Context, e: Evidence, xs: seq<Execution>, t: Tally)
    requires Tallied(p, c, xs, t) && e.accounting.actorUsed.Keys == Actors(p.allocations)
    ensures t.usage == e.accounting.actorUsed <==> forall a :: a in p.allocations ==> ActorAgrees(c, e, xs, a.actor)
  {
    var used := e.accounting.actorUsed;
    if t.usage == used {
      forall a | a in p.allocations ensures ActorAgrees(c, e, xs, a.actor) { assert a.actor in Actors(p.allocations); }
    }
    if forall a :: a in p.allocations ==> ActorAgrees(c, e, xs, a.actor) {
      forall actor | actor in t.usage ensures t.usage[actor] == used[actor] {
        var a :| a in p.allocations && a.actor == actor;
        assert ActorAgrees(c, e, xs, a.actor);
      }
    }
  }

  // --- What acceptance implies -----------------------------------------------------------------------------------

  lemma {:induction false} SumBounded(allocations: seq<Allocation>, used: map<string, int>)
    requires forall a :: a in allocations ==> a.actor in used && used[a.actor] <= a.limit
    ensures SumUsed(allocations, used) <= SumLimits(allocations)
  {
    if allocations != [] {
      var last := allocations[|allocations| - 1];
      assert last in allocations;
      SumBounded(allocations[..|allocations| - 1], used);
    }
  }

  /** All the digests that the sources froze. */
  function Frozen(sources: seq<Source>): set<string> {
    if sources == [] then {}
    else Frozen(sources[..|sources| - 1]) + RequestMap(sources[|sources| - 1].requests).Keys
  }

  function ReceiptDigests(xs: seq<Execution>): set<string> { set x | x in xs :: x.receipt.digest }

  lemma SourceDigests(s: Source)
    requires SourceAgrees(s)
    ensures ReceiptDigests(SourceExecutions(s, |s.resolved|)) == RequestMap(s.requests).Keys
  {
    var xs := SourceExecutions(s, |s.resolved|);
    forall d | d in Digests(s.resolved) ensures d in ReceiptDigests(xs) {
      var r :| r in s.resolved && r.digest == d;
      var i :| 0 <= i < |s.resolved| && s.resolved[i] == r;
      assert xs[i] in xs;
    }
    forall d | d in ReceiptDigests(xs) ensures d in Digests(s.resolved) {
      var x :| x in xs && x.receipt.digest == d;
      assert x.receipt in s.resolved;
    }
  }

  lemma {:induction false} ReceiptsCoverFrozen(sources: seq<Source>)
    requires SourcesAgree(sources)
    ensures ReceiptDigests(Executions(sources)) == Frozen(sources)
  {
    if sources != [] {
      var init, last := sources[..|sources| - 1], sources[|sources| - 1];
      ReceiptsCoverFrozen(init);
      SourceDigests(last);
      var a, b := Executions(init), SourceExecutions(last, |last.resolved|);
      assert ReceiptDigests(a + b) == ReceiptDigests(a) + ReceiptDigests(b);
    }
  }

  /** An accepted closure accounts for every frozen execution once and stays within every limit: its
      receipts are pairwise distinct and are exactly the requests that the sources froze, one of them is
      the reference, each actor's public executions add up to what was accounted to it and stay within its
      allowance, and so do public use as a whole and hidden use. */
  lemma AcceptedConserves(p: Plan, campaign: string, e: Evidence)
    requires PlanValid(p) && Accepted(p, campaign, e)
    ensures
      var c, xs := ContextOf(campaign, e), Executions(e.sources);
      && (forall i, j :: 0 <= i < j < |xs| ==> Receipts(xs)[i].digest != Receipts(xs)[j].digest)
      && ReceiptDigests(xs) == Frozen(e.sources)
      && References(c, xs) == 1
      && (forall a :: a in p.allocations ==>
            ActorAgrees(c, e, xs, a.actor) && PublicUse(c, xs, a.actor) <= a.limit)
      && TotalUse(c, xs, Public) <= p.organisationLimit
      && TotalUse(c, xs, HiddenRun) <= p.hiddenLimit
  {
    var c, xs := ContextOf(campaign, e), Executions(e.sources);
    ReceiptsCoverFrozen(e.sources);
    SumBounded(p.allocations, e.accounting.actorUsed);
    forall i, j | 0 <= i < j < |xs| ensures Receipts(xs)[i].digest != Receipts(xs)[j].digest {
      assert Apart(c, xs[i], xs[j]);
    }
  }

  // --- What acceptance means, execution by execution ---------------------------------------------------------

  /** What the checks demand of one execution: it completed, used no more than its frozen request allows, is one of
      the campaign or a visible one of the registered reference, and if it is a visible one of the campaign it ran
      the artifact of the candidate under its reservation. */
  predicate Completed(campaign: string, candidates: map<string, Candidate>, x: Execution) {
    && x.receipt.complete && x.receipt.used.Some? && x.receipt.used.value <= x.request.maximum
    && (x.request.campaign == campaign || (x.request.campaign == "registered-reference" && x.request.scope == Visible))
    && (x.request.campaign == campaign && x.request.scope == Visible ==>
          && x.request.reservation in candidates
          && x.request.candidate == "sha256:" + candidates[x.request.reservation].artifact)
  }

  predicate Separate(campaign: string, x: Execution, y: Execution) {
    && x.receipt.digest != y.receipt.digest
    && (x.request.campaign == y.request.campaign == campaign && x.request.scope == y.request.scope == Visible ==>
          x.request.reservation != y.request.reservation)
  }

  /** Executions are admissible if and only if each of them meets those demands and no two share a request digest
      or, both being public, a reservation. */
  lemma {:induction false} AdmissibleExactly(c: Context, xs: seq<Execution>)
    ensures Admissible(c, xs) <==>
      && (forall i :: 0 <= i < |xs| ==> Completed(c.campaign, c.candidates, xs[i]))
      && (forall i, j :: 0 <= i < j < |xs| ==> Separate(c.campaign, xs[i], xs[j]))
  {
    forall i | 0 <= i < |xs| ensures Sound(c, xs[i]) <==> Completed(c.campaign, c.candidates, xs[i]) {}
    forall i, j | 0 <= i < j < |xs| ensures Apart(c, xs[i], xs[j]) <==> Separate(c.campaign, xs[i], xs[j]) {}
  }

  lemma {:induction false} RequestMapFrom(requests: seq<Request>, digest: string)
    requires digest in RequestMap(requests)
    ensures RequestMap(requests)[digest] in requests && RequestMap(requests)[digest].digest == digest
  {
    var last := requests[|requests| - 1];
    if digest != last.digest { RequestMapFrom(requests[..|requests| - 1], digest); }
  }

  /** Where a receipt of a source is among all executions. */
  lemma {:induction false} ExecutionAt(sources: seq<Source>, n: nat, k: nat) returns (i: nat)
    requires n < |sources| && k < |sources[n].resolved|
    ensures i < |Executions(sources)| && Executions(sources)[i] == ExecutionOf(sources[n], sources[n].resolved[k])
    decreases |sources|
  {
    var init, last := sources[..|sources| - 1], sources[|sources| - 1];
    if n < |sources| - 1 {
      i := ExecutionAt(init, n, k);
    } else {
      i := |Executions(init)| + k;
    }
  }

  predicate FrozenAs(s: Source, r: Receipt, q: Request) { q in s.requests && q.digest == r.digest }

  /** When a closure is accepted every receipt of every source is of a completed execution with a stated use, and
      that use is within a request that its own source froze under its digest. */
  lemma {:induction false} EveryReceiptCompleted(p: Plan, campaign: string, e: Evidence, n: nat, k: nat)
    returns (q: Request)
    requires Accepted(p, campaign, e) && n < |e.sources| && k < |e.sources[n].resolved|
    ensures
      var r := e.sources[n].resolved[k];
      && r.complete && r.used.Some? && r.used.value <= q.maximum && FrozenAs(e.sources[n], r, q)
      && RequestMap(e.sources[n].requests)[r.digest] == q
  {
    var c, xs, s := ContextOf(campaign, e), Executions(e.sources), e.sources[n];
    var i := ExecutionAt(e.sources, n, k);
    AdmissibleExactly(c, xs);
    assert SourceAgrees(s) && s.resolved[k] in s.resolved;
    assert s.resolved[k].digest in Digests(s.resolved);
    RequestMapFrom(s.requests, s.resolved[k].digest);
    assert Completed(campaign, c.candidates, xs[i]);
    q := RequestMap(s.requests)[s.resolved[k].digest];
  }

  /** One receipt that failed, states no use, or used more than every request frozen under its digest allows makes the
      reconciliation refuse. */
  lemma {:induction false} FailedReceiptRefuses(p: Plan, campaign: string, e: Evidence, n: nat, k: nat)
    requires n < |e.sources| && k < |e.sources[n].resolved|
    requires
      var (s, r) := (e.sources[n], e.sources[n].resolved[k]);
      !r.complete || r.used.None? || forall q :: FrozenAs(s, r, q) ==> r.used.value > q.maximum
    ensures !Accepted(p, campaign, e)
  {
    if Accepted(p, campaign, e) {
      var q := EveryReceiptCompleted(p, campaign, e, n, k);
    }
  }

  predicate OnceEach(s: Source) {
    && (forall q :: q in s.requests ==> Resolved(s, q.digest))
    && (forall k :: 0 <= k < |s.resolved| ==> Requested(s, s.resolved[k].digest))
  }

  lemma {:induction false} RequestMapHolds(requests: seq<Request>, q: Request)
    requires q in requests
    ensures q.digest in RequestMap(requests)
  {
    var last := requests[|requests| - 1];
    if q.digest != last.digest { RequestMapHolds(requests[..|requests| - 1], q); }
  }

  /** Every source of an accepted closure was enabled for compute, is resolved by the backend that its manifest was
      frozen for, and froze at least one request; its receipts name its requests, each request at least one receipt and each
      receipt a request. */
  lemma {:induction false} EverySourceAgrees(p: Plan, campaign: string, e: Evidence, n: nat)
    requires Accepted(p, campaign, e) && n < |e.sources|
    ensures
      var s := e.sources[n];
      s.enabled && s.profileAgrees && |s.requests| > 0 && |s.resolved| > 0 && OnceEach(s)
  {
    var s := e.sources[n];
    assert SourceAgrees(s);
    hide Accepted, SourceAgrees, OnceEach;
    SourceOnceEach(s);
  }

  predicate Resolved(s: Source, digest: string) { exists k :: 0 <= k < |s.resolved| && s.resolved[k].digest == digest }

  predicate Requested(s: Source, digest: string) { exists q :: q in s.requests && q.digest == digest }

  lemma {:induction false} SourceOnceEach(s: Source)
    requires SourceAgrees(s)
    ensures s.enabled && s.profileAgrees && |s.requests| > 0 && |s.resolved| > 0 && OnceEach(s)
  {
    hide RequestMap, Digests, Resolved, Requested;
    forall q | q in s.requests ensures Resolved(s, q.digest) {
      RequestMapHolds(s.requests, q);
      ReceiptFor(s, q.digest);
    }
    forall k | 0 <= k < |s.resolved| ensures Requested(s, s.resolved[k].digest) { RequestFor(s, k); }
    assert Resolved(s, s.requests[0].digest);
    SomeResolved(s, s.requests[0].digest);
  }

  lemma {:induction false} SomeResolved(s: Source, digest: string)
    requires Resolved(s, digest)
    ensures |s.resolved| > 0
  {}

  lemma {:induction false} RequestFor(s: Source, k: nat)
    requires k < |s.resolved| && Digests(s.resolved) == RequestMap(s.requests).Keys
    ensures Requested(s, s.resolved[k].digest)
  {
    assert s.resolved[k] in s.resolved && s.resolved[k].digest in Digests(s.resolved);
    RequestMapFrom(s.requests, s.resolved[k].digest);
    assert RequestMap(s.requests)[s.resolved[k].digest] in s.requests;
  }

  lemma {:induction false} ReceiptFor(s: Source, digest: string)
    requires digest in Digests(s.resolved)
    ensures Resolved(s, digest)
  {
    var r :| r in s.resolved && r.digest == digest;
    var k :| 0 <= k < |s.resolved| && s.resolved[k] == r;
  }

  /** The accepted roster: one candidate for each actor of the plan, all reservations complete, every actor's result
      released, its use accounted and within its allowance, and nothing accounted to anyone else. */
  lemma {:induction false} RosterExactly(p: Plan, e: Evidence)
    ensures RosterAgrees(p, e) <==>
      && |e.candidates| == |Actors(p.allocations)| && Owners(e.candidates) == Actors(p.allocations)
      && e.accounting.organisationLimit == p.organisationLimit && e.accounting.allComplete
      && e.accounting.released == e.accounting.actorUsed.Keys == Actors(p.allocations)
      && (forall i :: 0 <= i < |p.allocations| ==>
            var a := p.allocations[i]; a.actor in e.accounting.actorUsed && e.accounting.actorUsed[a.actor] <= a.limit)
      && e.accounting.hiddenUsed <= p.hiddenLimit
  {
    forall i | 0 <= i < |p.allocations| ensures p.allocations[i] in p.allocations {}
  }

  // --- Use, added up from the front ---------------------------------------------------------------------------

  /** The seconds of the executions for which `counts` holds. */
  function Seconds(counts: Execution -> bool, xs: seq<Execution>): int {
    if xs == [] then 0
    else (if counts(xs[0]) && xs[0].receipt.used.Some? then xs[0].receipt.used.value else 0) + Seconds(counts, xs[1..])
  }

  lemma {:induction false} SecondsMore(counts: Execution -> bool, xs: seq<Execution>, x: Execution)
    ensures Seconds(counts, xs + [x]) ==
      Seconds(counts, xs) + if counts(x) && x.receipt.used.Some? then x.receipt.used.value else 0
  {
    if xs == [] {
      assert [] + [x] == [x];
    } else {
      assert (xs + [x])[1..] == xs[1..] + [x];
      SecondsMore(counts, xs[1..], x);
    }
  }

  lemma {:induction false} UseIsSeconds(c: Context, xs: seq<Execution>, actor: string)
    ensures TotalUse(c, xs, Public) ==
      Seconds((x: Execution) => x.request.campaign == c.campaign && x.request.scope == Visible, xs)
    ensures TotalUse(c, xs, HiddenRun) ==
      Seconds((x: Execution) => x.request.campaign == c.campaign && x.request.scope == Hidden, xs)
    ensures PublicUse(c, xs, actor) ==
      Seconds((x: Execution) => x.request.campaign == c.campaign && x.request.scope == Visible
        && x.request.reservation in c.candidates && c.candidates[x.request.reservation].owner == actor, xs)
  {
    if xs != [] {
      var init, last := xs[..|xs| - 1], xs[|xs| - 1];
      UseIsSeconds(c, init, actor);
      assert xs == init + [last];
      SecondsMore((x: Execution) => x.request.campaign == c.campaign && x.request.scope == Visible, init, last);
      SecondsMore((x: Execution) => x.request.campaign == c.campaign && x.request.scope == Hidden, init, last);
      SecondsMore((x: Execution) => x.request.campaign == c.campaign && x.request.scope == Visible
        && x.request.reservation in c.candidates && c.candidates[x.request.reservation].owner == actor, init, last);
    }
  }

  /** The use that an accepted closure accounts for is what its receipts say: for every actor the seconds of the
      campaign's visible executions of its own candidate, for the hidden side those of the campaign's hidden ones. */
  lemma {:induction false} UseIsReceipted(p: Plan, campaign: string, e: Evidence, a: Allocation)
    requires Accepted(p, campaign, e) && a in p.allocations
    ensures
      var (candidates, xs) := (CandidateMap(e.candidates), Executions(e.sources));
      && a.actor in e.accounting.actorUsed
      && e.accounting.actorUsed[a.actor] ==
           Seconds((x: Execution) => x.request.campaign == campaign && x.request.scope == Visible
             && x.request.reservation in candidates && candidates[x.request.reservation].owner == a.actor, xs)
      && e.accounting.hiddenUsed ==
           Seconds((x: Execution) => x.request.campaign == campaign && x.request.scope == Hidden, xs)
  {
    var (c, xs) := (ContextOf(campaign, e), Executions(e.sources));
    UseIsSeconds(c, xs, a.actor);
    assert ActorAgrees(c, e, xs, a.actor);
  }

  predicate IsReference(campaign: string, x: Execution) {
    x.request.campaign == "registered-reference" != campaign && x.request.scope == Visible
  }

  lemma {:induction false} ReferencesCount(c: Context, xs: seq<Execution>)
    ensures References(c, xs) == 0 ==> forall i :: 0 <= i < |xs| ==> !IsReference(c.campaign, xs[i])
    ensures References(c, xs) == 1 ==>
      exists k :: 0 <= k < |xs| && OnlyReference(c.campaign, xs, k)
  {
    if xs != [] {
      var init, last := xs[..|xs| - 1], xs[|xs| - 1];
      ReferencesCount(c, init);
      assert KindOf(c.campaign, last.request) == Reference <==> IsReference(c.campaign, last);
      if References(c, xs) == 1 {
        if IsReference(c.campaign, last) {
          assert OnlyReference(c.campaign, xs, |xs| - 1);
        } else {
          var k :| 0 <= k < |init| && OnlyReference(c.campaign, init, k);
          assert OnlyReference(c.campaign, xs, k);
        }
      }
    }
  }

  predicate OnlyReference(campaign: string, xs: seq<Execution>, k: int) {
    0 <= k < |xs| && forall i :: 0 <= i < |xs| ==> (IsReference(campaign, xs[i]) <==> i == k)
  }

  /** Exactly one execution of an accepted closure is of the registered reference. */
  lemma {:induction false} OneReference(p: Plan, campaign: string, e: Evidence) returns (k: nat)
    requires Accepted(p, campaign, e)
    ensures OnlyReference(campaign, Executions(e.sources), k)
  {
    hide RosterAgrees, SourcesAgree, Admissible;
    ReferencesCount(ContextOf(campaign, e), Executions(e.sources));
    k :| 0 <= k < |Executions(e.sources)| && OnlyReference(campaign, Executions(e.sources), k);
  }

  // --- Every actor's own candidate ----------------------------------------------------------------------------------

  predicate UniqueReservations(candidates: seq<Candidate>) {
    forall i, j :: 0 <= i < j < |candidates| ==> candidates[i].reservation != candidates[j].reservation
  }

  lemma {:induction false} CandidateMapHolds(candidates: seq<Candidate>, i: nat)
    requires i < |candidates|
    ensures candidates[i].reservation in CandidateMap(candidates)
    ensures UniqueReservations(candidates) ==> CandidateMap(candidates)[candidates[i].reservation] == candidates[i]
  {
    if i < |candidates| - 1 { CandidateMapHolds(candidates[..|candidates| - 1], i); }
  }

  predicate Runs(c: Context, x: Execution, candidate: Candidate) {
    IsPublic(c, x) && x.request.reservation == candidate.reservation
        && x.request.candidate == "sha256:" + candidate.artifact
  }

  /** When reservation identifiers are unique among the candidates, as the registry promises, every
      candidate was run in public under its own artifact digest, exactly once. */
  lemma EveryCandidateRan(p: Plan, campaign: string, e: Evidence, i: nat) returns (k: nat)
    requires Accepted(p, campaign, e) && UniqueReservations(e.candidates) && i < |e.candidates|
    ensures
      var c, xs := ContextOf(campaign, e), Executions(e.sources);
      && k < |xs| && Runs(c, xs[k], e.candidates[i])
      && forall j :: 0 <= j < |xs| && Runs(c, xs[j], e.candidates[i]) ==> j == k
  {
    var c, xs := ContextOf(campaign, e), Executions(e.sources);
    CandidateMapHolds(e.candidates, i);
    assert e.candidates[i].reservation in RunInPublic(c, xs);
    var x :| x in xs && IsPublic(c, x) && x.request.reservation == e.candidates[i].reservation;
    k :| 0 <= k < |xs| && xs[k] == x;
    assert Sound(c, xs[k]) && Runs(c, xs[k], e.candidates[i]);
    forall j | 0 <= j < |xs| && j != k ensures !Runs(c, xs[j], e.candidates[i]) {
      if j < k { assert Apart(c, xs[j], xs[k]); } else { assert Apart(c, xs[k], xs[j]); }
    }
  }

  lemma RunDecides(c: Context, x: Execution, candidate: Candidate)
    requires Sound(c, x) && IsPublic(c, x) && x.request.reservation == candidate.reservation
    ensures candidate.reservation in c.candidates
    ensures Runs(c, x, candidate) <==> c.candidates[candidate.reservation].artifact == candidate.artifact
  {
    var a, b := c.candidates[candidate.reservation].artifact, candidate.artifact;
    assert ("sha256:" + a)[7..] == a && ("sha256:" + b)[7..] == b;
  }

  predicate Ran(c: Context, xs: seq<Execution>, candidate: Candidate) { exists x :: x in xs && Runs(c, x, candidate) }

  lemma RanExactly(c: Context, xs: seq<Execution>, candidate: Candidate)
    requires Admissible(c, xs) && candidate.reservation in RunInPublic(c, xs)
    ensures candidate.reservation in c.candidates
    ensures Ran(c, xs, candidate) <==> c.candidates[candidate.reservation].artifact == candidate.artifact
  {
    var x :| x in xs && IsPublic(c, x) && x.request.reservation == candidate.reservation;
    RunDecides(c, x, candidate);
    forall y | y in xs && Runs(c, y, candidate)
      ensures c.candidates[candidate.reservation].artifact == candidate.artifact
    {
      RunDecides(c, y, candidate);
    }
  }

  /** In general a candidate was run in public under its own artifact digest exactly when the candidate that
      the lookup keeps for its reservation identifier has the same artifact. */
  lemma CandidateRanExactly(p: Plan, campaign: string, e: Evidence, i: nat)
    requires Accepted(p, campaign, e) && i < |e.candidates|
    ensures e.candidates[i].reservation in CandidateMap(e.candidates)
    ensures Ran(ContextOf(campaign, e), Executions(e.sources), e.candidates[i]) <==>
              CandidateMap(e.candidates)[e.candidates[i].reservation].artifact == e.candidates[i].artifact
  {
    hide RosterAgrees, SourcesAgree, Admissible, Ran;
    CandidateMapHolds(e.candidates, i);
    RanExactly(ContextOf(campaign, e), Executions(e.sources), e.candidates[i]);
  }

  // Two actors' candidates under one reservation identifier, of which only the second was ever run.

  function SharedPlan(): Plan { Plan("pilot", 10, [Allocation("a", 5), Allocation("b", 5)], 1) }

  function SharedRequests(): seq<Request> {
    [Request("q0", "registered-reference", Visible, "r0", "c0", 1), Request("q1", "pilot", Visible, "r", "sha256:y", 5)]
  }

  function SharedSource(): Source {
    Source(true, true, SharedRequests(), [Receipt("q0", true, Some(1)), Receipt("q1", true, Some(5))])
  }

  function SharedEvidence(): Evidence {
    Evidence([Candidate("r", "a", "x"), Candidate("r", "b", "y")],
             Accounting(10, true, map["a" := 0, "b" := 5], {"a", "b"}, 0), [SharedSource()])
  }

  lemma SharedRoster()
    ensures PlanValid(SharedPlan()) && RosterAgrees(SharedPlan(), SharedEvidence())
  {
    var allocations, candidates := SharedPlan().allocations, SharedEvidence().candidates;
    assert allocations[0] in allocations && allocations[1] in allocations;
    assert candidates[0] in candidates && candidates[1] in candidates;
    assert Actors(allocations) == {"a", "b"} && Owners(candidates) == {"a", "b"};
    assert allocations[..1][..0] == [] && allocations[..1] == [Allocation("a", 5)];
  }

  function SharedExecutions(): seq<Execution> {
    [Execution(SharedRequests()[0], SharedSource().resolved[0]),
        Execution(SharedRequests()[1], SharedSource().resolved[1])]
  }

  lemma SharedLookups()
    ensures RequestMap(SharedRequests()) == map["q0" := SharedRequests()[0], "q1" := SharedRequests()[1]]
    ensures CandidateMap(SharedEvidence().candidates) == map["r" := Candidate("r", "b", "y")]
  {
    var requests, candidates := SharedRequests(), SharedEvidence().candidates;
    assert requests[..1] == [requests[0]] && requests[..1][..0] == [];
    assert candidates[..1] == [candidates[0]] && candidates[..1][..0] == [];
  }

  lemma SharedSources()
    ensures SourcesAgree([SharedSource()]) && Executions([SharedSource()]) == SharedExecutions()
  {
    SharedLookups();
    var s := SharedSource();
    assert s.resolved[0] in s.resolved && s.resolved[1] in s.resolved;
    assert Digests(s.resolved) == {"q0", "q1"};
    assert SourceExecutions(s, 2) == SharedExecutions();
    assert [s][..0] == [] && Executions([s]) == Executions([]) + SourceExecutions(s, 2);
  }

  lemma SharedAdmissible()
    ensures Admissible(ContextOf("pilot", SharedEvidence()), SharedExecutions())
  {
    SharedLookups();
    assert "sha256:" + "y" == "sha256:y";
  }

  lemma SharedUse()
    ensures UseAgrees(SharedPlan(), ContextOf("pilot", SharedEvidence()), SharedEvidence(), SharedExecutions())
  {
    SharedLookups();
    var c, xs, allocations := ContextOf("pilot", SharedEvidence()), SharedExecutions(), SharedPlan().allocations;
    assert xs[..1] == [xs[0]] && xs[..1][..0] == [];
    assert xs[1] in xs && RunInPublic(c, xs) == {"r"};
    assert allocations[..1] == [Allocation("a", 5)] && allocations[..1][..0] == [];
    assert PublicUse(c, [], "a") == 0 && PublicUse(c, [xs[0]], "a") == 0 && PublicUse(c, xs, "a") == 0;
    assert PublicUse(c, [], "b") == 0 && PublicUse(c, [xs[0]], "b") == 0 && PublicUse(c, xs, "b") == 5;
  }

  /** The closure does not notice: it accepts the evidence, and the first candidate was never run. */
  lemma SharedReservationAccepted()
    ensures PlanValid(SharedPlan()) && Accepted(SharedPlan(), "pilot", SharedEvidence())
    ensures !Ran(ContextOf("pilot", SharedEvidence()), Executions(SharedEvidence().sources),
        SharedEvidence().candidates[0])
  {
    SharedRoster();
    SharedSources();
    SharedAdmissible();
    SharedUse();
    SharedLookups();
    hide PlanValid, RosterAgrees, SourcesAgree, Admissible, UseAgrees, Ran;
    CandidateRanExactly(SharedPlan(), "pilot", SharedEvidence(), 0);
  }
}
