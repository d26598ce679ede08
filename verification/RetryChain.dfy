/** The release arithmetic of the first six retry amendments: what each one gives back of the receipts of
    the attempt that it settles, and of two earlier receipts. */
module RetryChain {
  import opened SpendTypes

  const FIRST_PREFIX := "pilot:first-solo:compute:"
  const MODEL_KEY := "pilot:single-attempt:openrouter:base"
  const QUALIFICATION_KEY := "qualification:modal-access-v1"

  const MODEL: int := 2_900_000_000
  const OVERHEAD: int := 1_000_000_000
  const COMPUTE: int := 766_080_000
  const BUFFER: int := 100_000_000
  const SMALL_BUFFER: int := 10_000_000
  const QUALIFICATION: int := 1_532_160_000
  const QUALIFICATION_RELEASE: int := 500_000_000

  /** The receipts that an attempt added to the journal before it aborted. */
  datatype Attempt = Attempt(model: Record, overhead: Record, computes: seq<Record>)

  /** What the billing evidence says: the attempt's own cost, and for the third amendment the cost of the
      first attempt's reference. */
  datatype Bill = Bill(modal: int, first: int)

  /** What one amendment does to the accounts: what it adds to the releases, what must stay held of the
      receipts of the attempt it settles, what of its release is drawn on the receipts of the very first
      attempt, and what must stay held of those. */
  datatype Terms = Terms(release: Money, cost: Money, draw: int, kept: int)

  /** A chain of amendments. The first amendment follows the receipts of the very first attempt, whose audit
      names the run `audited`; each later one settles the attempt that ran under its predecessor. */
  datatype Chain =
    | First(base: seq<Record>, audited: string, runId: string)
    | Next(prev: Chain, attempt: Attempt, bill: Bill, terms: Terms, runId: string)
  {
    function Version(): (v: nat)
      ensures v >= 1 && (v == 1 <==> First?)
    {
      match this case First(_, _, _) => 1 case Next(prev, _, _, _, _) => prev.Version() + 1
    }
    function Base(): seq<Record> {
      match this case First(base, _, _) => base case Next(prev, _, _, _, _) => prev.Base()
    }
  }

  function New(a: Attempt): seq<Record> { [a.model, a.overhead] + a.computes }

  /** The receipts that the amendment's journal must hold, up to their order. */
  function Receipts(c: Chain): seq<Record> {
    match c
    case First(base, _, _) => base
    case Next(prev, a, _, _, _) => Receipts(prev) + New(a)
  }

  // --- Acceptance -----------------------------------------------------------------------------------------

  /** Run identifiers hold no colon. */
  predicate RunIdText(s: string) {
    1 <= |s| <= 81 && IsAlphanumeric(s[0]) && forall i :: 1 <= i < |s| ==>
        IsAlphanumeric(s[i]) || s[i] == '_' || s[i] == '-'
  }

  predicate Named(a: Attempt, runId: string) {
    && RunIdText(runId)
    && StartsWith(a.model.key, "pilot:retry-") && StartsWith(a.overhead.key, "pilot:retry-")
    && forall i :: 0 <= i < |a.computes| ==> StartsWith(a.computes[i].key, "pilot:" + runId + ":compute:")
  }

  predicate Amounts(a: Attempt, computes: nat) {
    && a.model.maximum == MODEL && a.overhead.maximum == OVERHEAD && |a.computes| == computes
    && forall i :: 0 <= i < computes ==> a.computes[i].maximum == COMPUTE
  }

  predicate Providers(a: Attempt) {
    && a.model.provider == OpenRouter && a.overhead.provider == Modal
    && forall i :: 0 <= i < |a.computes| ==> a.computes[i].provider == Modal
  }

  /** Exactly one receipt of the very first attempt's compute is in the journal. */
  predicate OnlyAt(rs: seq<Record>, i: nat) {
    i < |rs| && forall j :: 0 <= j < |rs| ==> (StartsWith(rs[j].key, FIRST_PREFIX) <==> j == i)
  }

  predicate HasFirst(rs: seq<Record>) { exists i: nat :: i < |rs| && OnlyAt(rs, i) && rs[i].maximum == COMPUTE }

  predicate Qualified(rs: seq<Record>) {
    exists i: nat :: i < |rs| && rs[i].key == QUALIFICATION_KEY && rs[i].maximum == QUALIFICATION
        && rs[i].provider == Modal
  }

  predicate HasModel(rs: seq<Record>) {
    exists i: nat :: i < |rs| && rs[i].key == MODEL_KEY && rs[i].maximum == MODEL && rs[i].provider == OpenRouter
  }

  /** The amounts and providers that the validator of version `v` requires of the attempt it settles, and the
      bounds on what was billed. The third checks no provider. */
  predicate AttemptAccepted(v: nat, a: Attempt, b: Bill) {
    match v
    case 2 =>
      && a.model.maximum == MODEL && a.overhead.maximum == OVERHEAD && |a.computes| == 1 && Providers(a)
      && b.modal > 0 && b.modal + BUFFER < a.computes[0].maximum
    case 3 => Amounts(a, 2) && b.first > 0 && b.first + BUFFER <= COMPUTE && b.modal > 0
        && b.modal + BUFFER <= 532_160_000
    case 4 => Amounts(a, 2) && Providers(a) && b.modal == 449_142_790
    case 5 => Amounts(a, 1) && Providers(a) && b.modal == 209_026_580
    case 6 => Amounts(a, 12) && Providers(a) && b.modal == 887_086_540
    case _ => false
  }

  /** What the validator of version `v` requires of all the receipts. */
  predicate ReceiptsAccepted(v: nat, rs: seq<Record>) { (v == 3 ==> HasFirst(rs)) && (v == 4 ==> Qualified(rs)) }

  /** The run identifiers that an amendment may give to the retry that it allows. */
  predicate RunAccepted(v: nat, before: string, runId: string) {
    && RunIdText(runId)
    && (v <= 5 ==> runId != before)
    && (v == 3 || v == 4 ==> runId != "first-solo" && runId != "solo-retry-0921")
    && (v == 4 || v == 5 ==> runId != "solo-final-0921")
    && (v == 5 ==> runId != "solo-next-0923")
    && (v == 6 ==> runId == "solo-seriesfix-0925")
  }

  predicate Accepted(c: Chain) {
    match c
    case First(base, audited, runId) => RunAccepted(1, audited, runId) && HasModel(base)
    case Next(prev, a, b, terms, runId) =>
      && Accepted(prev) && Named(a, prev.runId) && RunAccepted(c.Version(), prev.runId, runId)
      && terms == TermsOf(c.Version(), a, b)
      && AttemptAccepted(c.Version(), a, b) && ReceiptsAccepted(c.Version(), Receipts(c))
  }

  /** The frozen cost of the attempt's model calls. */
  function ModelCost(v: nat): int {
    if v == 3 then 1_351_620 else if v == 4 then 3_081_720 else if v == 6 then 5_109_960 else 0
  }

  /** What the amendment of version `v` adds to the releases. */
  function Release(v: nat, a: Attempt, b: Bill): Money {
    if v == 2 then Money(OVERHEAD + (if |a.computes| == 1 then a.computes[0].maximum else 0) - (b.modal + BUFFER),
        MODEL)
    else if v == 3 then Money((COMPUTE - b.first - BUFFER) + 2_000_000_000, MODEL - ModelCost(3) - SMALL_BUFFER)
    else if v == 4 then Money(2_532_160_000 - b.modal - BUFFER + QUALIFICATION_RELEASE,
        MODEL - ModelCost(4) - SMALL_BUFFER)
    else if v == 5 then Money(1_766_080_000 - b.modal - BUFFER - SMALL_BUFFER + QUALIFICATION_RELEASE,
        MODEL - SMALL_BUFFER)
    else Money(10_192_960_000 - b.modal - BUFFER - COMPUTE, MODEL - ModelCost(6) - SMALL_BUFFER)
  }

  // --- What must stay held ----------------------------------------------------------------------------------

  /** What the receipts of the settled attempt must keep covering: what was billed, with its buffers, and
      the unresolved dispatch of the sixth. */
  function Cost(v: nat, b: Bill): Money {
    if v == 2 then Money(b.modal + BUFFER, 0)
    else if v == 3 then Money(b.modal + BUFFER, ModelCost(3) + SMALL_BUFFER)
    else if v == 4 then Money(b.modal + BUFFER, ModelCost(4) + SMALL_BUFFER)
    else if v == 5 then Money(b.modal + BUFFER + SMALL_BUFFER, SMALL_BUFFER)
    else Money(b.modal + BUFFER + COMPUTE, ModelCost(6) + SMALL_BUFFER)
  }

  /** What version `v` draws on the receipts of the very first attempt. */
  function Draw(v: nat, b: Bill): int {
    if v == 3 then COMPUTE - b.first - BUFFER else if v == 4 || v == 5 then QUALIFICATION_RELEASE else 0
  }

  /** What the two earlier receipts must keep covering: the first attempt's reference with its buffer, and
      the part of the qualification that was not released. */
  function Kept(v: nat, b: Bill): int {
    if v == 3 then b.first + BUFFER
    else if v == 4 then QUALIFICATION - QUALIFICATION_RELEASE
    else if v == 5 then 0 - QUALIFICATION_RELEASE
    else 0
  }

  function TermsOf(v: nat, a: Attempt, b: Bill): Terms { Terms(Release(v, a, b), Cost(v, b), Draw(v, b), Kept(v, b)) }

  /** The releases that the last validator returns. */
  function Released(c: Chain): Money {
    match c
    case First(_, _, _) => Money(0, MODEL)
    case Next(prev, _, _, terms, _) => Add(Released(prev), terms.release)
  }

  function Billed(c: Chain): Money {
    match c
    case First(_, _, _) => Money(0, 0)
    case Next(prev, _, _, terms, _) => Add(Billed(prev), terms.cost)
  }

  function Drawn(c: Chain): Money {
    match c
    case First(_, _, _) => Money(0, MODEL)
    case Next(prev, _, _, terms, _) => Add(Drawn(prev), Money(terms.draw, 0))
  }

  function Earlier(c: Chain): int {
    match c
    case First(_, _, _) => 0
    case Next(prev, _, _, terms, _) => Earlier(prev) + terms.kept
  }

  // --- The accounts -----------------------------------------------------------------------------------------

  lemma {:induction false} UniformTotals(rs: seq<Record>)
    requires forall i :: 0 <= i < |rs| ==> rs[i].provider == Modal && rs[i].maximum == COMPUTE
    ensures Totals(rs) == Money(|rs| * COMPUTE, 0)
    decreases |rs|
  {
    if rs != [] { UniformTotals(rs[..|rs| - 1]); }
  }

  lemma {:induction false} NewTotals(a: Attempt)
    requires Providers(a)
    ensures Totals(New(a)) == Add(Money(a.overhead.maximum, a.model.maximum), Totals(a.computes))
  {
    TotalsConcat([a.model] + [a.overhead], a.computes);
    TotalsConcat([a.model], [a.overhead]);
    TotalsOne(a.model);
    TotalsOne(a.overhead);
    assert New(a) == [a.model] + [a.overhead] + a.computes;
  }

  lemma {:induction false} SecondAccounts(a: Attempt, b: Bill)
    requires AttemptAccepted(2, a, b)
    ensures Add(Release(2, a, b), Cost(2, b)) == Totals(New(a))
  {
    NewTotals(a);
    assert a.computes == [a.computes[0]];
    TotalsOne(a.computes[0]);
  }

  /** What the receipts of a settled attempt hold beyond what its amendment gives back and leaves billed. Only
      the third amendment, which retains round allowances and checks no provider, leaves anything. */
  function Excess(v: nat, a: Attempt, b: Bill): Money {
    if v == 3 then Totals(New(a)).Minus(Money(2_000_000_000 + b.modal + BUFFER, MODEL)) else Money(0, 0)
  }

  /** For each provider, what an amendment gives back and leaves billed is exactly what its attempt's receipts
      hold, less the excess, and what it draws on the very first attempt's. */
  lemma {:induction false} StepAccounts(v: nat, a: Attempt, b: Bill)
    requires AttemptAccepted(v, a, b)
    ensures Add(Release(v, a, b), Cost(v, b)) == Add(Totals(New(a)).Minus(Excess(v, a, b)), Money(Draw(v, b), 0))
  {
    if v == 2 {
      SecondAccounts(a, b);
    } else if v != 3 {
      LaterTotals(v, a, b);
      hide Totals, New, Amounts, Providers;
    }
  }

  lemma {:induction false} LaterTotals(v: nat, a: Attempt, b: Bill)
    requires v >= 4 && AttemptAccepted(v, a, b)
    ensures
      var computes := if v == 4 then 2 else if v == 5 then 1 else 12;
      Totals(New(a)) == Money(OVERHEAD + computes * COMPUTE, MODEL)
  {
    NewTotals(a);
    UniformTotals(a.computes);
    hide Totals, New;
  }

  /** With its receipts charged as they should be, the third amendment leaves a nonnegative excess. */
  lemma {:induction false} ExcessOfThird(a: Attempt, b: Bill)
    requires AttemptAccepted(3, a, b) && Providers(a)
    ensures Excess(3, a, b) == Money(532_160_000 - b.modal - BUFFER, 0) && Money(0, 0).Within(Excess(3, a, b))
  {
    NewTotals(a);
    UniformTotals(a.computes);
  }

  function ExcessOf(c: Chain): Money {
    match c
    case First(_, _, _) => Money(0, 0)
    case Next(prev, a, b, _, _) => Add(ExcessOf(prev), Excess(c.Version(), a, b))
  }

  /** Releases and bills of the settled attempts are exactly the receipts added since the very first attempt,
      less the excess, and what was drawn on that one's. */
  predicate Balanced(c: Chain) {
    Add(Released(c), Billed(c)) == Add(Totals(Receipts(c)).Minus(Totals(c.Base())).Minus(ExcessOf(c)), Drawn(c))
  }

  lemma {:induction false} TermsAccount(v: nat, a: Attempt, b: Bill, terms: Terms)
    requires AttemptAccepted(v, a, b) && terms == TermsOf(v, a, b)
    ensures Add(terms.release, terms.cost) == Add(Totals(New(a)).Minus(Excess(v, a, b)), Money(terms.draw, 0))
  {
    StepAccounts(v, a, b);
  }

  lemma {:induction false} LinkBalances(p: Chain, a: Attempt, b: Bill, terms: Terms, runId: string, extra: Money)
    requires Balanced(p) && extra == Excess(p.Version() + 1, a, b)
    requires Add(terms.release, terms.cost) == Add(Totals(New(a)).Minus(extra), Money(terms.draw, 0))
    ensures Balanced(Next(p, a, b, terms, runId))
  {
    hide Excess, New;
    TotalsConcat(Receipts(p), New(a));
    Combine(Released(p), Billed(p), Totals(Receipts(p)), Totals(p.Base()), ExcessOf(p), Drawn(p),
            terms.release, terms.cost, Totals(New(a)), extra, terms.draw);
  }

  lemma {:induction false} Combine(released: Money, billed: Money, sum: Money, base: Money, excess: Money, drawn: Money,
                                   more: Money, cost: Money, added: Money, extra: Money, draw: int)
    requires Add(released, billed) == Add(sum.Minus(base).Minus(excess), drawn)
    requires Add(more, cost) == Add(added.Minus(extra), Money(draw, 0))
    ensures Add(Add(released, more), Add(billed, cost))
         == Add(Add(sum, added).Minus(base).Minus(Add(excess, extra)), Add(drawn, Money(draw, 0)))
  {}

  lemma {:induction false} AttemptsAccount(c: Chain)
    requires Accepted(c)
    ensures Balanced(c)
    decreases c
  {
    hide Balanced, AttemptAccepted, ReceiptsAccepted, RunAccepted, Named, TermsOf;
    match c
    case First(_, _, _) => BaseBalances(c);
    case Next(p, a, b, terms, runId) =>
      AttemptsAccount(p);
      TermsAccount(p.Version() + 1, a, b, terms);
      LinkBalances(p, a, b, terms, runId, Excess(p.Version() + 1, a, b));
  }

  lemma {:induction false} BaseBalances(c: Chain)
    requires c.First?
    ensures Balanced(c)
  {}

  /** The third amendment does not check which provider its receipts were charged to; the others do. */
  predicate ThirdProviders(c: Chain) {
    match c
    case First(_, _, _) => true
    case Next(prev, a, _, _, _) => ThirdProviders(prev) && (c.Version() == 3 ==> Providers(a))
  }

  lemma {:induction false} ExcessIsPositive(c: Chain)
    requires Accepted(c) && ThirdProviders(c)
    ensures Money(0, 0).Within(ExcessOf(c))
    decreases c
  {
    if c.Next? {
      ExcessIsPositive(c.prev);
      if c.Version() == 3 { ExcessOfThird(c.attempt, c.bill); }
    }
  }

  // --- The receipts of the very first attempt ---------------------------------------------------------------

  function Part(r: Record, p: Provider): int { if r.provider == p then r.maximum else 0 }

  function At(rs: seq<Record>, k: nat, p: Provider): int { if k < |rs| then Part(rs[k], p) else 0 }

  /** The worth of the receipts at three places; a place past the end holds nothing. */
  function Picked(rs: seq<Record>, i: nat, j: nat, k: nat, p: Provider): int {
    if rs == [] then 0
    else
      var n := |rs| - 1;
      Picked(rs[..n], i, j, k, p) + if n == i || n == j || n == k then Part(rs[n], p) else 0
  }

  lemma {:induction false} PickedWithin(rs: seq<Record>, i: nat, j: nat, k: nat, p: Provider)
    requires Positive(rs)
    ensures Picked(rs, i, j, k, p) <= Totals(rs).Of(p)
    decreases |rs|
  {
    if rs != [] { PickedWithin(rs[..|rs| - 1], i, j, k, p); }
  }

  lemma {:induction false} PickedIs(rs: seq<Record>, i: nat, j: nat, k: nat, p: Provider)
    requires i != j && j != k && i != k
    ensures Picked(rs, i, j, k, p) == At(rs, i, p) + At(rs, j, p) + At(rs, k, p)
    decreases |rs|
  {
    if rs != [] { PickedIs(rs[..|rs| - 1], i, j, k, p); }
  }

  /** Two names between the same words are the same name when neither holds a colon. */
  lemma {:induction false} PrefixIdentifies(key: string, a: string, b: string)
    requires RunIdText(a) && RunIdText(b)
    requires StartsWith(key, "pilot:" + a + ":compute:") && StartsWith(key, "pilot:" + b + ":compute:")
    ensures a == b
  {
    NameAt(key, a);
    NameAt(key, b);
    NotShorter(key[6..], a, b);
    NotShorter(key[6..], b, a);
  }

  lemma {:induction false} NotShorter(rest: string, a: string, b: string)
    requires RunIdText(b) && |a| < |rest| && rest[|a|] == ':' && |b| < |rest| && rest[..|b|] == b
    ensures |b| <= |a|
  {
    forall i | 0 <= i < |b| ensures rest[i] != ':' { assert rest[i] == b[i]; }
  }

  lemma {:induction false} NameAt(key: string, a: string)
    requires StartsWith(key, "pilot:" + a + ":compute:")
    ensures |key| > 6 + |a| && key[6..6 + |a|] == a && key[6 + |a|] == ':'
    ensures key[0] == 'p'
  {
    var text := "pilot:" + a + ":compute:";
    assert key[..|text|] == text;
    assert text[6..6 + |a|] == a && text[6 + |a|] == ':' && text[0] == 'p';
    assert key[6..6 + |a|] == key[..|text|][6..6 + |a|] && key[6 + |a|] == key[..|text|][6 + |a|];
    assert key[0] == key[..|text|][0];
  }

  /** A text that starts with `p` does not start with a text that differs from it somewhere. */
  lemma {:induction false} DifferentStart(key: string, p: string, q: string, i: nat)
    requires StartsWith(key, p) && i < |p| && i < |q| && p[i] != q[i]
    ensures !StartsWith(key, q)
  {
    assert key[i] == p[i];
  }

  lemma {:induction false} RetryKey(key: string)
    requires StartsWith(key, "pilot:retry-")
    ensures !StartsWith(key, FIRST_PREFIX) && key != QUALIFICATION_KEY
  {
    DifferentStart(key, "pilot:retry-", FIRST_PREFIX, 6);
    DifferentStart(key, "pilot:retry-", QUALIFICATION_KEY, 0);
  }

  lemma {:induction false} ComputeKey(key: string, runId: string)
    requires RunIdText(runId) && StartsWith(key, "pilot:" + runId + ":compute:")
    ensures key != QUALIFICATION_KEY && (runId != "first-solo" ==> !StartsWith(key, FIRST_PREFIX))
  {
    NameAt(key, runId);
    assert QUALIFICATION_KEY[0] == 'q';
    FirstPrefixIs();
    if StartsWith(key, FIRST_PREFIX) { PrefixIdentifies(key, runId, "first-solo"); }
  }

  /** No receipt that an attempt added is the qualification, or, under another run identifier, one of the
      very first attempt's. */
  lemma {:induction false} NewKeysDiffer(a: Attempt, runId: string, i: nat)
    requires Named(a, runId) && i < |New(a)|
    ensures New(a)[i].key != QUALIFICATION_KEY
    ensures runId != "first-solo" ==> !StartsWith(New(a)[i].key, FIRST_PREFIX)
  {
    if i < 2 {
      RetryKey(New(a)[i].key);
    } else {
      assert New(a)[i] == a.computes[i - 2];
      ComputeKey(New(a)[i].key, runId);
    }
  }

  /** The run identifier of the first amendment. */
  function FirstRun(c: Chain): string {
    match c
    case First(_, _, runId) => runId
    case Next(prev, _, _, _, _) => FirstRun(prev)
  }

  /** The run that the audit of the very first attempt names. */
  function Audited(c: Chain): string {
    match c
    case First(_, audited, _) => audited
    case Next(prev, _, _, _, _) => Audited(prev)
  }

  lemma {:induction false} AuditedRunsDiffer(c: Chain)
    requires Accepted(c)
    ensures FirstRun(c) != Audited(c)
    decreases c
  {
    if c.Next? { AuditedRunsDiffer(c.prev); }
  }

  lemma {:induction false} QualificationInBase(c: Chain, i: nat)
    requires Accepted(c) && i < |Receipts(c)| && Receipts(c)[i].key == QUALIFICATION_KEY
    ensures i < |c.Base()| && c.Base()[i] == Receipts(c)[i]
    decreases c
  {
    if c.Next? {
      if i < |Receipts(c.prev)| {
        QualificationInBase(c.prev, i);
      } else {
        NewKeysDiffer(c.attempt, c.prev.runId, i - |Receipts(c.prev)|);
      }
    }
  }

  /** The third amendment finds the first attempt's compute receipt among the receipts of that attempt,
      unless the retry after it ran under the same identifier. */
  lemma {:induction false} FirstInBase(c: Chain, i: nat)
    requires Accepted(c) && c.Version() == 3 && FirstRun(c) != "first-solo" && OnlyAt(Receipts(c), i)
    ensures i < |c.Base()| && c.Base()[i] == Receipts(c)[i]
  {
    var second := c.prev;
    var base := second.prev;
    assert base.First?;
    assert c.Base() == second.Base() && second.Base() == base.Base() && base.Base() == base.base;
    assert FirstRun(c) == FirstRun(second) && FirstRun(second) == FirstRun(base) && FirstRun(base) == base.runId;
    assert Receipts(second) == base.base + New(second.attempt) && Receipts(c) == Receipts(second) + New(c.attempt);
    if second.runId == "first-solo" {
      TwoFirsts(c, i);
    } else if |Receipts(second)| <= i {
      NewKeysDiffer(c.attempt, second.runId, i - |Receipts(second)|);
    } else if |base.base| <= i {
      NewKeysDiffer(second.attempt, base.runId, i - |base.base|);
    }
  }

  lemma FirstPrefixIs()
    ensures FIRST_PREFIX == "pilot:" + "first-solo" + ":compute:"
  {}

  lemma ReceiptsOf(c: Chain)
    requires c.Next?
    ensures Receipts(c) == Receipts(c.prev) + New(c.attempt)
  {}

  /** Had the settled attempt run under the first run's identifier, its own two compute receipts would both
      be found. */
  lemma {:induction false} TwoFirsts(c: Chain, i: nat)
    requires c.Next? && Named(c.attempt, "first-solo") && |c.attempt.computes| == 2
    ensures !OnlyAt(Receipts(c), i)
  {
    hide Receipts, RunIdText, StartsWith;
    var a, before := c.attempt, Receipts(c.prev);
    ReceiptsOf(c);
    FirstPrefixIs();
    ComputesAt(before, a);
    var here := |before| + 2;
    assert StartsWith(Receipts(c)[here].key, FIRST_PREFIX) && StartsWith(Receipts(c)[here + 1].key, FIRST_PREFIX);
  }

  lemma ComputesAt(before: seq<Record>, a: Attempt)
    ensures forall k :: 0 <= k < |a.computes| ==> (before + New(a))[|before| + 2 + k] == a.computes[k]
    ensures |before + New(a)| == |before| + 2 + |a.computes|
  {}

  predicate BaseHolds(v: nat, rs: seq<Record>) {
    && HasModel(rs)
    && (v >= 3 ==> exists i: nat :: i < |rs| && StartsWith(rs[i].key, FIRST_PREFIX) && rs[i].maximum == COMPUTE)
    && (v >= 4 ==> Qualified(rs))
  }

  lemma {:induction false} BaseSupplies(c: Chain)
    requires Accepted(c) && FirstRun(c) != "first-solo"
    ensures BaseHolds(c.Version(), c.Base())
    decreases c
  {
    if c.Next? {
      BaseSupplies(c.prev);
      var rs := Receipts(c);
      if c.Version() == 3 {
        var i: nat :| i < |rs| && OnlyAt(rs, i) && rs[i].maximum == COMPUTE;
        FirstInBase(c, i);
      }
      if c.Version() == 4 {
        var i: nat :| i < |rs| && rs[i].key == QUALIFICATION_KEY && rs[i].maximum == QUALIFICATION
            && rs[i].provider == Modal;
        QualificationInBase(c, i);
      }
    }
  }

  // --- Coverage ---------------------------------------------------------------------------------------------

  /** The worth of the earlier receipts that the versions up to `v` touch. */
  function Touched(v: nat): int { (if v >= 3 then COMPUTE else 0) + (if v >= 4 then QUALIFICATION else 0) }

  lemma {:induction false} TouchedStep(v: nat, b: Bill)
    requires v >= 2
    ensures Draw(v, b) + Kept(v, b) == Touched(v) - Touched(v - 1)
  {}

  lemma {:induction false} DrawnAndEarlier(c: Chain)
    requires Accepted(c)
    ensures Drawn(c).openrouter == MODEL && Drawn(c).modal + Earlier(c) == Touched(c.Version())
    decreases c
  {
    if c.Next? {
      DrawnAndEarlier(c.prev);
      TouchedStep(c.Version(), c.bill);
    }
  }

  /** The very first attempt's compute receipt is charged to Modal. */
  predicate FirstIsModal(rs: seq<Record>) {
    forall i :: 0 <= i < |rs| && StartsWith(rs[i].key, FIRST_PREFIX) ==> rs[i].provider == Modal
  }

  lemma {:induction false} FirstKeyDiffers(key: string)
    requires StartsWith(key, FIRST_PREFIX)
    ensures key != QUALIFICATION_KEY && key != MODEL_KEY
  {
    DifferentStart(key, FIRST_PREFIX, QUALIFICATION_KEY, 0);
    DifferentStart(key, FIRST_PREFIX, MODEL_KEY, 6);
  }

  lemma {:induction false} BaseWorth(v: nat, rs: seq<Record>)
    requires BaseHolds(v, rs) && FirstIsModal(rs) && Positive(rs)
    ensures Totals(rs).openrouter >= MODEL && Totals(rs).modal >= Touched(v)
  {
    hide Totals, StartsWith;
    var m: nat :| m < |rs| && rs[m].key == MODEL_KEY && rs[m].maximum == MODEL && rs[m].provider == OpenRouter;
    ThreeWorth(rs, m, |rs|, |rs| + 1, OpenRouter);
    if v < 3 {
      ThreeWorth(rs, m, |rs|, |rs| + 1, Modal);
    } else {
      var f: nat :| f < |rs| && StartsWith(rs[f].key, FIRST_PREFIX) && rs[f].maximum == COMPUTE;
      FirstKeyDiffers(rs[f].key);
      if v < 4 {
        ThreeWorth(rs, m, f, |rs|, Modal);
      } else {
        var q: nat :| q < |rs| && rs[q].key == QUALIFICATION_KEY && rs[q].maximum == QUALIFICATION
            && rs[q].provider == Modal;
        ThreeWorth(rs, m, f, q, Modal);
      }
    }
  }

  predicate Positive(rs: seq<Record>) { forall m :: 0 <= m < |rs| ==> rs[m].maximum >= 1 }

  /** Receipts at different places are worth no more than all of them together. */
  lemma {:induction false} ThreeWorth(rs: seq<Record>, i: nat, j: nat, k: nat, p: Provider)
    requires Positive(rs) && i != j && j != k && i != k
    ensures At(rs, i, p) + At(rs, j, p) + At(rs, k, p) <= Totals(rs).Of(p)
  {
    PickedWithin(rs, i, j, k, p);
    PickedIs(rs, i, j, k, p);
  }

  lemma {:induction false} BaseCoversDraws(c: Chain)
    requires Accepted(c) && Positive(c.Base()) && FirstIsModal(c.Base()) && FirstRun(c) != "first-solo"
    ensures Money(Touched(c.Version()), MODEL).Within(Totals(c.Base()))
  {
    BaseSupplies(c);
    BaseWorth(c.Version(), c.Base());
  }

  /** Receipts cover the releases together with what was billed and what must be kept, for each provider. */
  predicate Covered(c: Chain) { Add(Released(c), Add(Billed(c), Money(Earlier(c), 0))).Within(Totals(Receipts(c))) }

  /** An accepted chain is covered if and only if, for each provider, the receipts of the very first attempt and
      the excess of the third settlement hold what the amendments so far touch of that attempt: its model
      allowance, from the third on a compute allowance, and from the fourth on the qualification. */
  lemma {:induction false} CoveredExactly(c: Chain)
    requires Accepted(c)
    ensures Covered(c) <==> Money(Touched(c.Version()), MODEL).Within(Add(Totals(c.Base()), ExcessOf(c)))
  {
    AttemptsAccount(c);
    DrawnAndEarlier(c);
    Settle(c);
  }

  lemma {:induction false} Settle(c: Chain)
    requires Balanced(c) && Drawn(c).openrouter == MODEL && Drawn(c).modal + Earlier(c) == Touched(c.Version())
    ensures Covered(c) <==> Money(Touched(c.Version()), MODEL).Within(Add(Totals(c.Base()), ExcessOf(c)))
  {
    hide Totals, Receipts, Released, Billed, Earlier, ExcessOf, Drawn, Touched;
    SettleMoney(Released(c), Billed(c), Totals(Receipts(c)), Totals(c.Base()), ExcessOf(c), Drawn(c), Earlier(c));
  }

  lemma {:induction false} SettleMoney(released: Money, billed: Money, sum: Money, base: Money, excess: Money,
      drawn: Money, kept: int)
    requires Add(released, billed) == Add(sum.Minus(base).Minus(excess), drawn)
    ensures Add(released, Add(billed, Money(kept, 0))).Within(sum)
       <==> Money(drawn.modal + kept, drawn.openrouter).Within(Add(base, excess))
  {}

  /** Along every accepted chain, receipts less releases stay at least what was billed with its buffers and
      what the two earlier receipts must keep, for each provider. Four things are taken from the evidence and
      not checked by these amendments: that the first receipts are worth something, the provider of the very
      first attempt's compute receipt, the providers of the receipts that the third amendment settles, and
      that the first retry does not run as "first-solo". */
  lemma {:induction false} ReleasesAreCovered(c: Chain)
    requires Accepted(c) && ThirdProviders(c)
    requires Positive(c.Base()) && FirstIsModal(c.Base()) && FirstRun(c) != "first-solo"
    ensures Covered(c)
  {
    BaseCoversDraws(c);
    ExcessIsPositive(c);
    CoveredExactly(c);
    hide Accepted, ThirdProviders, Positive, FirstIsModal, FirstRun, Covered, Totals, ExcessOf, Touched;
    WithinMore(Money(Touched(c.Version()), MODEL), Totals(c.Base()), ExcessOf(c));
  }

  lemma {:induction false} WithinMore(a: Money, b: Money, more: Money)
    requires a.Within(b) && Money(0, 0).Within(more)
    ensures a.Within(Add(b, more))
  {}

  /** The first amendment only keeps its retry from running under the name that the audit of the very first
      attempt gives; it is enough that this name is "first-solo". */
  lemma {:induction false} AuditedFirstSolo(c: Chain)
    requires Accepted(c) && Audited(c) == "first-solo"
    ensures FirstRun(c) != "first-solo"
  {
    AuditedRunsDiffer(c);
  }

  // --- The amounts themselves ---------------------------------------------------------------------------------------

  /** The run identifiers that an accepted chain has: none is used twice in a row up to the fifth amendment, the third
      and later ones keep off the names of the runs before them, and the sixth has the one name. */
  lemma {:induction false} RunsAreNew(c: Chain)
    requires Accepted(c) && c.Next?
    ensures c.Version() <= 5 ==> c.runId != c.prev.runId
    ensures c.Version() in {3, 4} ==> c.runId !in {"first-solo", "solo-retry-0921"}
    ensures c.Version() in {4, 5} ==> c.runId != "solo-final-0921"
    ensures c.Version() == 5 ==> c.runId != "solo-next-0923"
    ensures c.Version() == 6 ==> c.runId == "solo-seriesfix-0925"
    ensures Named(c.attempt, c.prev.runId)
  {
    hide Named, AttemptAccepted, ReceiptsAccepted, TermsOf;
  }

  /** What the amendment that ends an accepted chain gives back, in nanodollars, and what it demanded of the attempt
      that it settles. From the fourth on the bill is fixed, and so is the release. */
  lemma {:induction false} SettledAmounts(c: Chain)
    requires Accepted(c) && c.Next?
    ensures c.attempt.model.maximum == 2_900_000_000 && c.attempt.overhead.maximum == 1_000_000_000
    ensures 2 <= c.Version() <= 6
    ensures c.Version() == 2 ==>
      && |c.attempt.computes| == 1 && 0 < c.bill.modal < c.attempt.computes[0].maximum - 100_000_000
      && c.terms.release == Money(900_000_000 + c.attempt.computes[0].maximum - c.bill.modal, 2_900_000_000)
    ensures c.Version() == 3 ==>
      && |c.attempt.computes| == 2 && 0 < c.bill.first <= 666_080_000 && 0 < c.bill.modal <= 432_160_000
      && c.terms.release == Money(2_666_080_000 - c.bill.first, 2_888_648_380)
    ensures c.Version() == 4 ==> |c.attempt.computes| == 2 && c.terms.release == Money(2_483_017_210, 2_886_918_280)
    ensures c.Version() == 5 ==> |c.attempt.computes| == 1 && c.terms.release == Money(1_947_053_420, 2_890_000_000)
    ensures c.Version() == 6 ==> |c.attempt.computes| == 12 && c.terms.release == Money(8_439_793_460, 2_884_890_040)
    ensures c.Version() > 2 ==> forall i :: 0 <= i < |c.attempt.computes| ==>
        c.attempt.computes[i].maximum == 766_080_000
    ensures c.Version() != 3 ==>
      && c.attempt.model.provider == OpenRouter && c.attempt.overhead.provider == Modal
      && forall i :: 0 <= i < |c.attempt.computes| ==> c.attempt.computes[i].provider == Modal
  {
    hide HasFirst, Qualified, Named, RunAccepted;
  }
}
