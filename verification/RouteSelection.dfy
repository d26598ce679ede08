/** Choosing a provider route: a filter and a minimum that do not depend on the order of the candidates. */
module RouteSelection {
  import opened Options
  import opened Ordering

  datatype Candidate = Candidate(
    name: string, tag: string, quantization: string, status: int, context: int, completion: int,
    parameters: set<string>, implicitCaching: bool, zdr: bool, uptime: real,
    promptPrice: real, completionPrice: real)

  datatype Policy = Policy(
    quantizations: set<string>, required: set<string>, zdr: bool, noImplicitCaching: bool,
    minimumContext: int, minimumCompletion: int, minimumUptime: real, inputTokens: int, outputTokens: int)

  datatype Reason =
    | Unavailable | QuantizationNotAllowed | ParametersMissing | ZdrNotAttested
    | ImplicitCaching | ContextTooSmall | CompletionTooSmall | UptimeBelowThreshold

  function When(failed: bool, reason: Reason): seq<Reason> { if failed then [reason] else [] }

  function Rejections(p: Policy, c: Candidate): seq<Reason> {
    When(c.status != 0, Unavailable)
    + When(c.quantization !in p.quantizations, QuantizationNotAllowed)
    + When(!(p.required <= c.parameters), ParametersMissing)
    + When(p.zdr && !c.zdr, ZdrNotAttested)
    + When(p.noImplicitCaching && c.implicitCaching, ImplicitCaching)
    + When(c.context < p.minimumContext, ContextTooSmall)
    + When(c.completion < p.minimumCompletion, CompletionTooSmall)
    + When(c.uptime < p.minimumUptime, UptimeBelowThreshold)
  }

  predicate Eligible(p: Policy, c: Candidate) { Rejections(p, c) == [] }

  function Ceiling(x: real): int { -((-x).Floor) }

  /** The projected cost of the representative mix in nanodollars, rounded up. */
  function Cost(p: Policy, c: Candidate): int {
    Ceiling((c.promptPrice * p.inputTokens as real + c.completionPrice * p.outputTokens as real) * 1_000_000_000.0)
  }

  // --- Ranking ------------------------------------------------------------------------------------------

  /** The order of the pairs of projected cost and provider name. */
  predicate Cheaper(p: Policy, a: Candidate, b: Candidate) {
    Cost(p, a) < Cost(p, b) || (Cost(p, a) == Cost(p, b) && Below(a.name, b.name))
  }

  function Rank(p: Policy, c: Candidate, s: seq<Candidate>): seq<Candidate> {
    if s == [] then [c] else if Cheaper(p, s[0], c) then [s[0]] + Rank(p, c, s[1..]) else [c] + s
  }

  function Ranked(p: Policy, s: seq<Candidate>): seq<Candidate> {
    if s == [] then [] else Rank(p, s[0], Ranked(p, s[1..]))
  }

  function Filtered(p: Policy, s: seq<Candidate>): seq<Candidate> {
    if s == [] then [] else Filtered(p, s[..|s| - 1]) + if Eligible(p, s[|s| - 1]) then [s[|s| - 1]] else []
  }

  function Rejected(p: Policy, s: seq<Candidate>): map<string, seq<Reason>> {
    if s == [] then map[]
    else
      var last := s[|s| - 1];
      if Eligible(p, last) then Rejected(p, s[..|s| - 1])
          else Rejected(p, s[..|s| - 1])[last.name := Rejections(p, last)]
  }

  /** The selected route and its cost, the eligible candidates in order, and why the others were rejected. */
  datatype Selection = Selection(selected: Candidate, cost: int, eligible: seq<Candidate>,
      rejected: map<string, seq<Reason>>)

  function Select(p: Policy, s: seq<Candidate>): Option<Selection> {
    var ranked := Ranked(p, Filtered(p, s));
    if ranked == [] then None else Some(Selection(ranked[0], Cost(p, ranked[0]), ranked, Rejected(p, s)))
  }

  /** `select`, as the loop that splits the candidates. */
  method SelectRoute(p: Policy, s: seq<Candidate>) returns (r: Option<Selection>)
    ensures r == Select(p, s)
  {
    var eligible: seq<Candidate> := [];
    var rejected: map<string, seq<Reason>> := map[];
    for i := 0 to |s|
      invariant eligible == Filtered(p, s[..i]) && rejected == Rejected(p, s[..i])
    {
      assert s[..i + 1][..i] == s[..i];
      var reasons := Rejections(p, s[i]);
      if reasons != [] { rejected := rejected[s[i].name := reasons]; } else { eligible := eligible + [s[i]]; }
    }
    assert s[..|s|] == s;
    var ranked := Ranked(p, eligible);
    if ranked == [] { return None; }
    return Some(Selection(ranked[0], Cost(p, ranked[0]), ranked, rejected));
  }

  // --- The ranking is total -----------------------------------------------------------------------------

  predicate UniqueNames(s: seq<Candidate>) { forall i, j :: 0 <= i < j < |s| ==> s[i].name != s[j].name }

  predicate InOrder(p: Policy, s: seq<Candidate>) { forall i, j :: 0 <= i < j < |s| ==> Cheaper(p, s[i], s[j]) }

  lemma {:induction false} CheaperTransitive(p: Policy, a: Candidate, b: Candidate, c: Candidate)
    requires Cheaper(p, a, b) && Cheaper(p, b, c)
    ensures Cheaper(p, a, c)
  {
    if Cost(p, a) == Cost(p, b) == Cost(p, c) { BelowTransitive(a.name, b.name, c.name); }
  }

  lemma {:induction false} CheaperTotal(p: Policy, a: Candidate, b: Candidate)
    ensures Cheaper(p, a, b) || Cheaper(p, b, a) || a.name == b.name
    ensures !(Cheaper(p, a, b) && Cheaper(p, b, a))
  {
    BelowTotal(a.name, b.name);
    if Below(a.name, b.name) { BelowAsymmetric(a.name, b.name); }
  }

  lemma {:induction false} RankElements(p: Policy, c: Candidate, s: seq<Candidate>)
    ensures |Rank(p, c, s)| == |s| + 1 && forall x :: x in Rank(p, c, s) <==> x == c || x in s
    decreases |s|
  {
    if s != [] && Cheaper(p, s[0], c) { RankElements(p, c, s[1..]); assert s == [s[0]] + s[1..]; }
  }

  lemma {:induction false} RankInOrder(p: Policy, c: Candidate, s: seq<Candidate>)
    requires InOrder(p, s) && forall x :: x in s ==> x.name != c.name
    ensures InOrder(p, Rank(p, c, s))
    decreases |s|
  {
    if s != [] {
      assert s[0] in s;
      CheaperTotal(p, s[0], c);
      if Cheaper(p, s[0], c) {
        var rest := Rank(p, c, s[1..]);
        assert forall x :: x in s[1..] ==> x in s;
        RankInOrder(p, c, s[1..]);
        RankElements(p, c, s[1..]);
        forall j | 0 <= j < |rest| ensures Cheaper(p, s[0], rest[j]) { assert rest[j] in rest; }
      } else {
        forall j | 0 <= j < |s| ensures Cheaper(p, c, s[j]) {
          if j > 0 { CheaperTransitive(p, c, s[0], s[j]); }
        }
      }
    }
  }

  lemma {:induction false} RankedInOrder(p: Policy, s: seq<Candidate>)
    requires UniqueNames(s)
    ensures InOrder(p, Ranked(p, s)) && |Ranked(p, s)| == |s|
    ensures forall x :: x in Ranked(p, s) <==> x in s
    decreases |s|
  {
    if s != [] {
      RankedInOrder(p, s[1..]);
      RankElements(p, s[0], Ranked(p, s[1..]));
      forall x | x in s[1..] ensures x.name != s[0].name {
        var i :| 0 <= i < |s[1..]| && s[1..][i] == x;
        assert s[i + 1] == x;
      }
      RankInOrder(p, s[0], Ranked(p, s[1..]));
      assert s == [s[0]] + s[1..];
    }
  }

  /** Two lists in strict order with the same members are the same list. */
  lemma {:induction false} OrderDetermines(p: Policy, s: seq<Candidate>, t: seq<Candidate>)
    requires InOrder(p, s) && InOrder(p, t) && |s| == |t|
    requires forall x :: x in s <==> x in t
    ensures s == t
    decreases |s|
  {
    if s != [] {
      HeadIsCheapest(p, s, t[0]);
      HeadIsCheapest(p, t, s[0]);
      CheaperTotal(p, s[0], t[0]);
      forall x ensures x in s[1..] <==> x in t[1..] {
        TailHolds(p, s, t, x);
        TailHolds(p, t, s, x);
      }
      OrderDetermines(p, s[1..], t[1..]);
      assert s == [s[0]] + s[1..] && t == [t[0]] + t[1..];
    }
  }

  lemma {:induction false} HeadIsCheapest(p: Policy, s: seq<Candidate>, x: Candidate)
    requires InOrder(p, s) && x in s
    ensures s[0] == x || Cheaper(p, s[0], x)
  {}

  lemma {:induction false} TailHolds(p: Policy, s: seq<Candidate>, t: seq<Candidate>, x: Candidate)
    requires InOrder(p, s) && s != [] && t != [] && s[0] == t[0] && forall y :: y in s <==> y in t
    ensures x in s[1..] ==> x in t[1..]
  {
    if x in s[1..] {
      var i :| 0 <= i < |s[1..]| && s[1..][i] == x;
      assert s[i + 1] == x && Cheaper(p, s[0], x);
      CheaperTotal(p, x, x);
      assert x in t && x != t[0];
    }
  }

  // --- Filtering ----------------------------------------------------------------------------------------

  lemma {:induction false} FilteredElements(p: Policy, s: seq<Candidate>)
    ensures forall x :: x in Filtered(p, s) <==> x in s && Eligible(p, x)
    ensures UniqueNames(s) ==> UniqueNames(Filtered(p, s))
    decreases |s|
  {
    if s != [] {
      var init, last := s[..|s| - 1], s[|s| - 1];
      FilteredElements(p, init);
      assert s == init + [last];
      if UniqueNames(s) {
        forall x | x in Filtered(p, init) ensures x.name != last.name {
          assert x in init;
          var i :| 0 <= i < |init| && init[i] == x;
          assert s[i] == x;
        }
      }
    }
  }

  predicate Refused(p: Policy, s: seq<Candidate>, name: string) {
    exists c :: c in s && !Eligible(p, c) && c.name == name
  }

  lemma {:induction false} RejectedNames(p: Policy, s: seq<Candidate>)
    ensures forall name :: name in Rejected(p, s) ==> Refused(p, s, name)
    decreases |s|
  {
    if s != [] {
      var init, last := s[..|s| - 1], s[|s| - 1];
      RejectedNames(p, init);
      assert forall c :: c in init ==> c in s;
      assert last in s;
      hide Eligible, Rejections;
    }
  }

  lemma {:induction false} LastNameIsNew(s: seq<Candidate>, c: Candidate)
    requires UniqueNames(s) && s != [] && c in s[..|s| - 1]
    ensures c.name != s[|s| - 1].name
  {
    var i :| 0 <= i < |s| - 1 && s[..|s| - 1][i] == c;
    assert s[i] == c;
  }

  lemma {:induction false} RejectedReasons(p: Policy, s: seq<Candidate>, c: Candidate)
    requires UniqueNames(s) && c in s && !Eligible(p, c)
    ensures c.name in Rejected(p, s) && Rejected(p, s)[c.name] == Rejections(p, c)
    decreases |s|
  {
    hide Eligible, Rejections;
    var init, last := s[..|s| - 1], s[|s| - 1];
    assert s == init + [last];
    if c in init {
      LastNameIsNew(s, c);
      RejectedReasons(p, init, c);
    }
  }

  lemma {:induction false} RejectedElements(p: Policy, s: seq<Candidate>)
    requires UniqueNames(s)
    ensures forall c :: c in s && !Eligible(p, c) ==>
      c.name in Rejected(p, s) && Rejected(p, s)[c.name] == Rejections(p, c)
    ensures forall name :: name in Rejected(p, s) ==> Refused(p, s, name)
  {
    hide Eligible, Rejections, Rejected;
    RejectedNames(p, s);
    forall c | c in s && !Eligible(p, c)
      ensures c.name in Rejected(p, s) && Rejected(p, s)[c.name] == Rejections(p, c)
    {
      RejectedReasons(p, s, c);
    }
  }

  // --- What selection means -----------------------------------------------------------------------------

  /** A route is selected exactly when some candidate is eligible, and then it is the eligible candidate of
      least cost and, among those, of least name. The eligible candidates and the rejected names partition
      the candidates. */
  lemma {:induction false} SelectsLeast(p: Policy, s: seq<Candidate>)
    requires UniqueNames(s)
    ensures Select(p, s).Some? <==> exists c :: c in s && Eligible(p, c)
    ensures Select(p, s).Some? ==>
      var r := Select(p, s).value;
      && r.selected in s && Eligible(p, r.selected) && r.cost == Cost(p, r.selected)
      && (forall c :: c in s && Eligible(p, c) && c != r.selected ==> Cheaper(p, r.selected, c))
      && (forall c :: c in s ==> (c in r.eligible <==> c.name !in r.rejected))
      && (forall c :: c in r.eligible ==> c in s)
      && (forall c :: c in s && c.name in r.rejected ==> r.rejected[c.name] == Rejections(p, c) != [])
  {
    var eligible := Filtered(p, s);
    FilteredElements(p, s);
    RankedInOrder(p, eligible);
    RejectedElements(p, s);
    var ranked := Ranked(p, eligible);
    assert forall c :: c in s && Eligible(p, c) ==> c in ranked;
    if ranked != [] {
      assert ranked[0] in ranked;
      forall c | c in s && Eligible(p, c) && c != ranked[0] ensures Cheaper(p, ranked[0], c) {
        assert c in ranked;
        HeadIsCheapest(p, ranked, c);
      }
      forall c | c in s ensures c in ranked <==> c.name !in Rejected(p, s) { NamesIdentify(s, p, c); }
    }
  }

  lemma {:induction false} NamesIdentify(s: seq<Candidate>, p: Policy, c: Candidate)
    requires UniqueNames(s) && c in s
    ensures c.name in Rejected(p, s) <==> !Eligible(p, c)
  {
    RejectedElements(p, s);
    if c.name in Rejected(p, s) {
      var d :| d in s && !Eligible(p, d) && d.name == c.name;
      assert d == c;
    }
  }

  /** The selection, with its evidence, is the same for every order of the candidates. */
  lemma {:induction false} SelectionIgnoresOrder(p: Policy, s: seq<Candidate>, t: seq<Candidate>)
    requires UniqueNames(s) && UniqueNames(t) && forall c :: c in s <==> c in t
    ensures Select(p, s) == Select(p, t)
  {
    FilteredElements(p, s);
    FilteredElements(p, t);
    RankedInOrder(p, Filtered(p, s));
    RankedInOrder(p, Filtered(p, t));
    SameMembersSameLength(Filtered(p, s), Filtered(p, t));
    OrderDetermines(p, Ranked(p, Filtered(p, s)), Ranked(p, Filtered(p, t)));
    RejectedAgree(p, s, t);
  }

  lemma {:induction false} RejectedAgree(p: Policy, s: seq<Candidate>, t: seq<Candidate>)
    requires UniqueNames(s) && UniqueNames(t) && forall c :: c in s <==> c in t
    ensures Rejected(p, s) == Rejected(p, t)
  {
    hide Eligible, Rejected, Rejections;
    RejectedElements(p, s);
    RejectedElements(p, t);
    assert forall name :: name in Rejected(p, s) <==> name in Rejected(p, t);
    forall name | name in Rejected(p, s) ensures Rejected(p, s)[name] == Rejected(p, t)[name] {
      var c :| c in s && !Eligible(p, c) && c.name == name;
    }
  }

  lemma {:induction false} SameMembersSameLength(s: seq<Candidate>, t: seq<Candidate>)
    requires UniqueNames(s) && UniqueNames(t) && forall c :: c in s <==> c in t
    ensures |s| == |t|
  {
    SetOfDistinct(s);
    SetOfDistinct(t);
    assert (set c | c in s) == (set c | c in t);
  }

  lemma {:induction false} SetOfDistinct(s: seq<Candidate>)
    requires UniqueNames(s)
    ensures |set c | c in s| == |s|
    decreases |s|
  {
    if s != [] {
      var init, last := s[..|s| - 1], s[|s| - 1];
      SetOfDistinct(init);
      assert (set c | c in s) == (set c | c in init) + {last};
      forall i | 0 <= i < |init| ensures init[i] != last { assert s[i].name != s[|s| - 1].name; }
    }
  }

  // --- Tightening ---------------------------------------------------------------------------------------

  /** The same mix under thresholds that are nowhere weaker. */
  predicate Tightens(p: Policy, q: Policy) {
    && q.inputTokens == p.inputTokens && q.outputTokens == p.outputTokens
    && q.quantizations <= p.quantizations && p.required <= q.required
    && (p.zdr ==> q.zdr) && (p.noImplicitCaching ==> q.noImplicitCaching)
    && p.minimumContext <= q.minimumContext && p.minimumCompletion <= q.minimumCompletion
    && p.minimumUptime <= q.minimumUptime
  }

  lemma {:induction false} TighterIsFewer(p: Policy, q: Policy, c: Candidate)
    requires Tightens(p, q) && Eligible(q, c)
    ensures Eligible(p, c)
  {}

  /** Under tighter thresholds no cheaper route is ever selected, and the old selection stays exactly when
      it still qualifies. */
  lemma {:induction false} TighteningIsMonotone(p: Policy, q: Policy, s: seq<Candidate>)
    requires UniqueNames(s) && Tightens(p, q) && Select(q, s).Some?
    ensures Select(p, s).Some?
    ensures
      var (was, now) := (Select(p, s).value.selected, Select(q, s).value.selected);
      && Cost(p, was) <= Cost(q, now) && !Cheaper(p, now, was)
      && (now == was <==> Eligible(q, was))
  {
    SelectsLeast(p, s);
    SelectsLeast(q, s);
    var now := Select(q, s).value.selected;
    TighterIsFewer(p, q, now);
    var was := Select(p, s).value.selected;
    SameCost(p, q, now);
    SameCost(p, q, was);
    CheaperTotal(p, was, now);
    CheaperTotal(q, was, now);
  }

  lemma {:induction false} SameCost(p: Policy, q: Policy, c: Candidate)
    requires Tightens(p, q)
    ensures Cost(p, c) == Cost(q, c)
  {}

  // --- Costs and reasons, in the policy's own terms --------------------------------------------------------

  /** The cost is the least whole number of nanodollars that covers the representative mix: its input tokens at the
      candidate's prompt price and its output tokens at the completion price. */
  lemma {:induction false} CostIsLeast(p: Policy, c: Candidate)
    ensures
      var dollars := p.inputTokens as real * c.promptPrice + p.outputTokens as real * c.completionPrice;
      var exact := dollars * 1_000_000_000.0;
      (Cost(p, c) - 1) as real < exact <= Cost(p, c) as real
  {
    var exact := (c.promptPrice * p.inputTokens as real + c.completionPrice * p.outputTokens as real) * 1_000_000_000.0;
    assert (-exact).Floor as real <= -exact < ((-exact).Floor + 1) as real;
  }

  /** What missing the threshold behind a reason is. */
  predicate Misses(p: Policy, c: Candidate, reason: Reason) {
    match reason
    case Unavailable => c.status != 0
    case QuantizationNotAllowed => c.quantization !in p.quantizations
    case ParametersMissing => exists parameter :: parameter in p.required && parameter !in c.parameters
    case ZdrNotAttested => p.zdr && !c.zdr
    case ImplicitCaching => p.noImplicitCaching && c.implicitCaching
    case ContextTooSmall => c.context < p.minimumContext
    case CompletionTooSmall => c.completion < p.minimumCompletion
    case UptimeBelowThreshold => c.uptime < p.minimumUptime
  }

  lemma {:induction false} WhenAdds(s: seq<Reason>, failed: bool, reason: Reason, r: Reason)
    ensures r in s + When(failed, reason) <==> r in s || (failed && r == reason)
  {}

  function FirstReasons(p: Policy, c: Candidate): seq<Reason> {
    When(c.status != 0, Unavailable)
    + When(c.quantization !in p.quantizations, QuantizationNotAllowed)
    + When(!(p.required <= c.parameters), ParametersMissing)
    + When(p.zdr && !c.zdr, ZdrNotAttested)
  }

  lemma {:induction false} FirstReasonsExactly(p: Policy, c: Candidate, reason: Reason)
    ensures reason in FirstReasons(p, c) <==>
      && (reason.Unavailable? || reason.QuantizationNotAllowed? || reason.ParametersMissing? || reason.ZdrNotAttested?)
      && Misses(p, c, reason)
  {
    var s1 := When(c.status != 0, Unavailable);
    WhenAdds([], c.status != 0, Unavailable, reason);
    assert [] + s1 == s1;
    hide When;
    var s2 := s1 + When(c.quantization !in p.quantizations, QuantizationNotAllowed);
    var s3 := s2 + When(!(p.required <= c.parameters), ParametersMissing);
    WhenAdds(s1, c.quantization !in p.quantizations, QuantizationNotAllowed, reason);
    WhenAdds(s2, !(p.required <= c.parameters), ParametersMissing, reason);
    WhenAdds(s3, p.zdr && !c.zdr, ZdrNotAttested, reason);
  }

  /** Each reason is given if and only if its threshold is missed; reaching a threshold is enough. */
  lemma {:induction false} ReasonsExactly(p: Policy, c: Candidate, reason: Reason)
    ensures reason in Rejections(p, c) <==> Misses(p, c, reason)
  {
    FirstReasonsExactly(p, c, reason);
    var s4 := FirstReasons(p, c);
    var s5 := s4 + When(p.noImplicitCaching && c.implicitCaching, ImplicitCaching);
    var s6 := s5 + When(c.context < p.minimumContext, ContextTooSmall);
    var s7 := s6 + When(c.completion < p.minimumCompletion, CompletionTooSmall);
    assert Rejections(p, c) == s7 + When(c.uptime < p.minimumUptime, UptimeBelowThreshold) by { hide When; }
    hide When, FirstReasons, Rejections;
    WhenAdds(s4, p.noImplicitCaching && c.implicitCaching, ImplicitCaching, reason);
    WhenAdds(s5, c.context < p.minimumContext, ContextTooSmall, reason);
    WhenAdds(s6, c.completion < p.minimumCompletion, CompletionTooSmall, reason);
    WhenAdds(s7, c.uptime < p.minimumUptime, UptimeBelowThreshold, reason);
  }

  /** A candidate is eligible if and only if it misses no threshold. */
  lemma {:induction false} EligibleExactly(p: Policy, c: Candidate)
    ensures Eligible(p, c) <==>
      && c.status == 0 && c.quantization in p.quantizations && p.required <= c.parameters
      && (p.zdr ==> c.zdr) && (p.noImplicitCaching ==> !c.implicitCaching)
      && c.context >= p.minimumContext && c.completion >= p.minimumCompletion && c.uptime >= p.minimumUptime
  {}
}
