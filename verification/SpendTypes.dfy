/** The documents of the spend journal, and the directory that retains them. */
module SpendTypes {
  import opened Options
  import opened Ordering
  import opened Sequences

  datatype Provider = Modal | OpenRouter
  datatype Purpose = Qualification | Pilot | Overhead

  /** One amount of nanodollars for each provider. */
  datatype Money = Money(modal: int, openrouter: int) {
    function Of(p: Provider): int { match p case Modal => modal case OpenRouter => openrouter }
    function Plus(p: Provider, n: int): Money {
      match p case Modal => Money(modal + n, openrouter) case OpenRouter => Money(modal, openrouter + n)
    }
    function Minus(m: Money): Money { Money(modal - m.modal, openrouter - m.openrouter) }
    function Sum(): int { modal + openrouter }
    predicate Within(m: Money) { modal <= m.modal && openrouter <= m.openrouter }
  }

  /** An admission receipt: the exact operation that was debited. */
  datatype Record = Record(key: string, provider: Provider, purpose: Purpose, request: string, maximum: int,
      plan: string)

  datatype Plan = Plan(id: string, limits: Money, total: int)

  /** A retry amendment, as far as the journal reads it. */
  datatype Amendment = Amendment(runId: string, limits: Money, total: int, content: string)

  /** A batch approval: it pins the digest of the preceding snapshot and lists its exact admissions. */
  datatype Approval = Approval(id: string, prior: string, limits: Money, total: int, admissions: seq<Record>)

  datatype Admission = Admission(approval: string, receipts: seq<Record>)

  datatype Snapshot = Snapshot(
    plan: string, amendment: Option<Amendment>, released: Money,
    reserved: Money, limits: Money, receipts: seq<Record>, batches: seq<string>)
  {
    function Remaining(): Money { limits.Minus(reserved) }
  }

  /** The digests in use. Nothing is assumed of them unless a statement says so. */
  datatype Hashes = Hashes(
    key: string -> string,
    plan: Plan -> string,
    amendment: Amendment -> string,
    approval: Approval -> string,
    snapshot: Snapshot -> string)

  datatype BatchFiles = BatchFiles(approval: Option<Approval>, admission: Option<Admission>)

  /** The journal directory. `receipts` are the receipt files in name order, as a sorted listing yields
      them. `amendments` are the thirteen files below `retry/` in the order of their versions. `batches`
      maps a directory name below `batches/` to its two documents; `strays` counts the temporary files
      that a crash inside a retained write left below `batches/`. */
  datatype Disk = Disk(
    plan: Option<Plan>,
    receipts: seq<Field<Record>>,
    amendments: seq<Option<Amendment>>,
    batches: map<string, BatchFiles>,
    strays: nat)
  {
    function Batch(name: string): BatchFiles {
      if name in batches then batches[name] else BatchFiles(None, None)
    }
  }

  const VERSIONS: nat := 13

  function EmptyDisk(): Disk { Disk(None, [], seq(VERSIONS, _ => None), map[], 0) }

  /** Who holds an envelope: the pinned plan, the chain of retry amendments up to the one in force with
      what its validation returned, and the pinned batch approvals. `permits` is the inventory of an
      evaluation-only amendment, version eleven or later. */
  datatype Retry = Retry(chain: seq<Amendment>, prior: seq<Record>, releases: Money, permits: Record -> bool)
  datatype Authority = Authority(plan: Plan, retry: Option<Retry>, approvals: seq<Approval>) {
    function Chain(): seq<Amendment> { if retry.Some? then retry.value.chain else [] }

    /** Ceilings come from the plan, or from the amendment in force but never a later one than the tenth:
        the later versions unwrap to it before their limits are read. */
    function CeilingSource(): Option<Amendment> {
      var chain := Chain();
      if chain == [] then None else if |chain| <= 10 then Some(chain[|chain| - 1]) else Some(chain[9])
    }
    function Limits(): Money { if CeilingSource().Some? then CeilingSource().value.limits else plan.limits }
    function Total(): int { if CeilingSource().Some? then CeilingSource().value.total else plan.total }
    function Released(): Money { if retry.Some? then retry.value.releases else Money(0, 0) }
    function PriorKeys(): set<string> { if retry.Some? then set r | r in retry.value.prior :: r.key else {} }
    predicate WellFormed() { retry.Some? ==> 1 <= |retry.value.chain| <= VERSIONS }
  }

  // --- Names ----------------------------------------------------------------------------------------

  predicate IsAlphanumeric(c: char) { 'A' <= c <= 'Z' || 'a' <= c <= 'z' || '0' <= c <= '9' }

  predicate KeyText(s: string) {
    && 1 <= |s| <= 192 && IsAlphanumeric(s[0])
    && forall i :: 1 <= i < |s| ==> IsAlphanumeric(s[i]) || s[i] == '.' || s[i] == '_' || s[i] == ':' || s[i] == '-'
  }

  predicate BatchIdText(s: string) {
    && 1 <= |s| <= 81 && IsAlphanumeric(s[0])
    && forall i :: 1 <= i < |s| ==> IsAlphanumeric(s[i]) || s[i] == '_' || s[i] == '-'
  }

  predicate StartsWith(s: string, prefix: string) { |prefix| <= |s| && s[..|prefix|] == prefix }

  /** `_validate_receipt`; the closed types hold the provider and purpose checks. */
  predicate ReceiptValid(h: Hashes, a: Authority, r: Record) {
    r.plan == h.plan(a.plan) && KeyText(r.key) && r.maximum >= 1
  }

  // --- Sums -----------------------------------------------------------------------------------------

  function Totals(records: seq<Record>): Money {
    if records == [] then Money(0, 0)
    else Totals(records[..|records| - 1]).Plus(records[|records| - 1].provider, records[|records| - 1].maximum)
  }

  function Add(m: Money, n: Money): Money { Money(m.modal + n.modal, m.openrouter + n.openrouter) }

  lemma {:induction false} TotalsConcat(a: seq<Record>, b: seq<Record>)
    ensures Totals(a + b) == Add(Totals(a), Totals(b))
    decreases |b|
  {
    if b == [] {
      ConcatEmpty(a);
    } else {
      TotalsConcat(a, b[..|b| - 1]);
      InitOfConcat(a, b);
    }
  }

  lemma {:induction false} TotalsOne(r: Record)
    ensures Totals([r]) == Money(0, 0).Plus(r.provider, r.maximum)
  {
    assert [r][..0] == [];
  }

  lemma {:induction false} TotalsInsert(a: seq<Record>, r: Record, b: seq<Record>)
    ensures Totals(a + [r] + b) == Totals(a + b).Plus(r.provider, r.maximum)
  {
    TotalsConcat(a, b);
    TotalsConcat(a + [r], b);
    TotalsConcat(a, [r]);
    TotalsOne(r);
  }

  ghost predicate DistinctKeys(records: seq<Record>) {
    forall i, j :: 0 <= i < j < |records| ==> records[i].key != records[j].key
  }
}
