/** The rate card: what a call reserves, what it is charged, and how far rounding can drift. */
module RateCard {
  import opened Options

  const MILLION: int := 1_000_000

  /** Nanodollars per million tokens. */
  datatype Rates = Rates(uncached: nat, cached: nat, output: nat)

  datatype Usage = Usage(prompt: nat, cached: nat, completion: nat, stated: Option<nat>)

  predicate UsageValid(u: Usage) { u.cached <= u.prompt }

  /** Python's floor division, on the nonnegative numerators that occur here. */
  function CeilDiv(numerator: nat, denominator: nat): (r: nat)
    requires denominator > 0
    ensures numerator <= r * denominator < numerator + denominator
  {
    (numerator + denominator - 1) / denominator
  }

  function AtLeastOne(n: nat): nat { if n < 1 then 1 else n }

  function Maximum(r: Rates, inputUpper: nat, outputUpper: nat): nat {
    inputUpper * (if r.uncached < r.cached then r.cached else r.uncached) + outputUpper * r.output
  }

  /** The exact cost of a call, in millionths of a nanodollar. */
  function Exact(r: Rates, u: Usage): nat
    requires UsageValid(u)
  {
    (u.prompt - u.cached) * r.uncached + u.cached * r.cached + u.completion * r.output
  }

  function ReserveMaximum(r: Rates, inputUpper: nat, outputUpper: nat): nat {
    AtLeastOne(CeilDiv(Maximum(r, inputUpper, outputUpper), MILLION))
  }

  function Charge(r: Rates, u: Usage): nat
    requires UsageValid(u)
  {
    if u.stated.Some? then u.stated.value else AtLeastOne(CeilDiv(Exact(r, u), MILLION))
  }

  lemma TimesMonotone(a: nat, b: nat, c: nat)
    requires a <= b
    ensures a * c <= b * c && c * a <= c * b
  {
    assert (b - a) * c >= 0;
  }

  lemma ExactWithinMaximum(r: Rates, u: Usage, inputUpper: nat, outputUpper: nat)
    requires UsageValid(u) && u.prompt <= inputUpper && u.completion <= outputUpper
    ensures Exact(r, u) <= Maximum(r, inputUpper, outputUpper)
  {
    var rate := if r.uncached < r.cached then r.cached else r.uncached;
    TimesMonotone(r.uncached, rate, u.prompt - u.cached);
    TimesMonotone(r.cached, rate, u.cached);
    assert (u.prompt - u.cached) * rate + u.cached * rate == u.prompt * rate;
    TimesMonotone(u.prompt, inputUpper, rate);
    TimesMonotone(u.completion, outputUpper, r.output);
  }

  lemma CeilDivMonotone(a: nat, b: nat)
    requires a <= b
    ensures CeilDiv(a, MILLION) <= CeilDiv(b, MILLION)
  {}

  /** A call within its reserved token bounds is never charged more than it reserved, except by a cost that
      the provider states itself. */
  lemma ChargeWithinReservation(r: Rates, u: Usage, inputUpper: nat, outputUpper: nat)
    requires UsageValid(u) && u.prompt <= inputUpper && u.completion <= outputUpper
    ensures Charge(r, u) <= ReserveMaximum(r, inputUpper, outputUpper)
      <==> u.stated.None? || u.stated.value <= ReserveMaximum(r, inputUpper, outputUpper)
  {
    ExactWithinMaximum(r, u, inputUpper, outputUpper);
    CeilDivMonotone(Exact(r, u), Maximum(r, inputUpper, outputUpper));
  }

  // --- Many calls ---------------------------------------------------------------------------------------

  predicate Metered(us: seq<Usage>) { forall u :: u in us ==> UsageValid(u) && u.stated.None? }

  function TotalCharge(r: Rates, us: seq<Usage>): nat
    requires Metered(us)
  {
    if us == [] then 0 else Charge(r, us[0]) + TotalCharge(r, us[1..])
  }

  function TotalExact(r: Rates, us: seq<Usage>): nat
    requires Metered(us)
  {
    if us == [] then 0 else Exact(r, us[0]) + TotalExact(r, us[1..])
  }

  /** Over any sequence of metered calls the charges cover the exact cost and exceed it by at most one
      nanodollar a call. */
  lemma {:induction false} RoundingDrift(r: Rates, us: seq<Usage>)
    requires Metered(us)
    ensures TotalExact(r, us) <= TotalCharge(r, us) * MILLION <= TotalExact(r, us) + |us| * MILLION
  {
    if us != [] { RoundingDrift(r, us[1..]); }
  }

  /** The whole nanodollar of drift is reached only by calls that cost nothing at all: they are charged the
      minimum. */
  lemma DriftIsStrict(r: Rates, u: Usage)
    requires UsageValid(u) && u.stated.None?
    ensures Charge(r, u) * MILLION == Exact(r, u) + MILLION <==> Exact(r, u) == 0
  {}

  // --- What is charged and reserved --------------------------------------------------------------------------

  /** A metered call is charged the least whole number of nanodollars, at least one, that covers its uncached and
      cached prompt tokens and its completion tokens at their rates; a cost stated by the provider is charged as it
      is. */
  lemma {:induction false} ChargeIsLeast(r: Rates, u: Usage)
    requires UsageValid(u)
    ensures
      var charge := Charge(r, u);
      var exact := (u.prompt - u.cached) * r.uncached + u.cached * r.cached + u.completion * r.output;
      if u.stated.Some? then charge == u.stated.value
      else charge >= 1 && exact <= charge * 1_000_000 && (charge > 1 ==> (charge - 1) * 1_000_000 < exact)
  {}

  /** The reservation is no more than it must be: some call within the reserved bounds is charged all of it. */
  lemma {:induction false} ReservationIsReached(r: Rates, inputUpper: nat, outputUpper: nat) returns (u: Usage)
    ensures UsageValid(u) && u.prompt <= inputUpper && u.completion <= outputUpper && u.stated.None?
    ensures Charge(r, u) == ReserveMaximum(r, inputUpper, outputUpper)
  {
    u := Usage(inputUpper, if r.uncached < r.cached then inputUpper else 0, outputUpper, None);
    assert Exact(r, u) == Maximum(r, inputUpper, outputUpper);
  }
}
