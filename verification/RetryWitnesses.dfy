/** Accepted chains whose releases the receipts do not cover: one for each thing that the third amendment leaves
    to its evidence. */
module RetryWitnesses {
  import opened RetryChain
  import opened SpendTypes

  /** When the first retry runs as "first-solo", as it may if the audit names another run, the receipt that
      the third amendment takes for the first attempt's is one that the second has settled already. */
  lemma {:induction false} ReusedIdentifierSettlesTwice(base: seq<Record>, a2: Attempt, a3: Attempt, i: nat)
    requires Named(a2, "first-solo") && |a2.computes| == 1 && OnlyAt(base + New(a2) + New(a3), i)
    ensures i == |base| + 2 && (base + New(a2) + New(a3))[i] == a2.computes[0]
  {
    var rs, here := base + New(a2) + New(a3), |base| + 2;
    assert New(a2)[2] == a2.computes[0];
    assert rs[here] == a2.computes[0];
    FirstPrefixIs();
    assert StartsWith(rs[here].key, FIRST_PREFIX);
  }

  // --- Three amendments ---------------------------------------------------------------------------------------------

  function Receipt(key: string, provider: Provider, maximum: int): Record {
    Record(key, provider, Pilot, "", maximum, "")
  }

  function ModelReceipt(): Record { Receipt(MODEL_KEY, OpenRouter, MODEL) }

  function FirstReceipt(provider: Provider): Record { Receipt("pilot:first-solo:compute:1", provider, COMPUTE) }

  /** The attempt that ran under the first amendment, as `run`. */
  function SecondAttempt(run: string): Attempt {
    Attempt(Receipt("pilot:retry-1:openrouter:base", OpenRouter, MODEL),
        Receipt("pilot:retry-1:modal:base", Modal, OVERHEAD),
            [Receipt("pilot:" + run + ":compute:1", Modal, COMPUTE)])
  }

  /** The attempt that ran under the second amendment, with all but its model allowance charged to `provider`. */
  function ThirdAttempt(provider: Provider): Attempt {
    Attempt(Receipt("pilot:retry-2:openrouter:base", OpenRouter, MODEL),
        Receipt("pilot:retry-2:modal:base", provider, OVERHEAD),
            [Receipt("pilot:second:compute:1", provider, COMPUTE),
             Receipt("pilot:second:compute:2", provider, COMPUTE)])
  }

  const BILL := Bill(1, 1)

  function TwoAmendments(base: seq<Record>, audited: string, run: string): Chain {
    Next(First(base, audited, run), SecondAttempt(run), BILL, TermsOf(2, SecondAttempt(run), BILL), "second")
  }

  function ThreeAmendments(base: seq<Record>, audited: string, run: string, provider: Provider): Chain {
    Next(TwoAmendments(base, audited, run), ThirdAttempt(provider), BILL, TermsOf(3, ThirdAttempt(provider), BILL),
        "third")
  }

  lemma {:induction false} SecondNamed(run: string)
    requires RunIdText(run)
    ensures Named(SecondAttempt(run), run)
  {
    var key := "pilot:" + run + ":compute:1";
    assert key == "pilot:" + run + ":compute:" + "1";
    assert key[..|"pilot:" + run + ":compute:"|] == "pilot:" + run + ":compute:";
  }

  lemma {:induction false} ThirdNamed(provider: Provider)
    ensures Named(ThirdAttempt(provider), "second")
  {
    assert "pilot:" + "second" + ":compute:" == "pilot:second:compute:";
  }

  lemma {:induction false} TwoShape(base: seq<Record>, audited: string, run: string)
    ensures
      var c := TwoAmendments(base, audited, run);
      && c.Version() == 2 && c.Base() == base && FirstRun(c) == run && ThirdProviders(c)
      && Receipts(c) == base + New(SecondAttempt(run)) && ExcessOf(c) == Money(0, 0)
  {
    hide New, SecondAttempt, TermsOf;
    var c := First(base, audited, run);
    assert c.Version() == 1 && c.Base() == base && FirstRun(c) == run && ThirdProviders(c);
    assert Receipts(c) == base && ExcessOf(c) == Money(0, 0);
  }

  lemma {:induction false} ThreeReceipts(base: seq<Record>, audited: string, run: string, provider: Provider)
    ensures Receipts(ThreeAmendments(base, audited, run, provider)) ==
        base + New(SecondAttempt(run)) + New(ThirdAttempt(provider))
    ensures ThreeAmendments(base, audited, run, provider).Version() == 3
        && ThreeAmendments(base, audited, run, provider).Base() == base
    ensures ExcessOf(ThreeAmendments(base, audited, run, provider)) == Excess(3, ThirdAttempt(provider), BILL)
  {
    hide New, SecondAttempt, ThirdAttempt, TermsOf, Excess;
    TwoShape(base, audited, run);
    hide TwoAmendments;
  }

  /** The chain is not covered when the base and the excess hold less than the compute allowance released. */
  lemma {:induction false} Uncovered(base: seq<Record>, audited: string, run: string, provider: Provider)
    requires Accepted(ThreeAmendments(base, audited, run, provider))
    requires
      Totals(base).modal + Totals(New(ThirdAttempt(provider))).modal - 2_000_000_000 - BILL.modal - BUFFER < COMPUTE
    ensures !Covered(ThreeAmendments(base, audited, run, provider))
  {
    ThreeReceipts(base, audited, run, provider);
    hide Accepted, Covered, Totals, Receipts, New, ExcessOf, TermsOf;
    CoveredExactly(ThreeAmendments(base, audited, run, provider));
  }

  lemma {:induction false} ThreeAccepted(base: seq<Record>, audited: string, run: string, provider: Provider)
    requires audited != run && RunIdText(run) && run != "second" && HasModel(base)
    requires HasFirst(base + New(SecondAttempt(run)) + New(ThirdAttempt(provider)))
    ensures Accepted(ThreeAmendments(base, audited, run, provider))
  {
    ThreeReceipts(base, audited, run, provider);
    SecondNamed(run);
    ThirdNamed(provider);
    assert RunAccepted(2, run, "second") && RunAccepted(3, "second", "third");
    hide RunAccepted, Named, HasFirst, RunIdText, Receipts, Release;
    assert RunAccepted(1, audited, run) by { FirstRunAccepted(audited, run); }
    assert AttemptAccepted(2, SecondAttempt(run), BILL) && AttemptAccepted(3, ThirdAttempt(provider), BILL);
    assert Accepted(First(base, audited, run));
    assert Accepted(TwoAmendments(base, audited, run));
  }

  lemma {:induction false} FirstRunAccepted(audited: string, run: string)
    requires audited != run && RunIdText(run)
    ensures RunAccepted(1, audited, run)
  {}

  lemma {:induction false} OtherKey(key: string)
    requires |key| > 6 && key[6] != 'f'
    ensures !StartsWith(key, FIRST_PREFIX)
  {
    assert FIRST_PREFIX[6] == 'f';
    assert |FIRST_PREFIX| <= |key| ==> key[..|FIRST_PREFIX|][6] == key[6];
  }

  /** Where the receipts of the very first attempt's compute are among those of the three attempts. */
  lemma {:induction false} OtherReceipts(run: string, provider: Provider)
    requires run != "" && run[0] != 'f'
    ensures forall r :: r in New(SecondAttempt(run)) ==> !StartsWith(r.key, FIRST_PREFIX)
    ensures forall r :: r in New(ThirdAttempt(provider)) ==> !StartsWith(r.key, FIRST_PREFIX)
    ensures !StartsWith(MODEL_KEY, FIRST_PREFIX)
  {
    forall r | r in New(SecondAttempt(run)) || r in New(ThirdAttempt(provider))
      ensures !StartsWith(r.key, FIRST_PREFIX)
    {
      OtherKey(r.key);
    }
    OtherKey(MODEL_KEY);
  }

  lemma {:induction false} FirstAtBase(base: seq<Record>, run: string, provider: Provider, first: Provider)
    requires run != "" && run[0] != 'f' && base == [ModelReceipt(), FirstReceipt(first)]
    ensures HasFirst(base + New(SecondAttempt(run)) + New(ThirdAttempt(provider))) && HasModel(base)
  {
    OtherReceipts(run, provider);
    var more := New(SecondAttempt(run)) + New(ThirdAttempt(provider));
    var rs := base + more;
    assert base + New(SecondAttempt(run)) + New(ThirdAttempt(provider)) == rs;
    assert rs[0] == ModelReceipt() && rs[1] == FirstReceipt(first) && StartsWith(rs[1].key, FIRST_PREFIX);
    forall j | 2 <= j < |rs| ensures !StartsWith(rs[j].key, FIRST_PREFIX) {
      assert rs[j] == more[j - 2];
      assert rs[j] in New(SecondAttempt(run)) || rs[j] in New(ThirdAttempt(provider));
    }
    assert OnlyAt(rs, 1);
    assert base[0] == ModelReceipt();
  }

  lemma {:induction false} TwoTotals(a: Record, b: Record)
    ensures Totals([a]) == Money(0, 0).Plus(a.provider, a.maximum)
    ensures Totals([a, b]) == Money(0, 0).Plus(a.provider, a.maximum).Plus(b.provider, b.maximum)
  {
    TotalsOne(a);
    assert [a, b][..1] == [a];
  }

  lemma {:induction false} ThirdTotals(provider: Provider)
    ensures Totals(New(ThirdAttempt(provider))) ==
      if provider == Modal then Money(OVERHEAD + 2 * COMPUTE, MODEL) else Money(0, MODEL + OVERHEAD + 2 * COMPUTE)
  {
    var a := ThirdAttempt(provider);
    TwoTotals(a.model, a.overhead);
    TwoTotals(a.computes[0], a.computes[1]);
    TotalsConcat([a.model, a.overhead], a.computes);
  }

  // --- Not covered ------------------------------------------------------------------------------------------------

  lemma {:induction false} BaseIs(base: seq<Record>, audited: string, run: string, provider: Provider)
    ensures
      var c := ThreeAmendments(base, audited, run, provider);
      c.Base() == base && FirstRun(c) == run && (Providers(ThirdAttempt(provider)) ==> ThirdProviders(c))
  {
    hide New, SecondAttempt, ThirdAttempt, TermsOf, Providers;
    TwoShape(base, audited, run);
    hide TwoAmendments;
  }

  lemma {:induction false} ThreeNotCovered(base: seq<Record>, audited: string, run: string, provider: Provider)
    requires audited != run && RunIdText(run) && run != "second" && HasModel(base)
    requires HasFirst(base + New(SecondAttempt(run)) + New(ThirdAttempt(provider)))
    requires
      Totals(base).modal + Totals(New(ThirdAttempt(provider))).modal - 2_000_000_000 - BILL.modal - BUFFER < COMPUTE
    ensures
      var c := ThreeAmendments(base, audited, run, provider);
      Accepted(c) && c.Base() == base && FirstRun(c) == run && !Covered(c)
          && (Providers(ThirdAttempt(provider)) ==> ThirdProviders(c))
  {
    hide Accepted, Covered, Totals, HasFirst, HasModel, New, RunIdText, ThreeAmendments, FirstRun, ThirdProviders,
        Providers;
    ThreeAccepted(base, audited, run, provider);
    BaseIs(base, audited, run, provider);
    Uncovered(base, audited, run, provider);
  }

  lemma {:induction false} RunNames()
    ensures RunIdText("first-solo") && RunIdText("again") && Providers(ThirdAttempt(Modal))
    ensures "again" != "" && "again"[0] != 'f'
  {}

  lemma {:induction false} ModelBase()
    ensures
      var base := [ModelReceipt()];
      HasModel(base) && Positive(base) && FirstIsModal(base) && Totals(base) == Money(0, MODEL)
  {
    var base := [ModelReceipt()];
    OtherKey(MODEL_KEY);
    TwoTotals(ModelReceipt(), ModelReceipt());
    assert base[0] == ModelReceipt();
  }

  lemma {:induction false} FullBase(first: Provider)
    ensures
      var base := [ModelReceipt(), FirstReceipt(first)];
      && HasModel(base) && Positive(base) && (first == Modal ==> FirstIsModal(base))
      && Totals(base).modal == if first == Modal then COMPUTE else 0
  {
    var base := [ModelReceipt(), FirstReceipt(first)];
    OtherKey(MODEL_KEY);
    TwoTotals(base[0], base[1]);
    assert base[0] == ModelReceipt();
  }

  lemma {:induction false} ReusedHasFirst()
    ensures HasFirst([ModelReceipt()] + New(SecondAttempt("first-solo")) + New(ThirdAttempt(Modal)))
  {
    OtherReceipts("x", Modal);
    OtherKey("pilot:retry-1:openrouter:base");
    OtherKey("pilot:retry-1:modal:base");
    var rs := [ModelReceipt()] + New(SecondAttempt("first-solo")) + New(ThirdAttempt(Modal));
    var third := New(ThirdAttempt(Modal));
    SecondNamed("first-solo");
    FirstPrefixIs();
    assert rs[0] == ModelReceipt() && rs[3] == SecondAttempt("first-solo").computes[0];
    assert rs[1] == SecondAttempt("first-solo").model && rs[2] == SecondAttempt("first-solo").overhead;
    assert StartsWith(rs[3].key, FIRST_PREFIX);
    forall j | 4 <= j < |rs| ensures !StartsWith(rs[j].key, FIRST_PREFIX) {
      assert rs[j] == third[j - 4] && third[j - 4] in third;
    }
    assert OnlyAt(rs, 3);
  }

  /** The first retry runs as "first-solo" after a first attempt that ran under another name and reserved no
      compute. The third amendment then finds the receipt that the second has settled, and releases it again. */
  function Reused(): Chain { ThreeAmendments([ModelReceipt()], "other", "first-solo", Modal) }

  lemma {:induction false} ReusedIdentifierIsNotCovered()
    ensures Accepted(Reused()) && ThirdProviders(Reused()) && Positive(Reused().Base()) && FirstIsModal(Reused().Base())
    ensures FirstRun(Reused()) == "first-solo" && !Covered(Reused())
  {
    hide Accepted, Covered, Totals, HasFirst, HasModel, New, RunIdText, ThreeAmendments, FirstRun, ThirdProviders,
        Positive, FirstIsModal, Providers,
         SecondAttempt, ThirdAttempt, ModelReceipt, FirstReceipt;
    ReusedHasFirst();
    ModelBase();
    ThirdTotals(Modal);
    RunNames();
    ThreeNotCovered([ModelReceipt()], "other", "first-solo", Modal);
  }

  /** The third amendment settles receipts that were charged to the other provider. */
  function Misplaced(): Chain {
    ThreeAmendments([ModelReceipt(), FirstReceipt(Modal)], "first-solo", "again", OpenRouter)
  }

  lemma {:induction false} MisplacedIsNotCovered()
    ensures Accepted(Misplaced()) && Positive(Misplaced().Base()) && FirstIsModal(Misplaced().Base())
    ensures FirstRun(Misplaced()) != "first-solo" && !Covered(Misplaced())
  {
    var base := [ModelReceipt(), FirstReceipt(Modal)];
    hide Accepted, Covered, Totals, HasFirst, HasModel, New, RunIdText, ThreeAmendments, FirstRun, ThirdProviders,
        Positive, FirstIsModal, Providers,
         SecondAttempt, ThirdAttempt, ModelReceipt, FirstReceipt;
    RunNames();
    FirstAtBase(base, "again", OpenRouter, Modal);
    FullBase(Modal);
    ThirdTotals(OpenRouter);
    ThreeNotCovered(base, "first-solo", "again", OpenRouter);
  }

  /** The very first attempt's compute receipt was charged to the other provider. */
  function FirstElsewhere(): Chain {
    ThreeAmendments([ModelReceipt(), FirstReceipt(OpenRouter)], "first-solo", "again", Modal)
  }

  lemma {:induction false} FirstElsewhereIsNotCovered()
    ensures Accepted(FirstElsewhere()) && Positive(FirstElsewhere().Base()) && ThirdProviders(FirstElsewhere())
    ensures FirstRun(FirstElsewhere()) != "first-solo" && !Covered(FirstElsewhere())
  {
    var base := [ModelReceipt(), FirstReceipt(OpenRouter)];
    hide Accepted, Covered, Totals, HasFirst, HasModel, New, RunIdText, ThreeAmendments, FirstRun, ThirdProviders,
        Positive, FirstIsModal, Providers,
         SecondAttempt, ThirdAttempt, ModelReceipt, FirstReceipt;
    RunNames();
    FirstAtBase(base, "again", Modal, OpenRouter);
    FullBase(OpenRouter);
    ThirdTotals(Modal);
    ThreeNotCovered(base, "first-solo", "again", Modal);
  }
}
