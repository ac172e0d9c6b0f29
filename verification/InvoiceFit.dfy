/** Whether offers fit the invoices they finance: what a new offer has to satisfy, and the two calls
    that can undo it. */
module InvoiceFit {
  import opened Base
  import opened Negotiation
  import opened FinancingSteps
  import opened RepaymentSteps
  import opened ProtocolRuns
  import Status
  import Registry = RegistrySteps
  import RegistryRuns
  import NegotiationRuns
  import InsuranceSteps

  /** An offer on the table or funded asks for no more than its invoice is worth. */
  ghost predicate FitsAt(s: Market, o: Symbol) {
    o in s.fin.offers && s.fin.offers[o].status != Rejected ==>
      && s.fin.offers[o].invoice in s.reg.invoices
      && s.fin.offers[o].terms.amount <= s.reg.invoices[s.fin.offers[o].invoice].amount
  }

  ghost predicate Fits(s: Market) { forall o :: FitsAt(s, o) }

  /** The two calls that are not held against the other side: an amendment naming more than the invoice's
      amount, and an update of the invoice's amount to less than an offer on it. */
  ghost predicate Overshoots(s: Market, op: Op) {
    match op
    case InFinancing(f) =>
      && f.DoAmend? && f.o in s.fin.offers && s.fin.offers[f.o].invoice in s.reg.invoices
      && f.terms.amount > s.reg.invoices[s.fin.offers[f.o].invoice].amount
    case InRegistry(r) =>
      r.DoUpdateAmount? && exists o :: TooBig(s, o, r.id, r.amount)
    case _ => false
  }

  ghost predicate TooBig(s: Market, o: Symbol, id: Symbol, amount: int) {
    o in s.fin.offers && s.fin.offers[o].invoice == id && s.fin.offers[o].status != Rejected
      && s.fin.offers[o].terms.amount > amount
  }

  ghost predicate Commits(w: World, op: Op) {
    match op
    case InFinancing(f) => NegotiationRuns.Apply(w.p.market, f, w.now).Ok?
    case InRegistry(r) => RegistryRuns.Apply(w.p.market.reg, r, w.now).Ok?
    case _ => true
  }

  // ----- registry calls -----

  /** Only an amount update changes the amount of a registered invoice. */
  lemma AmountsMove(s: Registry.Registry, op: RegistryRuns.Op, now: Timestamp, id: Symbol)
    requires RegistryRuns.Apply(s, op, now).Ok? && id in s.invoices
    ensures var t := RegistryRuns.Apply(s, op, now).value;
            id in t.invoices && t.invoices[id].amount == if op.DoUpdateAmount? && op.id == id then op.amount
                                                         else s.invoices[id].amount
  {
    if RegistryRuns.ChangeOf(op).Some? {
      RegistryRuns.ChangesMove(s, op, now);
      hide RegistryRuns.Apply;
    }
  }

  lemma RegistryFitsIff(w: World, op: RegistryRuns.Op)
    requires Fits(w.p.market) && RegistryRuns.Apply(w.p.market.reg, op, w.now).Ok?
    ensures Fits(RegistryStep(w, op).p.market) <==> !Overshoots(w.p.market, InRegistry(op))
  {
    var s, t := w.p.market, RegistryStep(w, op).p.market;
    forall o | o in s.fin.offers && s.fin.offers[o].status != Rejected
      ensures s.fin.offers[o].invoice in t.reg.invoices
      ensures FitsAt(t, o) <==> !(op.DoUpdateAmount? && TooBig(s, o, op.id, op.amount))
    {
      assert FitsAt(s, o);
      AmountsMove(s.reg, op, w.now, s.fin.offers[o].invoice);
      hide RegistryRuns.Apply;
    }
    hide RegistryRuns.Apply;
    if op.DoUpdateAmount? && exists o :: TooBig(s, o, op.id, op.amount) {
      var o :| TooBig(s, o, op.id, op.amount);
      assert !FitsAt(t, o);
    } else {
      forall o ensures FitsAt(t, o) {
        if o in s.fin.offers && s.fin.offers[o].status != Rejected {
          assert !(op.DoUpdateAmount? && TooBig(s, o, op.id, op.amount));
        }
      }
    }
  }

  // ----- financing calls -----

  /** What a financing call does to the amounts: an amendment sets its own offer's, a new offer fits, and
      nothing else moves. */
  ghost predicate AmountsAfter(s: Market, t: Market, op: NegotiationRuns.Op) {
    && (forall id :: id in s.reg.invoices ==>
          id in t.reg.invoices && t.reg.invoices[id].amount == s.reg.invoices[id].amount)
    && (forall o :: o in s.fin.offers ==>
          && o in t.fin.offers && t.fin.offers[o].invoice == s.fin.offers[o].invoice
          && (t.fin.offers[o].status != Rejected ==> s.fin.offers[o].status != Rejected)
          && t.fin.offers[o].terms == if op.DoAmend? && o == op.o then op.terms else s.fin.offers[o].terms)
    && (forall o :: o in t.fin.offers && o !in s.fin.offers ==> FitsAt(t, o))
    && (op.DoAmend? ==> op.o in s.fin.offers && t.fin.offers[op.o].status != Rejected)
  }

  lemma SettlementKeepsAmounts(s: Market, t: Market, o: Symbol, now: Timestamp)
    requires NegotiationRuns.Settled(s, t, o, now)
    ensures forall id :: id in s.reg.invoices ==>
              id in t.reg.invoices && t.reg.invoices[id].amount == s.reg.invoices[id].amount
    ensures t.fin.offers == s.fin.offers[o := s.fin.offers[o].(status := Accepted, fundedAt := now)]
  {
    hide InsuranceSteps.Transfer, Conclude;
  }

  lemma RecordedAmounts(s: Market, mid: Market, op: NegotiationRuns.Op, now: Timestamp)
    requires (op.DoAmend? || op.DoCounter?)
    requires NegotiationRuns.Recorded(s, mid, op.o, NegotiationRuns.SideOf(op), op.terms, now)
    ensures AmountsAfter(s, mid, op)
    ensures op.o in mid.fin.offers && mid.fin.offers[op.o].status == Pending
  {
    hide WithRound, TalkOf;
  }

  lemma SettledAmounts(s: Market, mid: Market, t: Market, op: NegotiationRuns.Op, now: Timestamp)
    requires (op.DoAmend? || op.DoCounter?) && AmountsAfter(s, mid, op) && NegotiationRuns.Settled(mid, t, op.o, now)
    requires op.o in s.fin.offers && s.fin.offers[op.o].status != Rejected
    ensures AmountsAfter(s, t, op)
  {
    hide NegotiationRuns.Settled, FitsAt;
    SettlementKeepsAmounts(mid, t, op.o, now);
    forall o | o in t.fin.offers && o !in s.fin.offers ensures FitsAt(t, o) {
      assert FitsAt(mid, o);
      SameFit(mid, t, o);
    }
  }

  lemma SameFit(s: Market, t: Market, o: Symbol)
    requires FitsAt(s, o) && o in s.fin.offers && o in t.fin.offers && t.fin.offers[o] == s.fin.offers[o]
    requires forall id :: id in s.reg.invoices ==>
               id in t.reg.invoices && t.reg.invoices[id].amount == s.reg.invoices[id].amount
    ensures FitsAt(t, o)
  {
  }

  lemma ProposalAmounts(s: Market, op: NegotiationRuns.Op, now: Timestamp)
    requires (op.DoAmend? || op.DoCounter?) && NegotiationRuns.Apply(s, op, now).Ok?
    ensures AmountsAfter(s, NegotiationRuns.Apply(s, op, now).value, op)
  {
    NegotiationRuns.ProposalShape(s, op, now);
    var t, side := NegotiationRuns.Apply(s, op, now).value, NegotiationRuns.SideOf(op);
    var mid := NegotiationRuns.Between(s, op.o, side, op.terms, now);
    hide NegotiationRuns.Apply, NegotiationRuns.Meets, NegotiationRuns.Settled, NegotiationRuns.Between,
         NegotiationRuns.SideOf, AmountsAfter, Amended, WithRound;
    RecordedAmounts(s, mid, op, now);
    if NegotiationRuns.Meets(s, op.o, side, op.terms) {
      SettledAmounts(s, mid, t, op, now);
    }
  }

  lemma AcceptAmounts(s: Market, o: Symbol, who: Address, now: Timestamp)
    requires Accept(s, o, who, now).Ok?
    ensures AmountsAfter(s, Accept(s, o, who, now).value, NegotiationRuns.DoAccept(o, who))
  {
    NegotiationRuns.AcceptShape(s, o, who, now);
    SettlementKeepsAmounts(s, Accept(s, o, who, now).value, o, now);
    assert o in s.fin.offers;
    hide Accept, Settle;
  }

  lemma FinancingAmounts(s: Market, op: NegotiationRuns.Op, now: Timestamp)
    requires Public(InFinancing(op)) && NegotiationRuns.Apply(s, op, now).Ok?
    ensures AmountsAfter(s, NegotiationRuns.Apply(s, op, now).value, op)
  {
    hide AmountsAfter, Amend, Counter, Create, Accept;
    match op
    case DoAmend(_, _, _, _) => ProposalAmounts(s, op, now);
    case DoCounter(_, _, _, _) => ProposalAmounts(s, op, now);
    case DoAccept(o, who) => AcceptAmounts(s, o, who, now);
    case _ => OtherAmounts(s, op, now);
  }

  lemma OtherAmounts(s: Market, op: NegotiationRuns.Op, now: Timestamp)
    requires Public(InFinancing(op)) && !op.DoAmend? && !op.DoCounter? && !op.DoAccept?
    requires NegotiationRuns.Apply(s, op, now).Ok?
    ensures AmountsAfter(s, NegotiationRuns.Apply(s, op, now).value, op)
  {
    hide TalkOf;
  }

  lemma FinancingFitsIff(w: World, op: NegotiationRuns.Op)
    requires Public(InFinancing(op)) && Fits(w.p.market) && NegotiationRuns.Apply(w.p.market, op, w.now).Ok?
    ensures Fits(FinancingStep(w, op).p.market) <==> !Overshoots(w.p.market, InFinancing(op))
  {
    var s, t := w.p.market, FinancingStep(w, op).p.market;
    FinancingAmounts(s, op, w.now);
    hide NegotiationRuns.Apply, FundedBy;
    if op.DoAmend? { assert FitsAt(s, op.o); }
    if Overshoots(s, InFinancing(op)) {
      assert !FitsAt(t, op.o);
    } else {
      forall o ensures FitsAt(t, o) {
        assert FitsAt(s, o);
      }
    }
  }

  // ----- repayments -----

  /** Offers keep their invoices and terms, rejected ones stay rejected, and invoices their amounts. */
  ghost predicate SameAmounts(s: Market, t: Market) {
    && (forall id :: id in s.reg.invoices ==>
          id in t.reg.invoices && t.reg.invoices[id].amount == s.reg.invoices[id].amount)
    && (forall o :: o in t.fin.offers ==>
          && o in s.fin.offers && t.fin.offers[o].invoice == s.fin.offers[o].invoice
             && t.fin.offers[o].terms == s.fin.offers[o].terms
          && (t.fin.offers[o].status != Rejected ==> s.fin.offers[o].status != Rejected))
  }

  lemma SameAmountsFit(s: Market, t: Market)
    requires Fits(s) && SameAmounts(s, t)
    ensures Fits(t)
  {
    forall o ensures FitsAt(t, o) {
      assert FitsAt(s, o);
    }
  }

  lemma RepaidKeepsAmounts(s: Registry.Registry, id: Symbol, full: bool, now: Timestamp, other: Symbol)
    requires Registry.MarkRepaid(s, id, REPAYMENT, full, now).Ok? && other in s.invoices
    ensures var t := Registry.MarkRepaid(s, id, REPAYMENT, full, now).value;
            other in t.invoices && t.invoices[other].amount == s.invoices[other].amount
  {
  }

  lemma RepayFits(w: World, cfg: Config, invoice: Symbol, o: Symbol, payer: Address, amount: int)
    requires Fits(w.p.market)
    ensures Fits(RepayStep(w, cfg, invoice, o, payer, amount).p.market)
  {
    if Repay(w.p, cfg, invoice, o, payer, amount, w.now).Ok? {
      RepayShape(w.p, cfg, invoice, o, payer, amount, w.now);
      hide Repay, Recorded, Remaining, Fits, Registry.Move;
      var s, t := w.p.market, RepayStep(w, cfg, invoice, o, payer, amount).p.market;
      var full := t.fin.offers[o].status == Repaid;
      forall id | id in s.reg.invoices
        ensures id in t.reg.invoices && t.reg.invoices[id].amount == s.reg.invoices[id].amount
      {
        RepaidKeepsAmounts(s.reg, invoice, full, w.now, id);
      }
      SameAmountsFit(s, t);
    }
  }

  lemma ReclaimFits(w: World, cfg: Config, invoice: Symbol, o: Symbol, lender: Address)
    requires Fits(w.p.market)
    ensures Fits(ReclaimStep(w, cfg, invoice, o, lender).p.market)
  {
    if Reclaim(w.p, cfg, invoice, o, lender, w.now).Ok? {
      ReclaimShape(w.p, cfg, invoice, o, lender, w.now);
      hide Reclaim, Fits;
      SameAmountsFit(w.p.market, ReclaimStep(w, cfg, invoice, o, lender).p.market);
    }
  }

  // ----- the exact condition -----

  /** From a state in which every offer fits its invoice, a step keeps that if and only if it does not
      commit an amendment above the invoice's amount or an amount update below an offer on the invoice. */
  lemma StepFitsIff(w: World, cfg: Config, op: Op)
    requires Public(op) && Fits(w.p.market)
    ensures Fits(Step(w, cfg, op).p.market) <==> !(Commits(w, op) && Overshoots(w.p.market, op))
  {
    match op
    case InRegistry(r) => if Commits(w, op) { RegistryFitsIff(w, r); }
    case InFinancing(f) => if Commits(w, op) { FinancingFitsIff(w, f); }
    case DoRepay(i, o, a, amount) => RepayFits(w, cfg, i, o, a, amount);
    case DoReclaim(i, o, a) => ReclaimFits(w, cfg, i, o, a);
    case _ =>
  }

  ghost predicate AlwaysFits(w: World, calls: seq<Call>)
    decreases |calls|
  {
    Fits(w.p.market) && (calls != [] ==> AlwaysFits(Step(w, calls[0].cfg, calls[0].op), calls[1..]))
  }

  ghost predicate NeverOvershoots(w: World, calls: seq<Call>)
    decreases |calls|
  {
    calls != [] ==>
      && !(Commits(w, calls[0].op) && Overshoots(w.p.market, calls[0].op))
      && NeverOvershoots(Step(w, calls[0].cfg, calls[0].op), calls[1..])
  }

  /** Every offer fits its invoice throughout a run if and only if no such call commits in it. */
  lemma {:induction false} RunFitsIff(w: World, calls: seq<Call>)
    requires AllPublic(calls) && Fits(w.p.market)
    ensures AlwaysFits(w, calls) <==> NeverOvershoots(w, calls)
    decreases |calls|
  {
    hide Fits, Commits, Overshoots, Step;
    if calls != [] {
      StepFitsIff(w, calls[0].cfg, calls[0].op);
      if !(Commits(w, calls[0].op) && Overshoots(w.p.market, calls[0].op)) {
        RunFitsIff(Step(w, calls[0].cfg, calls[0].op), calls[1..]);
      }
    }
  }

  /** In particular from deployment. */
  lemma FitsFromDeployment(blacklist: set<Address>, wallets: map<Address, int>, staking: map<Address, int>,
                           now: Timestamp, calls: seq<Call>)
    requires AllPublic(calls)
    ensures var start := Deployed(blacklist, wallets, staking, now);
            AlwaysFits(start, calls) <==> NeverOvershoots(start, calls)
  {
    var start := Deployed(blacklist, wallets, staking, now);
    assert Fits(start.p.market);
    RunFitsIff(start, calls);
    hide Fits, NeverOvershoots, AlwaysFits;
  }

  // ----- the two calls -----

  /** An amendment of any round may exceed the invoice: one that is otherwise in order commits unless
      meeting the originator's proposal fails to settle, and the offer then stands, or is funded, above
      what the invoice is worth. */
  lemma AmendmentMayExceedInvoice(s: Market, o: Symbol, lender: Party, expected: nat, terms: Terms, now: Timestamp)
    requires o in s.fin.offers && s.fin.offers[o].lender == lender && Negotiable(s.fin, o, expected, now).Ok?
    requires lender !in s.reg.blacklist && ValidTerms(terms)
    requires s.fin.offers[o].invoice in s.reg.invoices && terms.amount > s.reg.invoices[s.fin.offers[o].invoice].amount
    ensures var r := Amend(s, o, lender, expected, terms, now);
            var meets := Live(RoundsOf(s.fin.talks, o), Originator) == Some(terms);
            && (r.Ok? <==> !meets || Execute(s.(fin := Amended(s.fin, o, terms, now)), o, now).Ok?)
            && (r.Ok? ==>
                  && o in r.value.fin.offers && r.value.fin.offers[o].terms == terms
                  && r.value.fin.offers[o].status == (if meets then Accepted else Pending)
                  && r.value.fin.offers[o].invoice in r.value.reg.invoices
                  && terms.amount > r.value.reg.invoices[r.value.fin.offers[o].invoice].amount)
  {
    hide Live, WithRound, InsuranceSteps.Transfer, Conclude;
  }

  /** The originator may lower the invoice below an offer already on it and then accept that offer: the
      lender funds more than the invoice is worth. */
  lemma LoweredInvoiceIsOverfunded(w: World, cfg: Config, o: Symbol, amount: int)
    requires o in w.p.market.fin.offers && w.p.market.fin.offers[o].invoice in w.p.market.reg.invoices
    requires var offer := w.p.market.fin.offers[o];
             && offer.status == Pending && !Stale(offer, w.now)
             && w.p.market.reg.invoices[offer.invoice].status == Status.Pending
             && Registry.MIN_INVOICE_AMOUNT <= amount < offer.terms.amount
             && GetOr(w.p.market.wallets, offer.lender, 0) >= offer.terms.amount
    ensures var offer := w.p.market.fin.offers[o]; var originator := w.p.market.reg.invoices[offer.invoice].originator;
            var v := Run(w, [Call(cfg, InRegistry(RegistryRuns.DoUpdateAmount(offer.invoice, originator, amount))),
                             Call(cfg, InFinancing(NegotiationRuns.DoAccept(o, originator)))]);
            && o in v.p.market.fin.offers && v.p.market.fin.offers[o] == offer.(status := Accepted, fundedAt := w.now)
            && offer.invoice in v.p.market.reg.invoices && v.p.market.reg.invoices[offer.invoice].amount == amount
            && Some(v.p.market.wallets)
               == InsuranceSteps.Transfer(w.p.market.wallets, offer.lender, originator, offer.terms.amount)
  {
    var offer := w.p.market.fin.offers[o];
    var originator := w.p.market.reg.invoices[offer.invoice].originator;
    var lower, accept := InRegistry(RegistryRuns.DoUpdateAmount(offer.invoice, originator, amount)),
        InFinancing(NegotiationRuns.DoAccept(o, originator));
    RunTwoCalls(w, cfg, lower, accept);
    Lowers(w, offer.invoice, originator, amount);
    var w1 := Step(w, cfg, lower);
    hide Run, RegistryStep;
    AcceptStep(w1, cfg, o, originator);
    hide Step, InsuranceSteps.Transfer;
  }

  /** An acceptance that nothing stands in the way of. */
  lemma AcceptStep(w: World, cfg: Config, o: Symbol, originator: Address)
    requires o in w.p.market.fin.offers && w.p.market.fin.offers[o].invoice in w.p.market.reg.invoices
    requires var offer, inv := w.p.market.fin.offers[o], w.p.market.reg.invoices[w.p.market.fin.offers[o].invoice];
             && offer.status == Pending && !Stale(offer, w.now) && offer.terms.amount >= 0
             && inv.status == Status.Pending && inv.originator == originator
             && GetOr(w.p.market.wallets, offer.lender, 0) >= offer.terms.amount
    ensures var offer, inv := w.p.market.fin.offers[o], w.p.market.reg.invoices[w.p.market.fin.offers[o].invoice];
            var t := Step(w, cfg, InFinancing(NegotiationRuns.DoAccept(o, originator))).p.market;
            && o in t.fin.offers && t.fin.offers[o] == offer.(status := Accepted, fundedAt := w.now)
            && offer.invoice in t.reg.invoices && t.reg.invoices[offer.invoice].amount == inv.amount
            && Some(t.wallets)
               == InsuranceSteps.Transfer(w.p.market.wallets, offer.lender, originator, offer.terms.amount)
  {
    var s := w.p.market;
    AcceptCommits(s, o, originator, w.now);
    AcceptPays(s, o, originator, w.now);
    NegotiationRuns.AcceptShape(s, o, originator, w.now);
    SettlementKeepsAmounts(s, Accept(s, o, originator, w.now).value, o, w.now);
    hide Accept, InsuranceSteps.Transfer, FundedBy, NegotiationRuns.Settled;
  }

  lemma AcceptPays(s: Market, o: Symbol, originator: Address, now: Timestamp)
    requires Accept(s, o, originator, now).Ok?
    ensures o in s.fin.offers
    ensures Some(Accept(s, o, originator, now).value.wallets)
            == InsuranceSteps.Transfer(s.wallets, s.fin.offers[o].lender, originator, s.fin.offers[o].terms.amount)
  {
    hide InsuranceSteps.Transfer, Registry.Move;
  }

  lemma Lowers(w: World, id: Symbol, originator: Address, amount: int)
    requires id in w.p.market.reg.invoices && w.p.market.reg.invoices[id].status == Status.Pending
    requires w.p.market.reg.invoices[id].originator == originator && amount >= Registry.MIN_INVOICE_AMOUNT
    ensures var v := RegistryStep(w, RegistryRuns.DoUpdateAmount(id, originator, amount));
            && v.p.market.fin == w.p.market.fin && v.p.market.wallets == w.p.market.wallets && v.now == w.now
            && v.p.market.reg.invoices == w.p.market.reg.invoices[id := w.p.market.reg.invoices[id].(amount := amount)]
  {
  }

  lemma AcceptCommits(s: Market, o: Symbol, originator: Address, now: Timestamp)
    requires o in s.fin.offers && s.fin.offers[o].invoice in s.reg.invoices
    requires var offer := s.fin.offers[o];
             && offer.status == Pending && !Stale(offer, now) && offer.terms.amount >= 0
             && s.reg.invoices[offer.invoice].status == Status.Pending
                && s.reg.invoices[offer.invoice].originator == originator
             && GetOr(s.wallets, offer.lender, 0) >= offer.terms.amount
    ensures Accept(s, o, originator, now).Ok?
  {
  }
}
