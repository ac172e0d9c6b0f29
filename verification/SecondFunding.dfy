/** When an invoice is financed a second time. */
module SecondFunding {
  import opened Base
  import opened FinancingSteps
  import opened RepaymentSteps
  import opened ProtocolRuns
  import Status
  import Registry = RegistrySteps
  import RegistryRuns
  import NegotiationRuns
  import InsuranceSteps
  import InsuranceRuns

  ghost predicate OnceFunded(w: World) { forall id :: |GetOr(w.funded, id, [])| <= 1 }

  /** A call that settles its offer if it commits: an acceptance, or a proposal meeting the other side. */
  ghost predicate Settling(s: Market, op: NegotiationRuns.Op) {
    && (op.DoAccept? || op.DoAmend? || op.DoCounter?)
    && op.o in s.fin.offers
    && (op.DoAccept? || NegotiationRuns.Meets(s, op.o, NegotiationRuns.SideOf(op), op.terms))
  }

  /** A settlement commits on an invoice that has been funded before. */
  ghost predicate FundsAgain(w: World, op: Op) {
    && op.InFinancing? && NegotiationRuns.Apply(w.p.market, op.fin, w.now).Ok?
    && Settling(w.p.market, op.fin)
    && GetOr(w.funded, w.p.market.fin.offers[op.fin.o].invoice, []) != []
  }

  lemma SettlingFunds(s: Market, op: NegotiationRuns.Op, now: Timestamp)
    requires Public(InFinancing(op)) && NegotiationRuns.Apply(s, op, now).Ok? && ValidOffers(s.fin)
    ensures FundedBy(s, NegotiationRuns.Apply(s, op, now).value, op) == if Settling(s, op) then Some(op.o) else None
  {
    hide Amend, Counter, Accept, NegotiationRuns.Meets, InsuranceSteps.Transfer, Registry.Move;
    if op.DoAccept? {
      AcceptanceShape(s, op.o, op.who, now);
    } else if op.DoAmend? || op.DoCounter? {
      ProposalFunds(s, op, now);
    }
  }

  lemma ProposalFunds(s: Market, op: NegotiationRuns.Op, now: Timestamp)
    requires (op.DoAmend? || op.DoCounter?) && NegotiationRuns.Apply(s, op, now).Ok?
    ensures FundedBy(s, NegotiationRuns.Apply(s, op, now).value, op) == if Settling(s, op) then Some(op.o) else None
  {
    NegotiationRuns.ProposalShape(s, op, now);
    hide NegotiationRuns.Apply, NegotiationRuns.Meets, NegotiationRuns.SideOf, WithRound, TalkOf,
         InsuranceSteps.Transfer, Registry.Move, Conclude;
  }

  lemma FinancingFundsIff(w: World, op: NegotiationRuns.Op)
    requires Public(InFinancing(op)) && OnceFunded(w) && ValidOffers(w.p.market.fin)
    ensures OnceFunded(FinancingStep(w, op)) <==> !FundsAgain(w, InFinancing(op))
  {
    hide NegotiationRuns.Apply, NegotiationRuns.Meets, FundedBy;
    var v := FinancingStep(w, op);
    if NegotiationRuns.Apply(w.p.market, op, w.now).Ok? {
      SettlingFunds(w.p.market, op, w.now);
      FinancingShape(w.p.market, op, w.now);
      if Settling(w.p.market, op) {
        var id := w.p.market.fin.offers[op.o].invoice;
        assert GetOr(v.funded, id, []) == GetOr(w.funded, id, []) + [op.o];
        assert forall k :: k != id ==> GetOr(v.funded, k, []) == GetOr(w.funded, k, []);
      }
    }
  }

  /** From a state with no invoice funded twice, a step keeps that if and only if it does not settle an
      offer on an invoice funded before. */
  lemma StepFundsOnceIff(w: World, cfg: Config, op: Op)
    requires Public(op) && OnceFunded(w) && ValidOffers(w.p.market.fin)
    ensures OnceFunded(Step(w, cfg, op)) <==> !FundsAgain(w, op)
  {
    hide FinancingStep, RegistryRuns.Apply, InsuranceRuns.Apply, Repay, Reclaim, FundsAgain;
    match op
    case InFinancing(f) => FinancingFundsIff(w, f);
    case _ => NoneFunded(w, cfg, op);
  }

  lemma NoneFunded(w: World, cfg: Config, op: Op)
    requires !op.InFinancing?
    ensures Step(w, cfg, op).funded == w.funded && !FundsAgain(w, op)
  {
    hide FinancingStep, RegistryRuns.Apply, InsuranceRuns.Apply, Repay, Reclaim;
  }

  /** And that invoice has gone back to Pending as often as it was funded, at least. */
  lemma OnlyReopenedAgain(w: World, op: Op)
    requires Public(op) && Inv(w) && FundsAgain(w, op)
    ensures var id := w.p.market.fin.offers[op.fin.o].invoice; 0 < |GetOr(w.funded, id, [])| <= GetOr(w.reopened, id, 0)
  {
    InvGivesValidOffers(w);
    SettlingFunds(w.p.market, op.fin, w.now);
    FinancingShape(w.p.market, op.fin, w.now);
    assert FundedOk(w, w.p.market.fin.offers[op.fin.o].invoice);
    hide NegotiationRuns.Apply, FundedBy, Settling;
  }

  ghost predicate AlwaysOnce(w: World, calls: seq<Call>)
    decreases |calls|
  {
    OnceFunded(w) && (calls != [] ==> AlwaysOnce(Step(w, calls[0].cfg, calls[0].op), calls[1..]))
  }

  ghost predicate NeverAgain(w: World, calls: seq<Call>)
    decreases |calls|
  {
    calls != [] ==>
      && !FundsAgain(w, calls[0].op)
      && NeverAgain(Step(w, calls[0].cfg, calls[0].op), calls[1..])
  }

  /** No invoice is funded twice in a run if and only if no offer is settled in it on an invoice that was
      funded before. */
  lemma {:induction false} RunFundsOnceIff(w: World, calls: seq<Call>)
    requires AllPublic(calls) && Inv(w) && OnceFunded(w)
    ensures AlwaysOnce(w, calls) <==> NeverAgain(w, calls)
    decreases |calls|
  {
    hide Inv, OnceFunded, FundsAgain, Step;
    if calls != [] {
      InvGivesValidOffers(w);
      StepFundsOnceIff(w, calls[0].cfg, calls[0].op);
      if !FundsAgain(w, calls[0].op) {
        StepKeeps(w, calls[0].cfg, calls[0].op);
        RunFundsOnceIff(Step(w, calls[0].cfg, calls[0].op), calls[1..]);
      }
    }
  }
}
