/** Whether every invoice that ends in Repaid or Defaulted has its outcome on record, and no other one. */
module OutcomeReports {
  import opened Base
  import opened RepaymentSteps
  import opened ProtocolRuns
  import Status
  import Registry = RegistrySteps
  import RegistryRuns
  import NegotiationRuns
  import InsuranceRuns
  import Reputation

  predicate Ends(st: Status.InvoiceStatus) { st == Status.Repaid || st == Status.Defaulted }

  /** One outcome on record for an invoice that is repaid or defaulted, none for any other. */
  ghost predicate ReportedAt(w: World, id: Symbol) {
    var st := StatusOf(w.p.market.reg, id);
    |GetOr(w.outcomes, id, [])| == if st.Some? && Ends(st.value) then 1 else 0
  }

  ghost predicate Reported(w: World) { forall id :: ReportedAt(w, id) }

  /** A call that ends an invoice without a report: a committed direct change, or a closing payment or a
      reclaim while no reputation contract is configured. */
  ghost predicate Silent(w: World, cfg: Config, op: Op) {
    match op
    case InRegistry(r) =>
      var c := RegistryRuns.ChangeOf(r);
      RegistryRuns.Apply(w.p.market.reg, r, w.now).Ok? && c.Some? && Ends(c.value.to)
    case DoRepay(i, o, a, amount) =>
      !cfg.rated && Repay(w.p, cfg, i, o, a, amount, w.now).Ok? && Closes(w, i, o, a, amount)
    case DoReclaim(i, o, a) => !cfg.rated && Reclaim(w.p, cfg, i, o, a, w.now).Ok?
    case _ => false
  }

  /** A payment whose principal covers what remains. */
  ghost predicate Closes(w: World, invoice: Symbol, o: Symbol, payer: Address, amount: int) {
    && o in w.p.market.fin.offers && w.now >= w.p.market.fin.offers[o].fundedAt
    && var offer, pays := w.p.market.fin.offers[o], PaysOf(w.p, invoice);
       Remaining(offer, pays) - Recorded(offer, pays, payer, amount, w.now).principal <= 0
  }

  // ----- one step -----

  lemma RegistryReportsIff(w: World, cfg: Config, op: RegistryRuns.Op)
    requires Reported(w) && RegistryRuns.Apply(w.p.market.reg, op, w.now).Ok?
    ensures Reported(RegistryStep(w, op)) <==> !Silent(w, cfg, InRegistry(op))
  {
    var v, c := RegistryStep(w, op), RegistryRuns.ChangeOf(op);
    hide RegistryRuns.Apply;
    forall id ensures ReportedAt(v, id) <==> !(c.Some? && c.value.id == id && Ends(c.value.to)) {
      assert ReportedAt(w, id);
      RegistryShape(w.p.market.reg, op, w.now, id);
    }
    hide ReportedAt;
    assert c.Some? && Ends(c.value.to) ==> !ReportedAt(v, c.value.id);
  }

  lemma FinancingReports(w: World, op: NegotiationRuns.Op)
    requires Public(InFinancing(op)) && Reported(w) && ValidOffers(w.p.market.fin)
    ensures Reported(FinancingStep(w, op))
  {
    hide NegotiationRuns.Apply;
    if NegotiationRuns.Apply(w.p.market, op, w.now).Ok? {
      FinancingShape(w.p.market, op, w.now);
      forall id ensures ReportedAt(FinancingStep(w, op), id) {
        assert ReportedAt(w, id);
      }
    }
  }

  lemma RepayReportsIff(w: World, cfg: Config, invoice: Symbol, o: Symbol, payer: Address, amount: int)
    requires Reported(w) && Repay(w.p, cfg, invoice, o, payer, amount, w.now).Ok?
    ensures Reported(RepayStep(w, cfg, invoice, o, payer, amount))
            <==> cfg.rated || !Closes(w, invoice, o, payer, amount)
  {
    hide Repay, Recorded, Remaining, Payable;
    RepayShape(w.p, cfg, invoice, o, payer, amount, w.now);
    var v, closes := RepayStep(w, cfg, invoice, o, payer, amount), Closes(w, invoice, o, payer, amount);
    forall id ensures ReportedAt(v, id) <==> id != invoice || cfg.rated || !closes {
      assert ReportedAt(w, id);
      RepaidStatus(w.p.market.reg, invoice, closes, w.now, id);
      hide Registry.MarkRepaid;
    }
    hide ReportedAt;
    assert ReportedAt(v, invoice) <==> cfg.rated || !closes;
  }

  lemma RepaidStatus(s: Registry.Registry, invoice: Symbol, full: bool, now: Timestamp, id: Symbol)
    requires invoice in s.invoices && Registry.MarkRepaid(s, invoice, REPAYMENT, full, now).Ok?
    ensures StatusOf(Registry.MarkRepaid(s, invoice, REPAYMENT, full, now).value, id)
            == if id != invoice then StatusOf(s, id) else if full then Some(Status.Repaid) else Some(Status.Financed)
  {
  }

  lemma ReclaimReportsIff(w: World, cfg: Config, invoice: Symbol, o: Symbol, lender: Address)
    requires Reported(w) && Reclaim(w.p, cfg, invoice, o, lender, w.now).Ok?
    ensures Reported(ReclaimStep(w, cfg, invoice, o, lender)) <==> cfg.rated
  {
    hide Reclaim, Reclaimable, Exposure, Registry.MarkDefaulted;
    ReclaimShape(w.p, cfg, invoice, o, lender, w.now);
    var v := ReclaimStep(w, cfg, invoice, o, lender);
    forall id ensures ReportedAt(v, id) <==> id != invoice || cfg.rated {
      assert ReportedAt(w, id);
      DefaultedStatus(w.p.market.reg, invoice, w.now, id);
    }
    hide ReportedAt;
    assert ReportedAt(v, invoice) <==> cfg.rated;
  }

  lemma OthersReport(w: World, v: World)
    requires Reported(w) && v.p.market.reg == w.p.market.reg && v.outcomes == w.outcomes
    ensures Reported(v)
  {
    forall id ensures ReportedAt(v, id) {
      assert ReportedAt(w, id);
    }
  }

  /** From a state with every outcome on record, a step keeps it so if and only if it does not end an
      invoice silently. */
  lemma StepReportsIff(w: World, cfg: Config, op: Op)
    requires Public(op) && Reported(w) && ValidOffers(w.p.market.fin)
    ensures Reported(Step(w, cfg, op)) <==> !Silent(w, cfg, op)
  {
    hide Reported, RegistryRuns.Apply, NegotiationRuns.Apply, InsuranceRuns.Apply, Repay, Reclaim, Closes;
    match op
    case InRegistry(r) => if RegistryRuns.Apply(w.p.market.reg, r, w.now).Ok? { RegistryReportsIff(w, cfg, r); }
    case InFinancing(f) => FinancingReports(w, f);
    case DoRepay(i, o, a, amount) =>
      if Repay(w.p, cfg, i, o, a, amount, w.now).Ok? { RepayReportsIff(w, cfg, i, o, a, amount); }
    case DoReclaim(i, o, a) => if Reclaim(w.p, cfg, i, o, a, w.now).Ok? { ReclaimReportsIff(w, cfg, i, o, a); }
    case _ => OthersReport(w, Step(w, cfg, op));
  }

  // ----- runs -----

  ghost predicate AlwaysReported(w: World, calls: seq<Call>)
    decreases |calls|
  {
    Reported(w) && (calls != [] ==> AlwaysReported(Step(w, calls[0].cfg, calls[0].op), calls[1..]))
  }

  ghost predicate NeverSilent(w: World, calls: seq<Call>)
    decreases |calls|
  {
    calls != [] ==>
      && !Silent(w, calls[0].cfg, calls[0].op)
      && NeverSilent(Step(w, calls[0].cfg, calls[0].op), calls[1..])
  }

  lemma {:induction false} RunReportsIff(w: World, calls: seq<Call>)
    requires AllPublic(calls) && Inv(w) && Reported(w)
    ensures AlwaysReported(w, calls) <==> NeverSilent(w, calls)
    decreases |calls|
  {
    hide Inv, Reported, Silent, Step;
    if calls != [] {
      InvGivesValidOffers(w);
      StepReportsIff(w, calls[0].cfg, calls[0].op);
      if !Silent(w, calls[0].cfg, calls[0].op) {
        StepKeeps(w, calls[0].cfg, calls[0].op);
        RunReportsIff(Step(w, calls[0].cfg, calls[0].op), calls[1..]);
      }
    }
  }

  /** From deployment: an invoice has exactly one outcome on record when it is repaid or defaulted, and
      none otherwise, throughout a run if and only if no invoice ends silently in it. */
  lemma ExactlyOneOutcome(blacklist: set<Address>, wallets: map<Address, int>, staking: map<Address, int>,
                          now: Timestamp, calls: seq<Call>)
    requires AllPublic(calls)
    ensures var start := Deployed(blacklist, wallets, staking, now);
            AlwaysReported(start, calls) <==> NeverSilent(start, calls)
  {
    var start := Deployed(blacklist, wallets, staking, now);
    DeployedSound(blacklist, wallets, staking, now);
    assert Reported(start);
    hide Inv, Reported, AlwaysReported, NeverSilent;
    RunReportsIff(start, calls);
  }

  /** And what is on record is what the invoice is. */
  lemma RecordIsStatus(w: World, id: Symbol)
    requires Inv(w) && Reported(w)
    ensures GetOr(w.outcomes, id, []) == match StatusOf(w.p.market.reg, id)
                                         case Some(Repaid) => [Reputation.OUTCOME_REPAID]
                                         case Some(Defaulted) => [Reputation.OUTCOME_DEFAULTED]
                                         case _ => []
  {
    assert OnceOk(w, id) && ReportedAt(w, id);
  }

  /** So with a reputation contract configured throughout, a run in lockstep reports each outcome exactly
      once. */
  lemma {:induction false} OrderlyRunsReport(w: World, calls: seq<Call>)
    requires AllPublic(calls) && Inv(w) && Reported(w) && OrderlyRun(w, calls)
    requires forall i :: 0 <= i < |calls| ==> calls[i].cfg.rated
    ensures NeverSilent(w, calls) && Reported(Run(w, calls))
    decreases |calls|
  {
    hide Inv, Reported, Step;
    if calls != [] {
      InvGivesValidOffers(w);
      StepReportsIff(w, calls[0].cfg, calls[0].op);
      hide Repay, Reclaim, Closes, RegistryRuns.Apply;
      StepKeeps(w, calls[0].cfg, calls[0].op);
      OrderlyRunsReport(Step(w, calls[0].cfg, calls[0].op), calls[1..]);
    }
  }
}
