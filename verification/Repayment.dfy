/** The repayment contract as deployed: its payment histories, and the contracts it calls. */
module Repayment {
  import opened Base
  import opened Loans
  import opened FinancingSteps
  import opened Steps = RepaymentSteps
  import Status
  import RegistrySteps
  import Financing
  import Insurance
  import InsuranceSteps
  import Reputation

  lemma FinancedTakesPayments(reg: RegistrySteps.Registry, id: Symbol, full: bool, now: Timestamp)
    requires id in reg.invoices && reg.invoices[id].status == Status.Financed
    ensures RegistrySteps.MarkRepaid(reg, id, REPAYMENT, full, now).Ok?
  {
  }

  lemma OverdueDefaults(reg: RegistrySteps.Registry, id: Symbol, now: Timestamp)
    requires id in reg.invoices && reg.invoices[id].status == Status.Overdue
    ensures RegistrySteps.MarkDefaulted(reg, id, REPAYMENT, now).Ok?
    ensures id in RegistrySteps.MarkDefaulted(reg, id, REPAYMENT, now).value.invoices
    ensures RegistrySteps.MarkDefaulted(reg, id, REPAYMENT, now).value.invoices[id].status == Status.Defaulted
  {
  }

  class Contract {
    const financing: Financing.Contract
    const insurance: Insurance.Contract
    const reputation: Reputation.Contract
    const config: Config
    var payments: map<Symbol, seq<Payment>>

    function State(): Protocol
      reads this, financing, financing.registry, financing.token, insurance, reputation
    {
      Protocol(financing.State(), payments, insurance.State(), reputation.records)
    }

    constructor (financing: Financing.Contract, insurance: Insurance.Contract, reputation: Reputation.Contract,
                 config: Config)
      ensures this.financing == financing && this.insurance == insurance && this.reputation == reputation
      ensures this.config == config && payments == map[]
    {
      this.financing, this.insurance, this.reputation, this.config := financing, insurance, reputation, config;
      payments := map[];
    }

    /** The payment less the fee goes to the lender, a positive fee to its recipient; the second
        transfer failing undoes the first. */
    method PayLender(payer: Address, lender: Address, amount: int) returns (ok: bool)
      modifies financing.token
      ensures ok <==> Paid(old(financing.token.wallets), config, payer, lender, amount).Some?
      ensures ok ==> Some(financing.token.wallets) == Paid(old(financing.token.wallets), config, payer, lender, amount)
      ensures !ok ==> financing.token.wallets == old(financing.token.wallets)
    {
      hide InsuranceSteps.Transfer, Fee;
      var token := financing.token;
      var before := token.wallets;
      var fee := Fee(config, amount);
      ok := token.Transfer(payer, lender, amount - fee);
      if ok && fee > 0 {
        ok := token.Transfer(payer, config.feeRecipient, fee);
        if !ok { token.wallets := before; }
      }
    }

    method RecordOutcome(originator: Address, outcome: nat, now: Timestamp)
      requires outcome <= 1
      modifies reputation
      ensures reputation.records == Outcome(old(State()), config, originator, outcome, now)
    {
      if config.rated {
        var _, _ := reputation.RecordOutcome(originator, outcome, now);
      }
    }

    /** What the financing contract is told after a payment. */
    method ReportPayment(o: Symbol, lender: Address, repaid: int, full: bool)
      requires o in financing.offers && lender == financing.offers[o].lender
      modifies financing
      ensures financing.Own() == Reported(old(financing.Own()), o, repaid, full)
    {
      var _ := financing.UpdateOfferStatus(o, if full then OfferStatus.Repaid else OfferStatus.Financed);
      var _ := financing.UpdateOfferAmountRepaid(o, repaid);
      financing.UpdateLenderStatsRepaid(lender, full);
    }

    method CheckPayable(invoice: Symbol, o: Symbol, payer: Address) returns (r: Result<Offer>)
      ensures r == Payable(State(), invoice, o, payer)
      ensures r.Ok? ==>
                && invoice in financing.registry.invoices
                   && financing.registry.invoices[invoice].status == Status.Financed
                && o in financing.offers && financing.offers[o] == r.value
    {
      var registry := financing.registry;
      if invoice !in registry.invoices { return Err(NotFound); }
      if registry.invoices[invoice].originator != payer { return Err(Unauthorized); }
      if registry.invoices[invoice].status != Status.Financed { return Err(InvalidTransition); }
      if o !in financing.offers { return Err(NotFound); }
      var offer := financing.offers[o];
      if offer.invoice != invoice { return Err(InvalidInput); }
      if offer.status == OfferStatus.Repaid { return Err(InvalidTransition); }
      if offer.status != OfferStatus.Accepted && offer.status != OfferStatus.Financed { return Err(InvalidTransition); }
      return Ok(offer);
    }

    /** How a payment splits, or why it is refused. */
    method SplitPayment(offer: Offer, pays: seq<Payment>, due: Timestamp, amount: int, now: Timestamp)
      returns (r: Result<(int, int)>)
      ensures match AmountError(config, offer, pays, due, amount, now)
              case Some(e) => r == Err(e)
              case None => now >= offer.fundedAt && r.Ok?
                           && var p := Recorded(offer, pays, 0, amount, now);
                              r.value == (p.interest, Remaining(offer, pays) - p.principal)
    {
      hide ProRataInterest, AccruedPenalty, FlatYield;
      if amount <= 0 { return Err(Trap); }
      var repaid := TotalPrincipalRepaid(pays);
      var remaining := Max(offer.terms.amount - repaid, 0);
      if remaining <= 0 { return Err(InvalidTransition); }
      if now < offer.fundedAt { return Err(Trap); }
      var days := (now - offer.fundedAt) / SECS_PER_DAY;
      var interest := ProRataInterest(remaining, offer.terms.rate, days);
      var base := offer.terms.amount + FlatYield(offer.terms.amount, offer.terms.rate);
      var penalty := AccruedPenalty(base, due, config.penaltyBps, config.capBps, now);
      var owed := remaining + interest + penalty;
      var least := TruncDiv(offer.terms.amount * MIN_PARTIAL_BPS, BPS);
      if amount < least && amount < owed { return Err(InvalidInput); }
      if amount > owed { return Err(InsufficientBalance); }
      var interestPortion := Min(amount, interest);
      return Ok((interestPortion, remaining - (amount - interestPortion)));
    }

    method RepayInvoice(invoice: Symbol, o: Symbol, payer: Address, amount: int, now: Timestamp) returns (r: Result<()>)
      modifies this, financing, financing.registry, financing.token, reputation
      ensures match Repay(old(State()), config, invoice, o, payer, amount, now)
              case Ok(s) => State() == s && r == Ok(())
              case Err(e) => State() == old(State()) && r == Err(e)
    {
      hide AmountError, Remaining, Interest, Paid, RegistrySteps.Move, Reported, Reputation.WithOutcome, Payable;
      var registry := financing.registry;
      var payable := CheckPayable(invoice, o, payer);
      if payable.Err? { return Err(payable.error); }
      var offer := payable.value;
      var pays := GetOr(payments, invoice, []);
      var split := SplitPayment(offer, pays, registry.invoices[invoice].due, amount, now);
      if split.Err? { return Err(split.error); }
      var (interest, left) := split.value;
      FinancedTakesPayments(registry.State(), invoice, left <= 0, now);
      var paid := PayLender(payer, offer.lender, amount);
      if !paid { return Err(Trap); }
      Book(invoice, o, Payment(|pays| + 1, amount, interest, amount - interest, now, payer), left <= 0);
      return Ok(());
    }

    /** Record a payment, report it, move the invoice, and rate the payer once the loan is closed. */
    method Book(invoice: Symbol, o: Symbol, p: Payment, full: bool)
      requires o in financing.offers
      requires RegistrySteps.MarkRepaid(financing.registry.State(), invoice, REPAYMENT, full, p.at).Ok?
      modifies this`payments, financing, financing.registry, reputation
      ensures payments == old(payments)[invoice := PaysOf(old(State()), invoice) + [p]]
      ensures financing.Own()
              == Reported(old(financing.Own()), o, old(financing.offers)[o].amountRepaid + p.principal, full)
      ensures RegistrySteps.MarkRepaid(old(financing.registry.State()), invoice, REPAYMENT, full, p.at)
              == Ok(financing.registry.State())
      ensures reputation.records == if full then Outcome(old(State()), config, p.payer, Reputation.OUTCOME_REPAID, p.at)
                                    else old(reputation.records)
    {
      hide RegistrySteps.Move, Reported, Reputation.WithOutcome;
      var offer := financing.offers[o];
      payments := payments[invoice := GetOr(payments, invoice, []) + [p]];
      ReportPayment(o, offer.lender, offer.amountRepaid + p.principal, full);
      var _ := financing.registry.Move(invoice, if full then Status.Repaid else Status.Financed, REPAYMENT, p.at);
      if full {
        RecordOutcome(p.payer, Reputation.OUTCOME_REPAID, p.at);
      }
    }

    method TotalDue(o: Symbol, now: Timestamp) returns (r: Result<int>)
      ensures r == CalculateTotalDue(State(), config, o, now)
    {
      hide ProRataInterest, AccruedPenalty, FlatYield;
      if o !in financing.offers { return Err(NotFound); }
      var offer := financing.offers[o];
      if offer.status == OfferStatus.Repaid || offer.status == OfferStatus.Defaulted { return Ok(0); }
      var repaid := TotalPrincipalRepaid(GetOr(payments, offer.invoice, []));
      var remaining := Max(offer.terms.amount - repaid, 0);
      if now < offer.fundedAt { return Err(Trap); }
      var days := (now - offer.fundedAt) / SECS_PER_DAY;
      var interest := ProRataInterest(remaining, offer.terms.rate, days);
      if offer.invoice !in financing.registry.invoices { return Err(NotFound); }
      var base := offer.terms.amount + FlatYield(offer.terms.amount, offer.terms.rate);
      var penalty :=
          AccruedPenalty(base, financing.registry.invoices[offer.invoice].due, config.penaltyBps, config.capBps, now);
      return Ok(Max(remaining + interest + penalty, 0));
    }

    method CheckReclaimable(invoice: Symbol, o: Symbol, lender: Address, now: Timestamp) returns (r: Result<Offer>)
      ensures r == Reclaimable(State(), invoice, o, lender, now)
      ensures r.Ok? ==>
                && invoice in financing.registry.invoices
                   && financing.registry.invoices[invoice].status == Status.Overdue
                && o in financing.offers && financing.offers[o] == r.value
    {
      var registry := financing.registry;
      if invoice !in registry.invoices { return Err(NotFound); }
      if registry.invoices[invoice].status != Status.Overdue { return Err(InvalidTransition); }
      if now < registry.invoices[invoice].due + GRACE_PERIOD { return Err(InvalidTransition); }
      if o !in financing.offers { return Err(NotFound); }
      var offer := financing.offers[o];
      if offer.invoice != invoice { return Err(InvalidInput); }
      if offer.lender != lender { return Err(Unauthorized); }
      if offer.status != OfferStatus.Accepted && offer.status != OfferStatus.Financed { return Err(InvalidTransition); }
      return Ok(offer);
    }

    /** Offer and invoice default together. */
    method DefaultLoan(invoice: Symbol, o: Symbol, now: Timestamp)
      requires o in financing.offers
      requires invoice in financing.registry.invoices && financing.registry.invoices[invoice].status == Status.Overdue
      modifies financing, financing.registry
      ensures SetStatus(old(financing.Own()), o, OfferStatus.Defaulted) == Ok(financing.Own())
      ensures RegistrySteps.MarkDefaulted(old(financing.registry.State()), invoice, REPAYMENT, now)
              == Ok(financing.registry.State())
      ensures invoice in financing.registry.invoices && financing.registry.invoices[invoice].status == Status.Defaulted
    {
      OverdueDefaults(financing.registry.State(), invoice, now);
      hide RegistrySteps.Move;
      var _ := financing.UpdateOfferStatus(o, OfferStatus.Defaulted);
      var _ := financing.registry.Move(invoice, Status.Defaulted, REPAYMENT, now);
    }

    /** The pool pays the exposure, as far as it can, if there is insurance at all. */
    method ClaimInsurance(defaulted: bool, offer: Offer) returns (r: Result<int>)
      modifies insurance
      ensures match Insure(old(State()), config, defaulted, offer)
              case Ok((s, payout)) => insurance.State() == s && r == Ok(payout)
              case Err(e) => insurance.State() == old(insurance.State()) && r == Err(e)
    {
      hide InsuranceSteps.PayOut, FlatYield;
      if !config.insured { return Ok(0); }
      var exposure := Max(offer.terms.amount + FlatYield(offer.terms.amount, offer.terms.rate) - offer.amountRepaid, 0);
      r := insurance.PayOut(defaulted, offer.lender, exposure);
    }

    lemma InsureAlike(s: Protocol, t: Protocol, defaulted: bool, offer: Offer)
      requires s.ins == t.ins
      ensures Insure(s, config, defaulted, offer) == Insure(t, config, defaulted, offer)
    {
    }

    /** Default and insurance claim; a refused claim undoes the default as well. */
    method DefaultInsured(invoice: Symbol, o: Symbol, now: Timestamp) returns (r: Result<int>)
      requires o in financing.offers
      requires invoice in financing.registry.invoices && financing.registry.invoices[invoice].status == Status.Overdue
      modifies financing, financing.registry, insurance
      ensures match Insure(old(State()), config, true, old(financing.offers)[o])
              case Ok((s, payout)) =>
                && r == Ok(payout) && insurance.State() == s
                && SetStatus(old(financing.Own()), o, OfferStatus.Defaulted) == Ok(financing.Own())
                && RegistrySteps.MarkDefaulted(old(financing.registry.State()), invoice, REPAYMENT, now)
                   == Ok(financing.registry.State())
              case Err(e) => r == Err(e) && State() == old(State())
    {
      hide RegistrySteps.MarkDefaulted, Insure;
      var registry := financing.registry;
      var offer := financing.offers[o];
      var offersBefore, invoicesBefore, logsBefore, tokensBefore, indexBefore, blacklistBefore :=
        financing.offers, registry.invoices, registry.logs, registry.tokens, registry.index, registry.blacklist;
      DefaultLoan(invoice, o, now);
      InsureAlike(old(State()), State(), true, offer);
      r := ClaimInsurance(registry.invoices[invoice].status == Status.Defaulted, offer);
      if r.Err? {
        financing.offers := offersBefore;
        registry.invoices, registry.logs, registry.tokens := invoicesBefore, logsBefore, tokensBefore;
        registry.index, registry.blacklist := indexBefore, blacklistBefore;
      }
    }

    method ReclaimInvoice(invoice: Symbol, o: Symbol, lender: Address, now: Timestamp) returns (r: Result<int>)
      modifies financing, financing.registry, insurance, reputation
      ensures match Reclaim(old(State()), config, invoice, o, lender, now)
              case Ok((s, payout)) => State() == s && r == Ok(payout)
              case Err(e) => State() == old(State()) && r == Err(e)
    {
      hide RegistrySteps.MarkDefaulted, Reputation.WithOutcome, Insure, Reclaimable;
      var registry := financing.registry;
      var reclaimable := CheckReclaimable(invoice, o, lender, now);
      if reclaimable.Err? { return Err(reclaimable.error); }
      var originator := registry.invoices[invoice].originator;
      OverdueDefaults(registry.State(), invoice, now);
      r := DefaultInsured(invoice, o, now);
      if r.Ok? {
        RecordOutcome(originator, Reputation.OUTCOME_DEFAULTED, now);
      }
    }
  }
}
