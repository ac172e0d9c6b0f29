/** Laws of a single loan. */
module LoanLaws {
  import opened Base
  import opened Loans
  import opened FinancingSteps
  import opened RepaymentSteps
  import Status
  import InsuranceSteps

  /** A funded offer on its financed invoice, with something left to repay. */
  ghost predicate Running(s: Protocol, invoice: Symbol, o: Symbol, payer: Address, now: Timestamp) {
    && Payable(s, invoice, o, payer).Ok?
    && Remaining(s.market.fin.offers[o], PaysOf(s, invoice)) > 0
    && now >= s.market.fin.offers[o].fundedAt
  }

  /** Without a payment the quote of a running loan never falls in time. */
  lemma QuoteNeverFalls(s: Protocol, cfg: Config, invoice: Symbol, o: Symbol, payer: Address, now: Timestamp,
                        later: Timestamp)
    requires Running(s, invoice, o, payer, now) && now <= later
    ensures CalculateTotalDue(s, cfg, o, now).Ok? && CalculateTotalDue(s, cfg, o, later).Ok?
    ensures CalculateTotalDue(s, cfg, o, now).value <= CalculateTotalDue(s, cfg, o, later).value
  {
    var offer := s.market.fin.offers[o];
    var left, start := Remaining(offer, PaysOf(s, invoice)), offer.fundedAt;
    assert (now - start) / SECS_PER_DAY <= (later - start) / SECS_PER_DAY;
    InterestNeverFalls(left, offer.terms.rate, (now - start) / SECS_PER_DAY, (later - start) / SECS_PER_DAY);
    PenaltyNeverFalls(offer.terms.amount + FlatYield(offer.terms.amount, offer.terms.rate),
                      s.market.reg.invoices[invoice].due, cfg.penaltyBps, cfg.capBps, now, later);
    hide ProRataInterest, AccruedPenalty, Remaining, FlatYield;
  }

  lemma MulMonotone(a: int, x: int, y: int)
    requires a >= 0 && 0 <= x <= y
    ensures 0 <= a * x <= a * y
  {
  }

  lemma FeeBounds(cfg: Config, amount: int)
    requires amount > 0 && cfg.feeBps <= BPS
    ensures 0 <= Fee(cfg, amount) <= amount
  {
    MulMonotone(amount, cfg.feeBps, BPS);
    var product, fee := amount * cfg.feeBps, Fee(cfg, amount);
    assert 0 <= product <= amount * 10_000 && fee * 10_000 <= product;
  }

  /** Whoever else holds wallets, a payment goes through exactly when the payer can cover it, and
      moves the fee to its recipient and the rest to the lender. */
  lemma PaymentMoves(wallets: map<Address, int>, cfg: Config, payer: Address, lender: Address, amount: int)
    requires amount > 0 && cfg.feeBps <= BPS && payer != lender && payer != cfg.feeRecipient
    ensures Paid(wallets, cfg, payer, lender, amount).Some? <==> GetOr(wallets, payer, 0) >= amount
    ensures Paid(wallets, cfg, payer, lender, amount).Some? ==>
              var w, fee := Paid(wallets, cfg, payer, lender, amount).value, Fee(cfg, amount);
              && GetOr(w, payer, 0) == GetOr(wallets, payer, 0) - amount
              && GetOr(w, lender, 0)
                 == GetOr(wallets, lender, 0) + amount - (if lender == cfg.feeRecipient then 0 else fee)
              && (lender != cfg.feeRecipient ==>
                    GetOr(w, cfg.feeRecipient, 0) == GetOr(wallets, cfg.feeRecipient, 0) + fee)
  {
    FeeBounds(cfg, amount);
    hide Fee;
    if Fee(cfg, amount) == amount {
      assert InsuranceSteps.Transfer(wallets, payer, lender, 0).Some? || GetOr(wallets, payer, 0) < 0;
    }
  }

  /** Which payments a running loan takes: those that are not dust, unless they settle the loan, and
      that do not exceed what is quoted as due. */
  lemma AcceptedIff(s: Protocol, cfg: Config, invoice: Symbol, o: Symbol, payer: Address, amount: int, now: Timestamp)
    requires Running(s, invoice, o, payer, now)
    ensures CalculateTotalDue(s, cfg, o, now).Ok?
    ensures var offer, due := s.market.fin.offers[o], CalculateTotalDue(s, cfg, o, now).value;
            Repay(s, cfg, invoice, o, payer, amount, now).Ok? <==>
            && 0 < amount <= due && (amount >= MinPartial(offer) || amount == due)
            && Paid(s.market.wallets, cfg, payer, offer.lender, amount).Some?
  {
    hide Interest, Penalty, Remaining, Principal, Counted, Paid, MinPartial;
    OwedIsPositive(s, cfg, invoice, o, payer, now);
  }

  lemma OwedIsPositive(s: Protocol, cfg: Config, invoice: Symbol, o: Symbol, payer: Address, now: Timestamp)
    requires Running(s, invoice, o, payer, now)
    ensures var offer, pays := s.market.fin.offers[o], PaysOf(s, invoice);
            && Owed(cfg, offer, pays, s.market.reg.invoices[invoice].due, now) > 0
            && CalculateTotalDue(s, cfg, o, now) == Ok(Owed(cfg, offer, pays, s.market.reg.invoices[invoice].due, now))
            && Interest(offer, Remaining(offer, pays), now) >= 0
               && Penalty(cfg, offer, s.market.reg.invoices[invoice].due, now) >= 0
  {
  }

  /** The quote is the largest payment the loan takes, and paying it closes the loan. */
  lemma QuoteIsLargestAndCloses(s: Protocol, cfg: Config, invoice: Symbol, o: Symbol, payer: Address, amount: int,
                                now: Timestamp)
    requires Running(s, invoice, o, payer, now)
    ensures CalculateTotalDue(s, cfg, o, now).Ok?
    ensures var due := CalculateTotalDue(s, cfg, o, now).value;
            && (Repay(s, cfg, invoice, o, payer, amount, now).Ok? ==> amount <= due)
            && (Paid(s.market.wallets, cfg, payer, s.market.fin.offers[o].lender, due).Some? ==>
                  var r := Repay(s, cfg, invoice, o, payer, due, now);
                  && r.Ok?
                  && o in r.value.market.fin.offers && r.value.market.fin.offers[o].status == Repaid
                  && CalculateTotalDue(r.value, cfg, o, now) == Ok(0))
  {
    OwedIsPositive(s, cfg, invoice, o, payer, now);
    AcceptedIff(s, cfg, invoice, o, payer, amount, now);
    var due := CalculateTotalDue(s, cfg, o, now).value;
    AcceptedIff(s, cfg, invoice, o, payer, due, now);
    if Paid(s.market.wallets, cfg, payer, s.market.fin.offers[o].lender, due).Some? {
      ClosesIff(s, cfg, invoice, o, payer, due, now);
    }
  }

  /** A payment closes the loan exactly when it covers the remaining principal and the interest,
      whether or not it covers the penalty; otherwise both sides stay Financed. */
  lemma ClosesIff(s: Protocol, cfg: Config, invoice: Symbol, o: Symbol, payer: Address, amount: int, now: Timestamp)
    requires Running(s, invoice, o, payer, now) && Repay(s, cfg, invoice, o, payer, amount, now).Ok?
    ensures var s' := Repay(s, cfg, invoice, o, payer, amount, now).value;
            var offer := s.market.fin.offers[o]; var left := Remaining(offer, PaysOf(s, invoice));
            && o in s'.market.fin.offers && invoice in s'.market.reg.invoices
            && (amount >= left + Interest(offer, left, now) ==>
                  s'.market.fin.offers[o].status == Repaid && s'.market.reg.invoices[invoice].status == Status.Repaid)
            && (amount < left + Interest(offer, left, now) ==>
                  s'.market.fin.offers[o].status == Financed
                    && s'.market.reg.invoices[invoice].status == Status.Financed)
  {
    hide Interest, Penalty, Remaining, Principal, Counted, Paid, MinPartial;
    OwedIsPositive(s, cfg, invoice, o, payer, now);
  }

  /** The record of a payment splits it into non-negative interest and principal, the loan's repaid
      amount grows by the principal, and what is recorded beyond the loan's principal is never more
      than the penalty. */
  lemma RecordSplits(s: Protocol, cfg: Config, invoice: Symbol, o: Symbol, payer: Address, amount: int, now: Timestamp)
    requires Running(s, invoice, o, payer, now) && Repay(s, cfg, invoice, o, payer, amount, now).Ok?
    ensures var s' := Repay(s, cfg, invoice, o, payer, amount, now).value;
            var offer, pays := s.market.fin.offers[o], PaysOf(s, invoice);
            && o in s'.market.fin.offers
            && |PaysOf(s', invoice)| == |pays| + 1 && pays < PaysOf(s', invoice)
            && var p := PaysOf(s', invoice)[|pays|];
               && p.interest + p.principal == p.amount == amount && p.interest >= 0 && p.principal >= 0
               && s'.market.fin.offers[o].amountRepaid == offer.amountRepaid + p.principal
               && Principal(PaysOf(s', invoice)) == Principal(pays) + p.principal
               && p.principal <= Remaining(offer, pays) + Penalty(cfg, offer, s.market.reg.invoices[invoice].due, now)
               && (|pays| < MAX_PAYMENTS ==>
                     Principal(PaysOf(s', invoice)) - offer.terms.amount
                       <= Penalty(cfg, offer, s.market.reg.invoices[invoice].due, now))
  {
    OwedIsPositive(s, cfg, invoice, o, payer, now);
    var offer, pays := s.market.fin.offers[o], PaysOf(s, invoice);
    var p := Recorded(offer, pays, payer, amount, now);
    PrincipalSnoc(pays, p);
    hide Interest, Penalty, Paid, MinPartial, Principal;
    assert PaysOf(Repay(s, cfg, invoice, o, payer, amount, now).value, invoice) == pays + [p];
  }

  /** Interest is charged anew on every payment: right after a payment that leaves the loan running,
      what is due has gone down by the amount less the interest on what now remains, and a payment
      that only meets the interest changes nothing. */
  lemma InterestIsChargedAnew(s: Protocol, cfg: Config, invoice: Symbol, o: Symbol, payer: Address, amount: int,
                              now: Timestamp)
    requires Running(s, invoice, o, payer, now) && Repay(s, cfg, invoice, o, payer, amount, now).Ok?
    requires |PaysOf(s, invoice)| < MAX_PAYMENTS
    requires amount < Remaining(s.market.fin.offers[o], PaysOf(s, invoice))
                      + Interest(s.market.fin.offers[o], Remaining(s.market.fin.offers[o], PaysOf(s, invoice)), now)
    ensures var s' := Repay(s, cfg, invoice, o, payer, amount, now).value;
            var offer := s.market.fin.offers[o]; var left := Remaining(offer, PaysOf(s, invoice));
            var interest, left' := Interest(offer, left, now), Remaining(offer, PaysOf(s', invoice));
            && Running(s', invoice, o, payer, now)
            && left' == left - Max(amount - interest, 0)
            && CalculateTotalDue(s, cfg, o, now).Ok? && CalculateTotalDue(s', cfg, o, now).Ok?
            && CalculateTotalDue(s', cfg, o, now).value
               == CalculateTotalDue(s, cfg, o, now).value - amount
                   + (if amount <= interest then amount else Interest(offer, left', now))
  {
    OwedIsPositive(s, cfg, invoice, o, payer, now);
    StillRunning(s, cfg, invoice, o, payer, amount, now);
    var s' := Repay(s, cfg, invoice, o, payer, amount, now).value;
    OwedIsPositive(s', cfg, invoice, o, payer, now);
    hide Repay, CalculateTotalDue, Interest, Penalty, Remaining;
    OwedByTerms(cfg, s.market.fin.offers[o], s'.market.fin.offers[o], PaysOf(s', invoice),
                s.market.reg.invoices[invoice].due, now);
  }

  /** What is owed depends on the terms, the funding day and the payments only. */
  lemma OwedByTerms(cfg: Config, x: Offer, y: Offer, pays: seq<Payment>, due: Timestamp, now: Timestamp)
    requires now >= x.fundedAt == y.fundedAt && x.terms == y.terms
    ensures Remaining(x, pays) == Remaining(y, pays) && Penalty(cfg, x, due, now) == Penalty(cfg, y, due, now)
    ensures forall left :: Interest(x, left, now) == Interest(y, left, now)
    ensures Owed(cfg, x, pays, due, now) == Owed(cfg, y, pays, due, now)
  {
  }

  lemma StillRunning(s: Protocol, cfg: Config, invoice: Symbol, o: Symbol, payer: Address, amount: int, now: Timestamp)
    requires Running(s, invoice, o, payer, now) && Repay(s, cfg, invoice, o, payer, amount, now).Ok?
    requires |PaysOf(s, invoice)| < MAX_PAYMENTS
    requires amount < Remaining(s.market.fin.offers[o], PaysOf(s, invoice))
                      + Interest(s.market.fin.offers[o], Remaining(s.market.fin.offers[o], PaysOf(s, invoice)), now)
    ensures var s' := Repay(s, cfg, invoice, o, payer, amount, now).value;
            var offer := s.market.fin.offers[o];
            && Running(s', invoice, o, payer, now)
            && s'.market.fin.offers[o].terms == offer.terms && s'.market.fin.offers[o].fundedAt == offer.fundedAt
            && s'.market.reg.invoices[invoice].due == s.market.reg.invoices[invoice].due
            && Remaining(offer, PaysOf(s', invoice))
               == Remaining(offer, PaysOf(s, invoice))
                  - Max(amount - Interest(offer, Remaining(offer, PaysOf(s, invoice)), now), 0)
  {
    ClosesIff(s, cfg, invoice, o, payer, amount, now);
    var offer, pays := s.market.fin.offers[o], PaysOf(s, invoice);
    var p := Recorded(offer, pays, payer, amount, now);
    PrincipalSnoc(pays, p);
    hide Interest, Penalty, Paid, MinPartial, Principal, Owed;
    assert PaysOf(Repay(s, cfg, invoice, o, payer, amount, now).value, invoice) == pays + [p];
  }
}
