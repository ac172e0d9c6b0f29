/** Who may pay or write off a loan, when, and what is put on record. */
module LoanCalls {
  import opened Base
  import opened Loans
  import opened FinancingSteps
  import opened RepaymentSteps
  import opened LoanLaws
  import Status

  /** The offer was funded and is still to be repaid. */
  ghost predicate Outstanding(s: Protocol, invoice: Symbol, o: Symbol) {
    && invoice in s.market.reg.invoices && o in s.market.fin.offers && s.market.fin.offers[o].invoice == invoice
    && s.market.fin.offers[o].status in {Accepted, Financed}
  }

  /** A payment commits only on a running loan, and a loan runs exactly for the originator of a financed
      invoice whose offer is outstanding, with principal left to repay. Which amounts it then takes is
      `LoanLaws.AcceptedIff`. */
  lemma OnlyRunningLoansTakePayments(s: Protocol, cfg: Config, invoice: Symbol, o: Symbol, payer: Address, amount: int,
                                     now: Timestamp)
    ensures Running(s, invoice, o, payer, now) <==>
              && Outstanding(s, invoice, o)
              && s.market.reg.invoices[invoice].originator == payer
              && s.market.reg.invoices[invoice].status == Status.Financed
              && s.market.fin.offers[o].terms.amount > Principal(Counted(PaysOf(s, invoice)))
              && now >= s.market.fin.offers[o].fundedAt
    ensures Repay(s, cfg, invoice, o, payer, amount, now).Ok? ==> Running(s, invoice, o, payer, now)
  {
    hide Interest, Penalty, Paid, Principal, Counted;
  }

  /** A committed payment is put on record as the next one of its invoice, with its payer and time, and the
      money moves as `LoanLaws.PaymentMoves` says. */
  lemma PaymentIsRecorded(s: Protocol, cfg: Config, invoice: Symbol, o: Symbol, payer: Address, amount: int,
                          now: Timestamp)
    requires Repay(s, cfg, invoice, o, payer, amount, now).Ok?
    ensures var t := Repay(s, cfg, invoice, o, payer, amount, now).value; var pays := PaysOf(s, invoice);
            && o in s.market.fin.offers
            && |PaysOf(t, invoice)| == |pays| + 1 && PaysOf(t, invoice)[..|pays|] == pays
            && (forall i :: i != invoice ==> PaysOf(t, i) == PaysOf(s, i))
            && Some(t.market.wallets) == Paid(s.market.wallets, cfg, payer, s.market.fin.offers[o].lender, amount)
            && var p := PaysOf(t, invoice)[|pays|];
               p.id == |pays| + 1 && p.amount == amount && p.at == now && p.payer == payer
  {
    hide Interest, Penalty, Paid, Principal, Counted, Remaining, AmountError;
  }

  /** A loan can be written off exactly by its lender, on an overdue invoice, once seven days have passed
      since the due date. */
  lemma ReclaimableIff(s: Protocol, invoice: Symbol, o: Symbol, lender: Address, now: Timestamp)
    ensures Reclaimable(s, invoice, o, lender, now).Ok? <==>
              && Outstanding(s, invoice, o)
              && s.market.fin.offers[o].lender == lender
              && s.market.reg.invoices[invoice].status == Status.Overdue
              && now >= s.market.reg.invoices[invoice].due + 604_800
  {
  }

  /** A loan that is over owes nothing. */
  lemma NothingDueAfterwards(s: Protocol, cfg: Config, o: Symbol, now: Timestamp)
    requires o in s.market.fin.offers && s.market.fin.offers[o].status in {OfferStatus.Repaid, OfferStatus.Defaulted}
    ensures CalculateTotalDue(s, cfg, o, now) == Ok(0)
  {
  }

  /** A refused payment is told why, truthfully; a trap stands for a payment of nothing, and for the token
      transfer. */
  lemma RefusedPayment(s: Protocol, cfg: Config, invoice: Symbol, o: Symbol, payer: Address, amount: int,
                       now: Timestamp)
    requires Repay(s, cfg, invoice, o, payer, amount, now).Err?
    ensures match Repay(s, cfg, invoice, o, payer, amount, now).error
            case NotFound => invoice !in s.market.reg.invoices || o !in s.market.fin.offers
            case Unauthorized => invoice in s.market.reg.invoices && s.market.reg.invoices[invoice].originator != payer
            case InvalidTransition =>
              || (invoice in s.market.reg.invoices && s.market.reg.invoices[invoice].status != Status.Financed)
              || (o in s.market.fin.offers
                  && (|| s.market.fin.offers[o].status !in {Accepted, Financed}
                      || s.market.fin.offers[o].terms.amount <= Principal(Counted(PaysOf(s, invoice)))))
            case InvalidInput =>
              && o in s.market.fin.offers
              && (s.market.fin.offers[o].invoice != invoice || amount < MinPartial(s.market.fin.offers[o]))
            case InsufficientBalance =>
              && Running(s, invoice, o, payer, now) && CalculateTotalDue(s, cfg, o, now).Ok?
              && amount > CalculateTotalDue(s, cfg, o, now).value
            case Trap =>
              && o in s.market.fin.offers
              && (|| amount <= 0 || now < s.market.fin.offers[o].fundedAt
                  || Paid(s.market.wallets, cfg, payer, s.market.fin.offers[o].lender, amount).None?)
            case _ => false
  {
    if Running(s, invoice, o, payer, now) { OwedIsPositive(s, cfg, invoice, o, payer, now); }
    hide Interest, Penalty, Paid, Principal, Counted, MinPartial;
  }

  /** A refused reclaim is told why, truthfully; with nothing to claim from the pool it is refused as such. */
  lemma RefusedReclaim(s: Protocol, cfg: Config, invoice: Symbol, o: Symbol, lender: Party, now: Timestamp)
    requires Reclaim(s, cfg, invoice, o, lender, now).Err?
    ensures match Reclaim(s, cfg, invoice, o, lender, now).error
            case NotFound => invoice !in s.market.reg.invoices || o !in s.market.fin.offers
            case Unauthorized => o in s.market.fin.offers && s.market.fin.offers[o].lender != lender
            case InvalidTransition =>
              || (invoice in s.market.reg.invoices
                  && (|| s.market.reg.invoices[invoice].status != Status.Overdue
                      || now < s.market.reg.invoices[invoice].due + 604_800))
              || (o in s.market.fin.offers && s.market.fin.offers[o].status !in {Accepted, Financed})
            case InvalidInput =>
              && o in s.market.fin.offers
              && (s.market.fin.offers[o].invoice != invoice || (cfg.insured && Exposure(s.market.fin.offers[o]) == 0))
            case Trap => cfg.insured
            case _ => false
  {
    hide Exposure;
    if Reclaimable(s, invoice, o, lender, now).Ok? {
      assert Exposure(s.market.fin.offers[o]) >= 0 by { ExposureNonNegative(s.market.fin.offers[o]); }
    }
  }

  lemma ExposureNonNegative(offer: Offer)
    ensures Exposure(offer) >= 0
  {
  }
}
