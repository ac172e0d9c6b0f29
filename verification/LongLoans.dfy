/** Loans with more payments than are added up. */
module LongLoans {
  import opened Base
  import opened Loans
  import opened FinancingSteps
  import opened RepaymentSteps
  import opened LoanLaws

  /** The records past the thousandth. */
  function Uncounted(pays: seq<Payment>): seq<Payment> { if |pays| <= MAX_PAYMENTS then [] else pays[MAX_PAYMENTS..] }

  lemma {:induction false} PrincipalConcat(a: seq<Payment>, b: seq<Payment>)
    ensures Principal(a + b) == Principal(a) + Principal(b)
  {
    if b == [] {
      assert a + b == a;
    } else {
      var n := |b| - 1;
      PrincipalConcat(a, b[..n]);
      assert a + b == (a + b[..n]) + [b[n]] && b == b[..n] + [b[n]];
      PrincipalSnoc(a + b[..n], b[n]);
      PrincipalSnoc(b[..n], b[n]);
    }
  }

  /** Exactly the payments past the thousandth are left out. */
  lemma CountsAThousand(pays: seq<Payment>)
    ensures Counted(pays) == pays[..Min(|pays|, 1_000)] && Uncounted(pays) == pays[Min(|pays|, 1_000)..]
  {
  }

  /** What a loan is taken to owe is its principal less all recorded repayments if and only if nothing
      was repaid past the thousandth record, or the principal is covered either way. */
  lemma RemainingIsExactIff(offer: Offer, pays: seq<Payment>)
    ensures Principal(pays) == Principal(Counted(pays)) + Principal(Uncounted(pays))
    ensures Remaining(offer, pays) == Max(offer.terms.amount - Principal(pays), 0)
       <==> || Principal(Uncounted(pays)) == 0
            || (Principal(Counted(pays)) >= offer.terms.amount && Principal(pays) >= offer.terms.amount)
  {
    PrincipalConcat(Counted(pays), Uncounted(pays));
    assert pays == Counted(pays) + Uncounted(pays);
    hide Principal;
  }

  /** After a thousand payments no further one is added up. */
  lemma PastThousand(offer: Offer, pays: seq<Payment>, p: Payment)
    requires |pays| >= MAX_PAYMENTS
    ensures Remaining(offer, pays + [p]) == Remaining(offer, pays)
  {
    assert Counted(pays + [p]) == Counted(pays);
  }

  /** From then on a payment that does not close the loan leaves the quote where it was, however much
      principal it repays. */
  lemma PaidForNothing(s: Protocol, cfg: Config, invoice: Symbol, o: Symbol, payer: Address, amount: int,
                       now: Timestamp)
    requires Running(s, invoice, o, payer, now) && Repay(s, cfg, invoice, o, payer, amount, now).Ok?
    requires |PaysOf(s, invoice)| >= 1_000
    requires amount < Remaining(s.market.fin.offers[o], PaysOf(s, invoice))
                      + Interest(s.market.fin.offers[o], Remaining(s.market.fin.offers[o], PaysOf(s, invoice)), now)
    ensures var s' := Repay(s, cfg, invoice, o, payer, amount, now).value;
            && Running(s', invoice, o, payer, now)
            && CalculateTotalDue(s', cfg, o, now) == CalculateTotalDue(s, cfg, o, now)
  {
    hide Repay, Interest, Penalty, Remaining, Recorded, CalculateTotalDue, AmountError, Paid;
    var offer, pays := s.market.fin.offers[o], PaysOf(s, invoice);
    var s' := Repay(s, cfg, invoice, o, payer, amount, now).value;
    KeepsTerms(s, cfg, invoice, o, payer, amount, now);
    PastThousand(offer, pays, Recorded(offer, pays, payer, amount, now));
    OwedByTerms(cfg, offer, s'.market.fin.offers[o], PaysOf(s', invoice), s.market.reg.invoices[invoice].due, now);
    OwedIsPositive(s, cfg, invoice, o, payer, now);
    OwedIsPositive(s', cfg, invoice, o, payer, now);
  }

  /** What a payment that does not close the loan leaves as it was. */
  lemma KeepsTerms(s: Protocol, cfg: Config, invoice: Symbol, o: Symbol, payer: Address, amount: int, now: Timestamp)
    requires Running(s, invoice, o, payer, now) && Repay(s, cfg, invoice, o, payer, amount, now).Ok?
    requires amount < Remaining(s.market.fin.offers[o], PaysOf(s, invoice))
                      + Interest(s.market.fin.offers[o], Remaining(s.market.fin.offers[o], PaysOf(s, invoice)), now)
    ensures var s' := Repay(s, cfg, invoice, o, payer, amount, now).value;
            var offer, pays := s.market.fin.offers[o], PaysOf(s, invoice);
            && Payable(s', invoice, o, payer).Ok?
            && s'.market.fin.offers[o].terms == offer.terms && s'.market.fin.offers[o].fundedAt == offer.fundedAt
            && s'.market.fin.offers[o].lender == offer.lender
            && s'.market.reg.invoices[invoice].due == s.market.reg.invoices[invoice].due
            && PaysOf(s', invoice) == pays + [Recorded(offer, pays, payer, amount, now)]
            && Some(s'.market.wallets) == Paid(s.market.wallets, cfg, payer, offer.lender, amount)
  {
    ClosesIff(s, cfg, invoice, o, payer, amount, now);
    hide Interest, Penalty, Remaining, Paid, MinPartial, Principal, Counted, Recorded;
  }

  // ----- a loan that gets there -----

  /** The same payment n times over at one time. */
  ghost function RepayMany(s: Protocol, cfg: Config, invoice: Symbol, o: Symbol, payer: Address, amount: int,
                           now: Timestamp, n: nat): Protocol
    decreases n
  {
    if n == 0 then s
    else
      match Repay(s, cfg, invoice, o, payer, amount, now)
      case Ok(t) => RepayMany(t, cfg, invoice, o, payer, amount, now, n - 1)
      case Err(_) => s
  }

  /** A payer of interest: able to pay, and paying exactly the interest, which is no dust. */
  ghost predicate PaysInterest(s: Protocol, cfg: Config, invoice: Symbol, o: Symbol, payer: Address, amount: int,
                               now: Timestamp, n: nat) {
    && Running(s, invoice, o, payer, now)
    && cfg.feeBps <= BPS && payer != cfg.feeRecipient
    && var offer, pays := s.market.fin.offers[o], PaysOf(s, invoice);
       && payer != offer.lender
       && amount == Interest(offer, Remaining(offer, pays), now) && amount > 0 && amount >= MinPartial(offer)
       && GetOr(s.market.wallets, payer, 0) >= n * amount
       && |pays| + n <= MAX_PAYMENTS
  }

  lemma OneInterestPayment(s: Protocol, cfg: Config, invoice: Symbol, o: Symbol, payer: Address, amount: int,
                           now: Timestamp, n: nat)
    requires n > 0 && PaysInterest(s, cfg, invoice, o, payer, amount, now, n)
    ensures var r := Repay(s, cfg, invoice, o, payer, amount, now);
            && r.Ok?
            && PaysInterest(r.value, cfg, invoice, o, payer, amount, now, n - 1)
            && |PaysOf(r.value, invoice)| == |PaysOf(s, invoice)| + 1
            && r.value.market.fin.offers[o].terms == s.market.fin.offers[o].terms
            && Remaining(r.value.market.fin.offers[o], PaysOf(r.value, invoice))
               == Remaining(s.market.fin.offers[o], PaysOf(s, invoice))
            && CalculateTotalDue(r.value, cfg, o, now) == CalculateTotalDue(s, cfg, o, now)
  {
    hide Repay, Interest, Penalty, Remaining, Recorded, Paid, CalculateTotalDue, MinPartial;
    var offer, pays := s.market.fin.offers[o], PaysOf(s, invoice);
    Covers(GetOr(s.market.wallets, payer, 0), amount, n);
    PaymentMoves(s.market.wallets, cfg, payer, offer.lender, amount);
    AcceptedIff(s, cfg, invoice, o, payer, amount, now);
    OwedIsPositive(s, cfg, invoice, o, payer, now);
    InterestIsChargedAnew(s, cfg, invoice, o, payer, amount, now);
    KeepsTerms(s, cfg, invoice, o, payer, amount, now);
    var t := Repay(s, cfg, invoice, o, payer, amount, now).value;
    SameMinimum(offer, t.market.fin.offers[o]);
    OwedByTerms(cfg, offer, t.market.fin.offers[o], PaysOf(t, invoice), s.market.reg.invoices[invoice].due, now);
  }

  lemma SameMinimum(x: Offer, y: Offer)
    requires x.terms == y.terms
    ensures MinPartial(x) == MinPartial(y)
  {
  }

  lemma Covers(balance: int, amount: int, n: nat)
    requires n > 0 && amount > 0 && balance >= n * amount
    ensures balance >= amount && balance - amount >= (n - 1) * amount
  {
    assert n * amount == (n - 1) * amount + amount;
    assert (n - 1) * amount >= 0;
  }

  /** Payments of exactly the interest can be made up to a thousand times without changing what is due. */
  lemma {:induction false} InterestOnly(s: Protocol, cfg: Config, invoice: Symbol, o: Symbol, payer: Address,
                                        amount: int, now: Timestamp, n: nat)
    requires PaysInterest(s, cfg, invoice, o, payer, amount, now, n)
    ensures var t := RepayMany(s, cfg, invoice, o, payer, amount, now, n);
            && Running(t, invoice, o, payer, now)
            && |PaysOf(t, invoice)| == |PaysOf(s, invoice)| + n
            && Remaining(t.market.fin.offers[o], PaysOf(t, invoice))
               == Remaining(s.market.fin.offers[o], PaysOf(s, invoice))
            && CalculateTotalDue(t, cfg, o, now) == CalculateTotalDue(s, cfg, o, now)
    decreases n
  {
    hide Repay, CalculateTotalDue, Remaining, Interest, Running, PaysOf, MinPartial, Payable;
    if n > 0 {
      OneInterestPayment(s, cfg, invoice, o, payer, amount, now, n);
      hide PaysInterest;
      InterestOnly(Repay(s, cfg, invoice, o, payer, amount, now).value, cfg, invoice, o, payer, amount, now, n - 1);
    }
  }

  /** So a new loan can reach the limit with its whole principal open, and from there every payment short
      of closing it, down to the last unit, repays nothing. */
  lemma LimitIsReached(s: Protocol, cfg: Config, invoice: Symbol, o: Symbol, payer: Address, interest: int, amount: int,
                       now: Timestamp)
    requires PaysOf(s, invoice) == [] && PaysInterest(s, cfg, invoice, o, payer, interest, now, MAX_PAYMENTS)
    ensures var t := RepayMany(s, cfg, invoice, o, payer, interest, now, MAX_PAYMENTS);
            && Running(t, invoice, o, payer, now)
            && |PaysOf(t, invoice)| == MAX_PAYMENTS
            && var offer, pays := t.market.fin.offers[o], PaysOf(t, invoice); var left := Remaining(offer, pays);
               && left == s.market.fin.offers[o].terms.amount
               && (amount < left + Interest(offer, left, now) && Repay(t, cfg, invoice, o, payer, amount, now).Ok? ==>
                     CalculateTotalDue(Repay(t, cfg, invoice, o, payer, amount, now).value, cfg, o, now)
                       == CalculateTotalDue(s, cfg, o, now))
  {
    InterestOnly(s, cfg, invoice, o, payer, interest, now, MAX_PAYMENTS);
    var t := RepayMany(s, cfg, invoice, o, payer, interest, now, MAX_PAYMENTS);
    var left := Remaining(t.market.fin.offers[o], PaysOf(t, invoice));
    if amount < left + Interest(t.market.fin.offers[o], left, now)
      && Repay(t, cfg, invoice, o, payer, amount, now).Ok? {
      PaidForNothing(t, cfg, invoice, o, payer, amount, now);
    }
    hide Repay, RepayMany, CalculateTotalDue, Interest;
  }
}
