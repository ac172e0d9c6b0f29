/** What interest, penalty, fee and the smallest payment come to, in whole units of account. */
module LoanAmounts {
  import opened Base
  import opened Loans
  import opened FinancingSteps
  import opened RepaymentSteps
  import opened Negotiation
  import opened LoanLaws

  /** The largest amount the host can represent. */
  const LARGEST: int := 170_141_183_460_469_231_731_687_303_715_884_105_727

  /** Saturating twice is saturating once. */
  lemma SaturatesOnce(a: int, b: int, c: int)
    requires a > 0 && b > 0 && c > 0
    ensures SaturatingMul(SaturatingMul(a, b), c) == Min(a * b * c, LARGEST)
    ensures SaturatingMul(a, b) == Min(a * b, LARGEST) && a * b > 0 && a * b * c > 0
  {
    assert a * b > 0;
    assert a * b * c > 0;
    var m := Min(a * b, LARGEST);
    assert m * c > 0;
    if a * b > LARGEST {
      assert LARGEST * c - LARGEST == LARGEST * (c - 1) >= 0;
      assert a * b * c - LARGEST * c == (a * b - LARGEST) * c >= 0;
    }
  }

  /** Interest for whole days at a yearly rate in basis points: principal times rate times days over
      3_650_000, rounded down, with the product capped at what the host can represent. */
  lemma InterestIsExact(remaining: int, rate: nat, days: int)
    ensures remaining > 0 && days >= 0 ==>
              IsShare(ProRataInterest(remaining, rate, days), Min(remaining * rate * days, LARGEST), 3_650_000)
  {
    if remaining > 0 && rate > 0 && days > 0 {
      SaturatesOnce(remaining, rate, days);
      Rounds(Min(remaining * rate * days, LARGEST), 3_650_000);
      hide TruncDiv, SaturatingMul;
    } else if remaining > 0 && days >= 0 {
      assert remaining * rate * days == 0;
    }
  }

  /** The penalty for whole days past the due date: base times daily rate times days, but at most base times
      the cap, over 10_000 and rounded down. */
  lemma PenaltyIsExact(base: int, due: Timestamp, penaltyBps: nat, capBps: nat, now: Timestamp)
    requires base > 0
    ensures var days := if now > due then (now - due) / 86_400 else 0;
            IsShare(AccruedPenalty(base, due, penaltyBps, capBps, now),
                    Min(Min(base * penaltyBps * days, base * capBps), LARGEST), 10_000)
  {
    var days := if now > due then (now - due) / 86_400 else 0;
    if penaltyBps > 0 && capBps > 0 && days > 0 {
      SaturatesOnce(base, penaltyBps, days);
      SaturatesOnce(base, capBps, 1);
      var n, c := Min(base * penaltyBps * days, LARGEST), Min(base * capBps, LARGEST);
      Rounds(n, 10_000);
      Rounds(c, 10_000);
      hide TruncDiv, SaturatingMul;
      LeastShare(TruncDiv(n, 10_000), n, TruncDiv(c, 10_000), c, 10_000);
    } else {
      NoPenalty(base, penaltyBps, capBps, days);
    }
  }

  lemma NoPenalty(base: int, penaltyBps: nat, capBps: nat, days: nat)
    requires base > 0 && (penaltyBps == 0 || capBps == 0 || days == 0)
    ensures Min(base * penaltyBps * days, base * capBps) == 0
  {
    assert base * penaltyBps >= 0 && base * capBps >= 0;
    assert base * penaltyBps * days >= 0;
    if penaltyBps == 0 || days == 0 { assert base * penaltyBps * days == 0; }
  }

  /** The smaller of two shares is the share of the smaller amount. */
  lemma LeastShare(x: int, n: int, y: int, m: int, d: int)
    requires d > 0 && IsShare(x, n, d) && IsShare(y, m, d)
    ensures IsShare(Min(x, y), Min(n, m), d)
  {
    ScalesApart(x, y, d);
    ScalesApart(y, x, d);
    assert x == y ==> x * d == y * d;
  }

  // ----- a loan -----

  /** A quote by its parts: what remains of the principal; interest on it over whole days since funding; and
      the penalty over whole days past the due date, on principal and flat yield. */
  ghost predicate Adds(cfg: Config, t: Terms, left: int, days: nat, late: nat, quote: int, interest: int, flat: int,
                       penalty: int) {
    && quote == left + interest + penalty
    && IsShare(interest, Min(left * t.rate * days, LARGEST), 3_650_000)
    && IsShare(flat, t.amount * t.rate, 10_000)
    && IsShare(penalty, Min(Min((t.amount + flat) * cfg.penaltyBps * late, (t.amount + flat) * cfg.capBps), LARGEST),
               10_000)
  }

  ghost predicate Quoted(cfg: Config, t: Terms, left: int, days: nat, late: nat, quote: int) {
    exists interest, flat, penalty :: Adds(cfg, t, left, days, late, quote, interest, flat, penalty)
  }

  lemma FlatYieldIsExact(amount: int, rate: nat)
    requires amount > 0
    ensures IsShare(FlatYield(amount, rate), amount * rate, 10_000) && FlatYield(amount, rate) >= 0
  {
    assert amount * rate >= 0;
    Rounds(amount * rate, 10_000);
  }

  /** What is due on a running loan is what remains of its principal, plus interest on that for the whole
      days since funding, plus the penalty for the whole days past the due date, to the unit. */
  lemma QuoteIsExact(s: Protocol, cfg: Config, invoice: Symbol, o: Symbol, payer: Address, now: Timestamp)
    requires Running(s, invoice, o, payer, now) && s.market.fin.offers[o].terms.amount > 0
    ensures CalculateTotalDue(s, cfg, o, now).Ok?
    ensures var offer, due := s.market.fin.offers[o], s.market.reg.invoices[invoice].due;
            var left := offer.terms.amount - Principal(Counted(PaysOf(s, invoice)));
            var days, late := (now - offer.fundedAt) / 86_400, if now > due then (now - due) / 86_400 else 0;
            Quoted(cfg, offer.terms, left, days, late, CalculateTotalDue(s, cfg, o, now).value)
  {
    hide Interest, Penalty, Principal, Counted, Quoted;
    OwedIsPositive(s, cfg, invoice, o, payer, now);
    var offer := s.market.fin.offers[o];
    PartsOwed(cfg, offer, Remaining(offer, PaysOf(s, invoice)), s.market.reg.invoices[invoice].due, now);
  }

  lemma PartsOwed(cfg: Config, offer: Offer, left: int, due: Timestamp, now: Timestamp)
    requires offer.terms.amount > 0 && left > 0 && now >= offer.fundedAt
    ensures var days, late := (now - offer.fundedAt) / 86_400, if now > due then (now - due) / 86_400 else 0;
            Quoted(cfg, offer.terms, left, days, late,
                   left + Interest(offer, left, now) + Penalty(cfg, offer, due, now))
  {
    hide ProRataInterest, AccruedPenalty, FlatYield;
    var days, late := (now - offer.fundedAt) / 86_400, if now > due then (now - due) / 86_400 else 0;
    var flat := FlatYield(offer.terms.amount, offer.terms.rate);
    InterestIsExact(left, offer.terms.rate, days);
    FlatYieldIsExact(offer.terms.amount, offer.terms.rate);
    PenaltyIsExact(offer.terms.amount + flat, due, cfg.penaltyBps, cfg.capBps, now);
    var interest, penalty := Interest(offer, left, now), Penalty(cfg, offer, due, now);
    hide IsShare, Quoted;
    AddsUp(cfg, offer.terms, left, days, late, left + interest + penalty, interest, flat, penalty);
  }

  lemma AddsUp(cfg: Config, t: Terms, left: int, days: nat, late: nat, quote: int, interest: int, flat: int,
               penalty: int)
    requires quote == left + interest + penalty
    requires IsShare(interest, Min(left * t.rate * days, LARGEST), 3_650_000)
    requires IsShare(flat, t.amount * t.rate, 10_000)
    requires IsShare(penalty,
                     Min(Min((t.amount + flat) * cfg.penaltyBps * late, (t.amount + flat) * cfg.capBps), LARGEST),
                       10_000)
    ensures Quoted(cfg, t, left, days, late, quote)
  {
    assert Adds(cfg, t, left, days, late, quote, interest, flat, penalty);
  }

  /** A loan that is not overdue is quoted without a penalty. */
  lemma PunctualLoan(cfg: Config, t: Terms, left: int, days: nat, quote: int)
    requires t.amount > 0 && Quoted(cfg, t, left, days, 0, quote)
    ensures IsShare(quote - left, Min(left * t.rate * days, LARGEST), 3_650_000)
  {
    var interest, flat, penalty :| Adds(cfg, t, left, days, 0, quote, interest, flat, penalty);
    assert t.amount * t.rate >= 0;
    BelowZero(flat, 10_000);
    NoPenalty(t.amount + flat, cfg.penaltyBps, cfg.capBps, 0);
  }

  lemma BelowZero(x: int, d: int)
    requires d > 0
    ensures x < 0 ==> x * d + d <= 0
  {
    ScalesApart(0, x, d);
  }

  /** The protocol's fee is its share of the payment, a payment is dust below one per cent of the principal,
      and what is insured is principal and flat yield less what the offer counts as repaid. */
  lemma SharesOfALoan(cfg: Config, offer: Offer, amount: int)
    requires amount >= 0 && offer.terms.amount > 0
    ensures IsShare(Fee(cfg, amount), amount * cfg.feeBps, 10_000)
    ensures IsShare(MinPartial(offer), offer.terms.amount, 100)
    ensures exists flat :: IsShare(flat, offer.terms.amount * offer.terms.rate, 10_000)
                           && Exposure(offer) == Max(offer.terms.amount + flat - offer.amountRepaid, 0)
  {
    assert amount * cfg.feeBps >= 0;
    Rounds(amount * cfg.feeBps, 10_000);
    Rounds(offer.terms.amount * 100, 10_000);
    FlatYieldIsExact(offer.terms.amount, offer.terms.rate);
    hide TruncDiv;
  }
}
