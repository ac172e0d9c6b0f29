/** What a payout does to the yield of those who bear it, and what becomes of yield once its principal
    is gone. */
module YieldLosses {
  import opened Base
  import opened FlatPool
  import opened ProRata
  import opened InsuranceSteps
  import Decay
  import Runs = InsuranceRuns

  /** Exactly when taking m from n leaves its quotient by d, truncated toward zero, as it was. */
  predicate SameQuotient(n: int, m: int, d: int)
    requires d > 0
  {
    if -d < n < d then -d < n - m < d
    else if n >= 0 then 0 <= n % d - m < d
    else 0 <= (-n) % d + m < d
  }

  lemma QuotientAt(n: int, d: int, q: int)
    requires d > 0 && n >= 0 && q >= 0
    ensures n / d == q <==> 0 <= n - q * d < d
  {
    if 0 <= n - q * d < d {
      Decay.UniqueQuotient(n, d, q, n - q * d);
    }
    Euclid(n, d);
  }

  lemma Euclid(n: int, d: int)
    requires d > 0
    ensures n == (n / d) * d + n % d && 0 <= n % d < d
  {
  }

  lemma SameQuotientIff(n: int, m: int, d: int)
    requires d > 0
    ensures TruncDiv(n - m, d) == TruncDiv(n, d) <==> SameQuotient(n, m, d)
  {
    if n >= 0 {
      SameNatural(n, n - m, d);
    } else {
      SameNatural(-n, m - n, d);
    }
  }

  lemma NaturalQuotient(n: int, d: int)
    requires d > 0 && n >= 0
    ensures n < d ==> n / d == 0 && n % d == n
    ensures n >= d ==> n / d >= 1 && n - n % d >= d
  {
    Euclid(n, d);
    if n < d {
      QuotientAt(n, d, 0);
    } else if n / d < 1 {
      QuotientAt(n, d, 0);
    }
  }

  lemma TruncatesTo(k: int, d: int, q: int)
    requires d > 0 && q >= 0
    ensures TruncDiv(k, d) == q <==> if q == 0 then -d < k < d else 0 <= k - q * d < d
  {
    if k >= 0 {
      QuotientAt(k, d, q);
    } else {
      QuotientAt(-k, d, 0);
      assert q > 0 ==> q * d > 0;
    }
  }

  /** The same for a non-negative n against any k. */
  lemma SameNatural(n: int, k: int, d: int)
    requires d > 0 && n >= 0
    ensures TruncDiv(k, d) == n / d <==> if n < d then -d < k < d else 0 <= k - n + n % d < d
  {
    NaturalQuotient(n, d);
    TruncatesTo(k, d, n / d);
    Euclid(n, d);
    hide TruncDiv;
  }

  /** A staker whose principal changes at an instant keeps its accrued yield if and only if the change,
      times the period and the rate, does not cross a whole unit. */
  lemma AccruedAfterLoss(f: Flat, g: Flat, a: Address, now: Timestamp)
    requires g.clock == f.clock
    ensures var e, r, lost := Elapsed(f, a, now), f.clock.rate, StakeOf(f, a) - StakeOf(g, a);
            AccruedYield(g, a, now) == AccruedYield(f, a, now)
            <==> SameQuotient(StakeOf(f, a) * e * r, lost * e * r, YIELD_DENOMINATOR)
  {
    var s, t, e, r := StakeOf(f, a), StakeOf(g, a), Elapsed(f, a, now), f.clock.rate;
    YieldIsQuotient(s, r, e);
    YieldIsQuotient(t, r, e);
    Distribute(s, t, e, r);
    SameQuotientIff(s * e * r, (s - t) * e * r, YIELD_DENOMINATOR);
    hide ComputeYield, SameQuotient;
  }

  lemma YieldIsQuotient(principal: int, rate: nat, elapsed: nat)
    ensures ComputeYield(principal, rate, elapsed) == TruncDiv(principal * elapsed * rate, YIELD_DENOMINATOR)
  {
    if principal == 0 || rate == 0 || elapsed == 0 {
      assert principal * elapsed * rate == 0;
    }
  }

  lemma Distribute(s: int, t: int, e: int, r: int)
    ensures s * e * r - (s - t) * e * r == t * e * r
  {
    assert (s - t) * e == s * e - t * e;
    assert (s * e - t * e) * r == s * e * r - t * e * r;
  }

  /** The loss of the i-th staker in a payout. */
  ghost function LossOf(b: Book, p: int, i: nat): int
    requires b.total > 0 && i < |Keys(b)|
  {
    Cut(Balances(b.stakes, Keys(b)), p, b.total, i)
  }

  lemma PayoutTakesLoss(b: Book, p: int, i: nat)
    requires b.total > 0 && i < |Keys(b)|
    ensures GetOr(FlatPool.PayOut(b, p).stakes, Keys(b)[i], 0) == GetOr(b.stakes, Keys(b)[i], 0) - LossOf(b, p, i)
  {
    hide AfterPayout, Cut;
    AfterPayoutAt(b.stakes, Keys(b), p, b.total);
  }

  /** A default payout banks nobody's yield: the i-th staker keeps what it has accrued if and only if its
      loss does not cross a whole unit of it. */
  lemma PayOutKeepsYieldIff(s: Insurance, beneficiary: Party, amount: int, now: Timestamp, i: nat)
    requires InsuranceSteps.PayOut(s, true, beneficiary, amount).Ok? && PayoutOf(s.flat.book, amount) > 0
    requires i < |Keys(s.flat.book)|
    ensures s.flat.book.total > 0
    ensures var t, a := InsuranceSteps.PayOut(s, true, beneficiary, amount).value.0, Keys(s.flat.book)[i];
            var e, r := Elapsed(s.flat, a, now), s.flat.clock.rate;
            AccruedYield(t.flat, a, now) == AccruedYield(s.flat, a, now)
            <==> SameQuotient(StakeOf(s.flat, a) * e * r,
                              LossOf(s.flat.book, PayoutOf(s.flat.book, amount), i) * e * r,
                              YIELD_DENOMINATOR)
  {
    hide AfterPayout, Cut, AccruedYield, SameQuotient, Transfer;
    var t, a := InsuranceSteps.PayOut(s, true, beneficiary, amount).value.0, Keys(s.flat.book)[i];
    PayoutTakesLoss(s.flat.book, PayoutOf(s.flat.book, amount), i);
    AccruedAfterLoss(s.flat, t.flat, a, now);
  }

  /** And so for a claim on a reservation. */
  lemma ClaimKeepsYieldIff(s: Insurance, offer: Symbol, lender: Party, amount: int, now: Timestamp, i: nat)
    requires ClaimPayout(s, offer, lender, amount).Ok? && ClaimableOf(s.flat.book, offer, amount) > 0
    requires i < |Keys(s.flat.book)|
    ensures s.flat.book.total > 0
    ensures var t, a := ClaimPayout(s, offer, lender, amount).value.0, Keys(s.flat.book)[i];
            var e, r := Elapsed(s.flat, a, now), s.flat.clock.rate;
            AccruedYield(t.flat, a, now) == AccruedYield(s.flat, a, now)
            <==> SameQuotient(StakeOf(s.flat, a) * e * r,
                              LossOf(s.flat.book, ClaimableOf(s.flat.book, offer, amount), i) * e * r,
                              YIELD_DENOMINATOR)
  {
    hide AfterPayout, Cut, AccruedYield, SameQuotient, Transfer;
    var t, a := ClaimPayout(s, offer, lender, amount).value.0, Keys(s.flat.book)[i];
    PayoutTakesLoss(s.flat.book, ClaimableOf(s.flat.book, offer, amount), i);
    AccruedAfterLoss(s.flat, t.flat, a, now);
  }

  /** For a staker that is left with something, the unit is crossed exactly when the lost yield exceeds
      what the accrued yield had beyond whole units. */
  lemma OrdinaryLoss(stake: int, loss: int, elapsed: nat, rate: nat)
    requires 0 <= loss <= stake
    ensures SameQuotient(stake * elapsed * rate, loss * elapsed * rate, YIELD_DENOMINATOR)
       <==> loss * elapsed * rate <= (stake * elapsed * rate) % YIELD_DENOMINATOR
  {
    Ordered(loss, stake, elapsed);
    Ordered(loss * elapsed, stake * elapsed, rate);
    Within(stake * elapsed * rate, loss * elapsed * rate, YIELD_DENOMINATOR);
  }

  lemma Ordered(x: int, y: int, k: nat)
    requires 0 <= x <= y
    ensures 0 <= x * k <= y * k
  {
    assert y * k - x * k == (y - x) * k;
  }

  lemma Within(n: int, m: int, d: int)
    requires d > 0 && 0 <= m <= n
    ensures SameQuotient(n, m, d) <==> m <= n % d
  {
    if n < d { QuotientAt(n, d, 0); }
  }

  // ----- yield without principal -----

  ghost function BankedOf(f: Flat, a: Address): int { GetOr(f.clock.banked, a, 0) }

  /** A withdrawal goes through exactly when it is positive, within the stake, and covered by the tokens
      in custody together with the yield it pays. */
  lemma WithdrawalGoesThroughIff(s: Insurance, a: Party, x: int, now: Timestamp)
    ensures Unstake(s, a, x, now).Ok?
            <==> 0 < x <= StakeOf(s.flat, a) && Runs.Held(s) >= x + Max(Due(s.flat, a, now), 0)
    ensures Unstake(s, a, x, now).Ok? ==>
              GetOr(Unstake(s, a, x, now).value.wallets, a, 0)
                == GetOr(s.wallets, a, 0) + x + Max(Due(s.flat, a, now), 0)
  {
    hide Due, Debit;
    if Unstake(s, a, x, now).Ok? {
      Receives(s.wallets, a, x, Due(s.flat, a, now));
    }
  }

  lemma Receives(m: map<Address, int>, to: Party, amount: int, due: int)
    requires Withdraw(m, to, amount, due).Some?
    ensures GetOr(Withdraw(m, to, amount, due).value, to, 0) == GetOr(m, to, 0) + amount + Max(due, 0)
  {
  }

  /** Banked yield outlives its principal: a staker with nothing left cannot withdraw it, and it becomes
      payable again, to the last unit, with the next stake. */
  lemma StakeRevivesBankedYield(s: Insurance, a: Party, amount: int, now: Timestamp, x: int)
    requires StakeOf(s.flat, a) == 0
    ensures Unstake(s, a, x, now).Err?
    ensures Stake(s, a, amount, now).Ok? ==>
              var t := Stake(s, a, amount, now).value;
              && AccruedYield(t.flat, a, now) == BankedOf(s.flat, a)
              && (Unstake(t, a, x, now).Ok?
                  <==> 0 < x <= amount && Runs.Held(s) + amount >= x + Max(BankedOf(s.flat, a), 0))
              && (Unstake(t, a, x, now).Ok? ==>
                    GetOr(Unstake(t, a, x, now).value.wallets, a, 0)
                      == GetOr(s.wallets, a, 0) - amount + x + Max(BankedOf(s.flat, a), 0))
  {
    WithdrawalGoesThroughIff(s, a, x, now);
    if Stake(s, a, amount, now).Ok? {
      var t := Stake(s, a, amount, now).value;
      WithdrawalGoesThroughIff(t, a, x, now);
      Runs.TransferMoves(s.wallets, a, POOL, amount);
      FreshStake(s.flat, a, amount, now);
      hide Unstake, Transfer, Credit, Due, AccruedYield;
    }
  }

  lemma FreshStake(f: Flat, a: Address, amount: int, now: Timestamp)
    requires StakeOf(f, a) == 0 && amount > 0
    ensures var g := Credit(f, a, amount, now);
            && StakeOf(g, a) == amount
            && AccruedYield(g, a, now) == BankedOf(f, a) && Due(g, a, now) == BankedOf(f, a)
  {
  }

  /** A payout of the whole pool: everybody is left with the yield banked so far and no stake. */
  lemma FullPayoutStrandsYield(s: Insurance, beneficiary: Party, amount: int, now: Timestamp, a: Party, x: int)
    requires Healthy(s.flat.book) && amount >= s.flat.book.total
             && InsuranceSteps.PayOut(s, true, beneficiary, amount).Ok?
    ensures var (t, paid) := InsuranceSteps.PayOut(s, true, beneficiary, amount).value;
            && paid == s.flat.book.total
            && StakeOf(t.flat, a) == 0
            && AccruedYield(t.flat, a, now) == BankedOf(s.flat, a)
            && Unstake(t, a, x, now).Err?
  {
    hide AfterPayout, Books, Withdraw;
    FullPayoutClearsThePool(s.flat.book);
  }
}
