/** The insurance contract as deployed: its storage, and the entry points proved against their
    specification as atomic steps. */
module Insurance {
  import opened Base
  import opened Ledger
  import opened ProRata
  import FlatPool
  import TierPools
  import Steps = InsuranceSteps

  /** A transaction either reaches the specified state or reverts: same error, nothing changed. */
  ghost predicate Commits<T>(before: Steps.Insurance, after: Steps.Insurance, r: Result<T>,
                             spec: Result<(Steps.Insurance, T)>) {
    match spec
    case Ok((s, v)) => after == s && r == Ok(v)
    case Err(e) => after == before && r == Err(e)
  }

  ghost function Silent(spec: Result<Steps.Insurance>): Result<(Steps.Insurance, ())> {
    match spec case Ok(s) => Ok((s, ())) case Err(e) => Err(e)
  }

  class Contract {
    var book: FlatPool.Book
    var clock: FlatPool.Clock
    var tierBook: TierPools.Book
    var tierClock: TierPools.Clock
    var wallets: map<Address, int>   // the staking token's balances

    function Flat(): FlatPool.Flat
      reads this
    {
      FlatPool.Flat(book, clock)
    }

    function Tiers(): TierPools.Tiers
      reads this
    {
      TierPools.Tiers(tierBook, tierClock)
    }

    function State(): Steps.Insurance
      reads this
    {
      Steps.Insurance(Flat(), Tiers(), wallets)
    }

    constructor (wallets: map<Address, int>)
      ensures State() == Steps.Empty(wallets)
    {
      book, clock := FlatPool.Book(map[], 0, 0, map[], map[]), FlatPool.Clock(map[], map[], 0);
      tierBook, tierClock := TierPools.Book(map[], map[], map[], map[]), TierPools.Clock(map[], map[]);
      this.wallets := wallets;
    }

    /** Bank the yield a staker has earned since its checkpoint and restart the clock. */
    method BankAccruedYield(staker: Address, now: Timestamp)
      modifies this`clock
      ensures clock == FlatPool.Bank(old(Flat()), staker, now)
    {
      var principal := GetOr(book.stakes, staker, 0);
      if principal == 0 { return; }
      var elapsed := SaturatingSub(now, GetOr(clock.since, staker, now));
      var earned := FlatPool.ComputeYield(principal, clock.rate, elapsed);
      if earned > 0 {
        clock := clock.(banked := clock.banked[staker := GetOr(clock.banked, staker, 0) + earned]);
      }
      clock := clock.(since := clock.since[staker := now]);
    }

    method SetYieldRate(rate: nat, now: Timestamp)
      modifies this
      ensures State() == Steps.SetYieldRate(old(State()), rate, now)
    {
      hide FlatPool.Bank, FlatPool.Checkpointed, FlatPool.Credited;
      var keys := FlatPool.Keys(book);
      ghost var was := Flat();
      FlatPool.BankNobody(was, now);
      assert Elements(keys[..0]) == {};
      for i := 0 to |keys|
        invariant clock == FlatPool.BankAll(was, Elements(keys[..i]), now).clock
        invariant book == was.book && Tiers() == old(Tiers()) && wallets == old(wallets)
      {
        assert keys[i] !in keys[..i];
        FlatPool.BankAllStep(was, Elements(keys[..i]), keys[i], now);
        assert Flat() == FlatPool.BankAll(was, Elements(keys[..i]), now);
        assert Elements(keys[..i + 1]) == Elements(keys[..i]) + {keys[i]};
        BankAccruedYield(keys[i], now);
      }
      assert Elements(keys[..|keys|]) == book.stakes.Keys;
      clock := clock.(rate := rate);
    }

    method Stake(staker: Steps.Party, amount: int, now: Timestamp) returns (r: Result<()>)
      modifies this
      ensures Commits(old(State()), State(), r, Silent(Steps.Stake(old(State()), staker, amount, now)))
    {
      hide FlatPool.Earned, FlatPool.Bank, Steps.Transfer;
      if amount <= 0 { return Err(InvalidInput); }
      var existing := GetOr(book.stakes, staker, 0);
      if existing + amount < FlatPool.MIN_STAKE_AMOUNT { return Err(InvalidInput); }
      var moved := Steps.Transfer(wallets, staker, Steps.POOL, amount);
      if moved == None { return Err(Trap); }
      wallets := moved.value;
      if existing > 0 {
        BankAccruedYield(staker, now);
      } else {
        clock := clock.(since := clock.since[staker := now]);
      }
      book := book.(stakes := book.stakes[staker := existing + amount]);
      book := book.(total := book.total + amount);
      return Ok(());
    }

    method Unstake(staker: Steps.Party, amount: int, now: Timestamp) returns (r: Result<()>)
      modifies this
      ensures Commits(old(State()), State(), r, Silent(Steps.Unstake(old(State()), staker, amount, now)))
    {
      hide FlatPool.Earned, FlatPool.Bank, Steps.Withdraw;
      if amount <= 0 { return Err(InvalidInput); }
      var balance := GetOr(book.stakes, staker, 0);
      if balance < amount { return Err(InsufficientBalance); }
      var was := clock;
      BankAccruedYield(staker, now);
      var moved := Steps.Withdraw(wallets, staker, amount, GetOr(clock.banked, staker, 0));
      if moved == None {
        clock := was;
        return Err(Trap);
      }
      wallets := moved.value;
      if balance - amount == 0 {
        book := book.(stakes := book.stakes - {staker});
        clock := clock.(since := clock.since - {staker}, banked := clock.banked - {staker});
      } else {
        book := book.(stakes := book.stakes[staker := balance - amount]);
        clock := clock.(banked := clock.banked[staker := 0]);
      }
      book := book.(total := book.total - amount);
      return Ok(());
    }

    method PayOut(defaulted: bool, beneficiary: Steps.Party, amount: int) returns (r: Result<int>)
      modifies this
      ensures Commits(old(State()), State(), r, Steps.PayOut(old(State()), defaulted, beneficiary, amount))
    {
      hide AfterPayout, Steps.Transfer;
      if amount <= 0 { return Err(InvalidInput); }
      if !defaulted { return Err(InvalidTransition); }
      var payout := Min(amount, book.total);
      if payout <= 0 { return Ok(0); }
      var moved := Steps.Transfer(wallets, Steps.POOL, beneficiary, payout);
      if moved == None { return Err(Trap); }
      var left, _ := AllocateLoss(book.stakes, FlatPool.Keys(book), payout, book.total);
      book := book.(stakes := left);
      book := book.(total := book.total - payout);
      wallets := moved.value;
      return Ok(payout);
    }

    method ReservePayout(offer: Symbol, amount: int) returns (r: Result<int>)
      modifies this
      ensures Commits(old(State()), State(), r, Steps.ReservePayout(old(State()), offer, amount))
    {
      if amount <= 0 { return Err(InvalidInput); }
      var reserve := Min(amount, book.total - book.outstanding);
      if reserve <= 0 { return Ok(0); }
      book := book.(reserved := book.reserved[offer := GetOr(book.reserved, offer, 0) + reserve]);
      book := book.(outstanding := book.outstanding + reserve);
      return Ok(reserve);
    }

    method ClaimPayout(offer: Symbol, lender: Steps.Party, amount: int) returns (r: Result<Steps.Receipt>)
      modifies this
      ensures Commits(old(State()), State(), r, Steps.ClaimPayout(old(State()), offer, lender, amount))
    {
      hide AfterPayout, Steps.Transfer, FlatPool.Keys;
      if amount <= 0 { return Err(InvalidInput); }
      var alreadyPaid := GetOr(book.paid, offer, 0);
      var remaining := GetOr(book.reserved, offer, 0) - alreadyPaid;
      if remaining <= 0 { return Err(InsufficientBalance); }
      var claim := Min(amount, remaining);
      var payout := Min(claim, book.total - (book.outstanding - remaining));
      if payout <= 0 { return Ok(Steps.Receipt(0, remaining)); }
      if book.total <= 0 { return Err(Trap); }
      var moved := Steps.Transfer(wallets, Steps.POOL, lender, payout);
      if moved == None { return Err(Trap); }
      var keys := FlatPool.Keys(book);
      book := book.(paid := book.paid[offer := alreadyPaid + payout], outstanding := book.outstanding - payout);
      var left, _ := AllocateLoss(book.stakes, keys, payout, book.total);
      book := book.(stakes := left);
      book := book.(total := book.total - payout);
      wallets := moved.value;
      return Ok(Steps.Receipt(payout, remaining - payout));
    }

    method BankTierYield(k: TierPools.TierKey, now: Timestamp)
      modifies this`tierClock
      ensures tierClock == TierPools.Bank(old(Tiers()), k, now)
    {
      var elapsed := SaturatingSub(now, GetOr(tierClock.since, k, now));
      var pool := TierPools.PoolOf(tierBook, k.tier);
      var earned := TierPools.TierYield(GetOr(tierBook.stakes, k, 0), pool.apy, elapsed);
      if earned > 0 {
        tierClock := tierClock.(banked := tierClock.banked[k := GetOr(tierClock.banked, k, 0) + earned]);
      }
      tierClock := tierClock.(since := tierClock.since[k := now]);
    }

    method StakeTier(staker: Steps.Party, tier: TierPools.Tier, amount: int, now: Timestamp) returns (r: Result<()>)
      modifies this
      ensures Commits(old(State()), State(), r, Silent(Steps.StakeTier(old(State()), staker, tier, amount, now)))
    {
      hide TierPools.Earned, TierPools.Bank, TierPools.Apy, TierPools.Cap, Steps.Transfer;
      if amount <= 0 { return Err(InvalidInput); }
      var k := TierPools.TierKey(staker, tier);
      var existing := GetOr(tierBook.stakes, k, 0);
      if existing + amount < FlatPool.MIN_STAKE_AMOUNT { return Err(InvalidInput); }
      var moved := Steps.Transfer(wallets, staker, Steps.POOL, amount);
      if moved == None { return Err(Trap); }
      wallets := moved.value;
      CreditTier(k, amount, now);
      return Ok(());
    }

    /** Bank or start the clock, then add to stake and pool. */
    method CreditTier(k: TierPools.TierKey, amount: int, now: Timestamp)
      modifies this`tierClock, this`tierBook
      ensures Tiers() == TierPools.Credit(old(Tiers()), k, amount, now)
    {
      hide TierPools.Earned, TierPools.Bank, TierPools.Apy, TierPools.Cap;
      var existing := GetOr(tierBook.stakes, k, 0);
      if existing > 0 {
        BankTierYield(k, now);
      } else {
        tierClock := tierClock.(since := tierClock.since[k := now]);
      }
      var pool := TierPools.PoolOf(tierBook, k.tier);
      tierBook := tierBook.(stakes := tierBook.stakes[k := existing + amount]);
      tierBook := tierBook.(pools := tierBook.pools[k.tier := pool.(balance := pool.balance + amount)]);
    }

    method UnstakeTier(staker: Steps.Party, tier: TierPools.Tier, amount: int, now: Timestamp) returns (r: Result<()>)
      modifies this
      ensures Commits(old(State()), State(), r, Silent(Steps.UnstakeTier(old(State()), staker, tier, amount, now)))
    {
      hide TierPools.Earned, TierPools.Bank, TierPools.Apy, TierPools.Cap, Steps.Withdraw;
      if amount <= 0 { return Err(InvalidInput); }
      var k := TierPools.TierKey(staker, tier);
      var balance := GetOr(tierBook.stakes, k, 0);
      if balance < amount { return Err(InsufficientBalance); }
      var was := tierClock;
      BankTierYield(k, now);
      var moved := Steps.Withdraw(wallets, staker, amount, GetOr(tierClock.banked, k, 0));
      if moved == None {
        tierClock := was;
        return Err(Trap);
      }
      wallets := moved.value;
      var pool := TierPools.PoolOf(tierBook, tier);
      if balance - amount == 0 {
        tierBook := tierBook.(stakes := tierBook.stakes - {k});
        tierClock := tierClock.(since := tierClock.since - {k}, banked := tierClock.banked - {k});
      } else {
        tierBook := tierBook.(stakes := tierBook.stakes[k := balance - amount]);
        tierClock := tierClock.(banked := tierClock.banked[k := 0]);
      }
      tierBook := tierBook.(pools := tierBook.pools[tier := pool.(balance := pool.balance - amount)]);
      return Ok(());
    }

    method PayOutTier(defaulted: bool, tier: TierPools.Tier, beneficiary: Steps.Party, amount: int)
        returns (r: Result<int>)
      modifies this
      ensures Commits(old(State()), State(), r, Steps.PayOutTier(old(State()), defaulted, tier, beneficiary, amount))
    {
      hide AfterPayout, Steps.Transfer, TruncDiv;
      if amount <= 0 { return Err(InvalidInput); }
      if !defaulted { return Err(InvalidTransition); }
      var pool := TierPools.PoolOf(tierBook, tier);
      var payout := Min(TruncDiv(amount * pool.cap, FlatPool.BPS_DENOMINATOR), pool.balance);
      if payout <= 0 { return Ok(0); }
      var left, reductions := AllocateLoss(tierBook.stakes, TierPools.Keys(tierBook, tier), payout, pool.balance);
      if reductions != payout { return Err(InsufficientBalance); }
      var moved := Steps.Transfer(wallets, Steps.POOL, beneficiary, payout);
      if moved == None { return Err(Trap); }
      tierBook := tierBook.(stakes := left);
      tierBook := tierBook.(pools := tierBook.pools[tier := pool.(balance := pool.balance - payout)]);
      wallets := moved.value;
      return Ok(payout);
    }

    method ReservePayoutTier(offer: Symbol, tier: TierPools.Tier, amount: int) returns (r: Result<int>)
      modifies this
      ensures Commits(old(State()), State(), r, Steps.ReservePayoutTier(old(State()), offer, tier, amount))
    {
      hide TruncDiv;
      if amount <= 0 { return Err(InvalidInput); }
      var pool := TierPools.PoolOf(tierBook, tier);
      var k := TierPools.TierKey(offer, tier);
      var already := GetOr(tierBook.reserved, k, 0);
      var cappedTotal := TruncDiv(amount * pool.cap, FlatPool.BPS_DENOMINATOR);
      var reserve := Min(cappedTotal - already, pool.balance - pool.reserved);
      if reserve <= 0 { return Ok(0); }
      tierBook := tierBook.(reserved := tierBook.reserved[k := already + reserve]);
      tierBook := tierBook.(pools := tierBook.pools[tier := pool.(reserved := pool.reserved + reserve)]);
      return Ok(reserve);
    }

    method ClaimPayoutTier(offer: Symbol, tier: TierPools.Tier, lender: Steps.Party, amount: int)
        returns (r: Result<Steps.Receipt>)
      modifies this
      ensures Commits(old(State()), State(), r, Steps.ClaimPayoutTier(old(State()), offer, tier, lender, amount))
    {
      hide AfterPayout, TierPools.Apy, TierPools.Cap, Steps.Transfer, TierPools.Keys;
      if amount <= 0 { return Err(InvalidInput); }
      var k := TierPools.TierKey(offer, tier);
      var paidBefore := GetOr(tierBook.paid, k, 0);
      var remaining := GetOr(tierBook.reserved, k, 0) - paidBefore;
      if remaining <= 0 { return Err(InsufficientBalance); }
      var pool := TierPools.PoolOf(tierBook, tier);
      var payout := Min(Min(amount, remaining), pool.balance);
      if payout <= 0 { return Ok(Steps.Receipt(0, remaining)); }
      var left, reductions := AllocateLoss(tierBook.stakes, TierPools.Keys(tierBook, tier), payout, pool.balance);
      if reductions != payout { return Err(InsufficientBalance); }
      var moved := Steps.Transfer(wallets, Steps.POOL, lender, payout);
      if moved == None { return Err(Trap); }
      ghost var was := tierBook;
      tierBook := tierBook.(stakes := left, paid := tierBook.paid[k := paidBefore + payout]);
      var less := pool.(balance := pool.balance - payout, reserved := pool.reserved - payout);
      tierBook := tierBook.(pools := tierBook.pools[tier := less]);
      assert tierBook.pools == TierPools.Claim(was, k, payout).pools;
      wallets := moved.value;
      return Ok(Steps.Receipt(payout, remaining - payout));
    }
  }
}
