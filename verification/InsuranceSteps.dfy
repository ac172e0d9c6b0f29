/** The entry points of the insurance contract, each specified as an atomic step over the flat pool,
    the tier pools and the staking token's balances. */
module InsuranceSteps {
  import opened Base
  import FlatPool
  import TierPools

  /** The contract's own address; it never signs as a staker or a lender. */
  const POOL: Address := 0

  type Party = a: Address | a != POOL witness 1

  datatype Insurance = Insurance(flat: FlatPool.Flat, tiers: TierPools.Tiers, wallets: map<Address, int>)

  /** A payout's amount and what remains reserved afterwards. */
  datatype Receipt = Receipt(paid: int, remaining: int)

  /** A token transfer; None when the sender is short of funds. */
  function Transfer(wallets: map<Address, int>, from: Address, to: Address, amount: int): Option<map<Address, int>> {
    if amount < 0 || GetOr(wallets, from, 0) < amount then None
    else
      var debited := wallets[from := GetOr(wallets, from, 0) - amount];
      Some(debited[to := GetOr(debited, to, 0) + amount])
  }

  /** A withdrawal pays the principal and then, separately, a positive yield. */
  function Withdraw(wallets: map<Address, int>, to: Address, amount: int, yieldDue: int): Option<map<Address, int>> {
    match Transfer(wallets, POOL, to, amount)
    case None => None
    case Some(w) => if yieldDue > 0 then Transfer(w, POOL, to, yieldDue) else Some(w)
  }

  // ----- the flat pool -----

  function Stake(s: Insurance, staker: Party, amount: int, now: Timestamp): Result<Insurance> {
    if amount <= 0 || FlatPool.StakeOf(s.flat, staker) + amount < FlatPool.MIN_STAKE_AMOUNT then Err(InvalidInput)
    else
      match Transfer(s.wallets, staker, POOL, amount)
      case None => Err(Trap)
      case Some(w) => Ok(s.(flat := FlatPool.Credit(s.flat, staker, amount, now), wallets := w))
  }

  function Unstake(s: Insurance, staker: Party, amount: int, now: Timestamp): Result<Insurance> {
    if amount <= 0 then Err(InvalidInput)
    else if FlatPool.StakeOf(s.flat, staker) < amount then Err(InsufficientBalance)
    else
      match Withdraw(s.wallets, staker, amount, FlatPool.Due(s.flat, staker, now))
      case None => Err(Trap)
      case Some(w) => Ok(s.(flat := FlatPool.Debit(s.flat, staker, amount, now), wallets := w))
  }

  ghost function SetYieldRate(s: Insurance, rate: nat, now: Timestamp): Insurance {
    s.(flat := FlatPool.SetRate(s.flat, rate, now))
  }

  ghost function PayOut(s: Insurance, defaulted: bool, beneficiary: Party, amount: int): Result<(Insurance, int)> {
    if amount <= 0 then Err(InvalidInput)
    else if !defaulted then Err(InvalidTransition)
    else
      var payout := FlatPool.PayoutOf(s.flat.book, amount);
      if payout <= 0 then Ok((s, 0))
      else
        match Transfer(s.wallets, POOL, beneficiary, payout)
        case None => Err(Trap)
        case Some(w) => Ok((s.(flat := s.flat.(book := FlatPool.PayOut(s.flat.book, payout)), wallets := w), payout))
  }

  function ReservePayout(s: Insurance, offer: Symbol, amount: int): Result<(Insurance, int)> {
    if amount <= 0 then Err(InvalidInput)
    else
      var reserve := FlatPool.ReservableOf(s.flat.book, amount);
      if reserve <= 0 then Ok((s, 0))
      else Ok((s.(flat := s.flat.(book := FlatPool.Reserve(s.flat.book, offer, reserve))), reserve))
  }

  /** The share computation divides by the pool size; `NoPayingClaimOnEmptyPool` shows that the
      trap is out of reach. */
  ghost function ClaimPayout(s: Insurance, offer: Symbol, lender: Party, amount: int): Result<(Insurance, Receipt)> {
    var b := s.flat.book;
    var remaining := FlatPool.RemainingOf(b, offer);
    if amount <= 0 then Err(InvalidInput)
    else if remaining <= 0 then Err(InsufficientBalance)
    else
      var payout := FlatPool.ClaimableOf(b, offer, amount);
      if payout <= 0 then Ok((s, Receipt(0, remaining)))
      else if b.total <= 0 then Err(Trap)
      else
        match Transfer(s.wallets, POOL, lender, payout)
        case None => Err(Trap)
        case Some(w) =>
          Ok((s.(flat := s.flat.(book := FlatPool.Claim(b, offer, payout)), wallets := w),
              Receipt(payout, remaining - payout)))
  }

  // ----- the tier pools -----

  function StakeTier(s: Insurance, staker: Party, tier: TierPools.Tier, amount: int,
                     now: Timestamp): Result<Insurance> {
    var k := TierPools.TierKey(staker, tier);
    if amount <= 0 || TierPools.StakeOf(s.tiers, k) + amount < FlatPool.MIN_STAKE_AMOUNT then Err(InvalidInput)
    else
      match Transfer(s.wallets, staker, POOL, amount)
      case None => Err(Trap)
      case Some(w) => Ok(s.(tiers := TierPools.Credit(s.tiers, k, amount, now), wallets := w))
  }

  function UnstakeTier(s: Insurance, staker: Party, tier: TierPools.Tier, amount: int,
                       now: Timestamp): Result<Insurance> {
    var k := TierPools.TierKey(staker, tier);
    if amount <= 0 then Err(InvalidInput)
    else if TierPools.StakeOf(s.tiers, k) < amount then Err(InsufficientBalance)
    else
      match Withdraw(s.wallets, staker, amount, TierPools.Due(s.tiers, k, now))
      case None => Err(Trap)
      case Some(w) => Ok(s.(tiers := TierPools.Debit(s.tiers, k, amount, now), wallets := w))
  }

  ghost function PayOutTier(s: Insurance, defaulted: bool, tier: TierPools.Tier, beneficiary: Party, amount: int)
    : Result<(Insurance, int)>
  {
    if amount <= 0 then Err(InvalidInput)
    else if !defaulted then Err(InvalidTransition)
    else
      var payout := TierPools.PayoutOf(s.tiers.book, tier, amount);
      if payout <= 0 then Ok((s, 0))
      else if |TierPools.Keys(s.tiers.book, tier)| == 0 then Err(InsufficientBalance)
      else
        match Transfer(s.wallets, POOL, beneficiary, payout)
        case None => Err(Trap)
        case Some(w) =>
          Ok((s.(tiers := s.tiers.(book := TierPools.PayOut(s.tiers.book, tier, payout)), wallets := w), payout))
  }

  function ReservePayoutTier(s: Insurance, offer: Symbol, tier: TierPools.Tier, amount: int): Result<(Insurance, int)> {
    var k := TierPools.TierKey(offer, tier);
    if amount <= 0 then Err(InvalidInput)
    else
      var reserve := TierPools.ReservableOf(s.tiers.book, k, amount);
      if reserve <= 0 then Ok((s, 0))
      else Ok((s.(tiers := s.tiers.(book := TierPools.Reserve(s.tiers.book, k, reserve))), reserve))
  }

  ghost function ClaimPayoutTier(s: Insurance, offer: Symbol, tier: TierPools.Tier, lender: Party, amount: int)
    : Result<(Insurance, Receipt)>
  {
    var k := TierPools.TierKey(offer, tier);
    var b := s.tiers.book;
    var remaining := TierPools.RemainingOf(b, k);
    if amount <= 0 then Err(InvalidInput)
    else if remaining <= 0 then Err(InsufficientBalance)
    else
      var payout := TierPools.ClaimableOf(b, k, amount);
      if payout <= 0 then Ok((s, Receipt(0, remaining)))
      else if |TierPools.Keys(b, tier)| == 0 then Err(InsufficientBalance)
      else
        match Transfer(s.wallets, POOL, lender, payout)
        case None => Err(Trap)
        case Some(w) =>
          Ok((s.(tiers := s.tiers.(book := TierPools.Claim(b, k, payout)), wallets := w),
              Receipt(payout, remaining - payout)))
  }

  /** A freshly deployed contract. */
  function Empty(wallets: map<Address, int>): Insurance {
    Insurance(
      FlatPool.Flat(FlatPool.Book(map[], 0, 0, map[], map[]), FlatPool.Clock(map[], map[], 0)),
      TierPools.Tiers(TierPools.Book(map[], map[], map[], map[]), TierPools.Clock(map[], map[])),
      wallets)
  }
}
