/** What each call of the insurance contract takes, gives and locks, and when it goes through. */
module PoolCalls {
  import opened Base
  import opened ProRata
  import opened InsuranceSteps
  import FlatPool
  import TierPools
  import Runs = InsuranceRuns

  ghost function Held(s: Insurance): int { GetOr(s.wallets, POOL, 0) }

  /** Tokens move from one account to another, and nowhere else. */
  ghost predicate Moves(s: Insurance, t: Insurance, from: Address, to: Address, amount: int) {
    && from != to
    && forall a :: GetOr(t.wallets, a, 0)
                   == GetOr(s.wallets, a, 0) + (if a == to then amount else 0) - (if a == from then amount else 0)
  }

  lemma TransferIff(m: map<Address, int>, from: Address, to: Address, amount: int)
    requires from != to
    ensures Transfer(m, from, to, amount).Some? <==> 0 <= amount <= GetOr(m, from, 0)
    ensures Transfer(m, from, to, amount).Some? ==>
              forall a :: GetOr(Transfer(m, from, to, amount).value, a, 0)
                          == GetOr(m, a, 0) + (if a == to then amount else 0) - (if a == from then amount else 0)
  {
  }

  // ----- stakes -----

  /** A stake goes through exactly when it is positive, leaves at least a million staked, and the staker can
      pay it. It moves from the staker to the pool and onto its stake, and no other stake moves. */
  lemma StakeCommitsIff(s: Insurance, a: Party, amount: int, now: Timestamp)
    ensures var r := Stake(s, a, amount, now); var before := FlatPool.StakeOf(s.flat, a);
            && (r.Ok? <==> amount > 0 && before + amount >= 1_000_000 && amount <= GetOr(s.wallets, a, 0))
            && (r.Ok? ==>
                  && Moves(s, r.value, a, POOL, amount)
                  && FlatPool.StakeOf(r.value.flat, a) == before + amount
                  && r.value.flat.book.total == s.flat.book.total + amount
                  && (forall b :: b != a ==> FlatPool.StakeOf(r.value.flat, b) == FlatPool.StakeOf(s.flat, b))
                  && r.value.tiers == s.tiers)
  {
    TransferIff(s.wallets, a, POOL, amount);
    hide Transfer, FlatPool.Bank;
  }

  /** The same in a tier. */
  lemma StakeTierCommitsIff(s: Insurance, a: Party, tier: TierPools.Tier, amount: int, now: Timestamp)
    ensures var k := TierPools.TierKey(a, tier);
            var r := StakeTier(s, a, tier, amount, now); var before := TierPools.StakeOf(s.tiers, k);
            && (r.Ok? <==> amount > 0 && before + amount >= 1_000_000 && amount <= GetOr(s.wallets, a, 0))
            && (r.Ok? ==>
                  && Moves(s, r.value, a, POOL, amount)
                  && TierPools.StakeOf(r.value.tiers, k) == before + amount
                  && (forall j :: j != k ==> TierPools.StakeOf(r.value.tiers, j) == TierPools.StakeOf(s.tiers, j))
                  && r.value.flat == s.flat)
  {
    TransferIff(s.wallets, a, POOL, amount);
    hide Transfer, TierPools.Bank;
  }

  /** A withdrawal takes exactly the amount off the staker's own stake, and leaves it without yield to
      withdraw; what it pays out is `YieldLosses.WithdrawalGoesThroughIff`. */
  lemma UnstakeSettles(s: Insurance, a: Party, x: int, now: Timestamp)
    requires Unstake(s, a, x, now).Ok?
    ensures var t := Unstake(s, a, x, now).value;
            && FlatPool.StakeOf(t.flat, a) == FlatPool.StakeOf(s.flat, a) - x
            && FlatPool.AccruedYield(t.flat, a, now) == 0
            && t.flat.book.total == s.flat.book.total - x
            && (forall b :: b != a ==> FlatPool.StakeOf(t.flat, b) == FlatPool.StakeOf(s.flat, b)
                                       && FlatPool.AccruedYield(t.flat, b, now)
                                          == FlatPool.AccruedYield(s.flat, b, now))
            && t.tiers == s.tiers
  {
    hide Withdraw;
  }

  // ----- the flat pool -----

  /** A default payout goes through exactly when the invoice has defaulted, the request is positive and the
      tokens are there. It pays the beneficiary the request as far as the pool goes. */
  lemma PayOutCommitsIff(s: Insurance, defaulted: bool, a: Party, amount: int)
    ensures var r := PayOut(s, defaulted, a, amount); var p := Max(Min(amount, s.flat.book.total), 0);
            && (r.Ok? <==> amount > 0 && defaulted && (p == 0 || p <= Held(s)))
            && (r.Ok? ==>
                  && r.value.1 == p && Moves(s, r.value.0, POOL, a, p)
                  && r.value.0.flat.book.total == s.flat.book.total - p
                  && r.value.0.flat.book.outstanding == s.flat.book.outstanding
                  && r.value.0.tiers == s.tiers)
  {
    var p := Max(Min(amount, s.flat.book.total), 0);
    TransferIff(s.wallets, POOL, a, p);
    hide Transfer, AfterPayout;
  }

  /** A reservation locks the request as far as the pool is not locked yet, for its own offer. */
  lemma ReserveLocks(s: Insurance, offer: Symbol, amount: int)
    ensures var r := ReservePayout(s, offer, amount);
            var locked := Max(Min(amount, s.flat.book.total - s.flat.book.outstanding), 0);
            && (r.Ok? <==> amount > 0)
            && (r.Ok? ==>
                  var b := r.value.0.flat.book;
                  && r.value.1 == locked
                  && FlatPool.RemainingOf(b, offer) == FlatPool.RemainingOf(s.flat.book, offer) + locked
                  && b.outstanding == s.flat.book.outstanding + locked
                  && (forall o :: o != offer ==> FlatPool.RemainingOf(b, o) == FlatPool.RemainingOf(s.flat.book, o))
                  && b.stakes == s.flat.book.stakes && b.total == s.flat.book.total
                  && r.value.0.flat.clock == s.flat.clock
                  && r.value.0.wallets == s.wallets && r.value.0.tiers == s.tiers)
  {
  }

  /** A claim goes through exactly when something is locked for its offer, the request is positive and the
      tokens are there. It pays the lender the request, as far as what is locked for its offer goes, and as
      far as the pool goes after what is locked for others. */
  lemma ClaimCommitsIff(s: Insurance, offer: Symbol, lender: Party, amount: int)
    requires FlatPool.Books(s.flat.book)
    ensures var b := s.flat.book; var left := FlatPool.RemainingOf(b, offer);
            var r := ClaimPayout(s, offer, lender, amount);
            var p := Max(Min(Min(amount, left), b.total - (b.outstanding - left)), 0);
            && (r.Ok? <==> amount > 0 && left > 0 && (p == 0 || p <= Held(s)))
            && (r.Ok? ==>
                  && r.value.1 == Receipt(p, left - p) && Moves(s, r.value.0, POOL, lender, p)
                  && FlatPool.RemainingOf(r.value.0.flat.book, offer) == left - p
                  && r.value.0.flat.book.outstanding == b.outstanding - p
                  && r.value.0.flat.book.total == b.total - p
                  && r.value.0.tiers == s.tiers)
  {
    FlatPool.OthersOutstanding(s.flat.book, offer);
    TransferIff(s.wallets, POOL, lender, Max(FlatPool.ClaimableOf(s.flat.book, offer, amount), 0));
    hide Transfer, FlatPool.Books;
  }

  // ----- the tiers -----

  /** The share of a request that a tier covers, in basis points. */
  ghost function Coverage(tier: TierPools.Tier): nat {
    match tier case Conservative => 5_000 case Balanced => 7_500 case Aggressive => 10_000
  }

  lemma CoveredIsShare(b: TierPools.Book, tier: TierPools.Tier, amount: int)
    requires TierPools.TierBooks(b, tier) && amount > 0
    ensures IsShare(TierPools.Covered(b, tier, amount), amount * Coverage(tier), 10_000)
  {
    hide TierPools.OfTier;
    Rounds(amount * Coverage(tier), 10_000);
  }

  /** A tier payout goes through exactly when the invoice has defaulted, the request is positive and the
      tokens are there. It pays the tier's share of the request, as far as the tier goes. */
  lemma PayOutTierCommitsIff(s: Insurance, defaulted: bool, tier: TierPools.Tier, a: Party, amount: int)
    requires TierPools.TierBooks(s.tiers.book, tier)
    ensures var r := PayOutTier(s, defaulted, tier, a, amount);
            var share := TierPools.Covered(s.tiers.book, tier, amount);
            var balance := TierPools.PoolOf(s.tiers.book, tier).balance;
            var p := Max(Min(share, balance), 0);
            && (amount > 0 ==> IsShare(share, amount * Coverage(tier), 10_000))
            && (r.Ok? <==> amount > 0 && defaulted && (p == 0 || p <= Held(s)))
            && (r.Ok? ==>
                  && r.value.1 == p && r.value.1 * 10_000 <= amount * Coverage(tier)
                  && Moves(s, r.value.0, POOL, a, p)
                  && TierPools.PoolOf(r.value.0.tiers.book, tier).balance == balance - p
                  && r.value.0.flat == s.flat)
  {
    if amount > 0 { CoveredIsShare(s.tiers.book, tier, amount); Positive(amount, Coverage(tier)); }
    var p := TierPools.PayoutOf(s.tiers.book, tier, amount);
    TransferIff(s.wallets, POOL, a, Max(p, 0));
    if |TierPools.Keys(s.tiers.book, tier)| == 0 {
      TierPools.FundedTierHasStakers(s.tiers.book, tier);
    }
    hide Transfer, TierPools.Covered, TierPools.TierBooks, AfterPayout;
  }

  lemma Positive(x: int, y: int)
    requires x > 0 && y > 0
    ensures x * y > 0
  {
  }

  /** A tier reservation locks what the tier's share of the request has over what is locked already, as far
      as the tier is not locked yet. */
  lemma ReserveTierLocks(s: Insurance, offer: Symbol, tier: TierPools.Tier, amount: int)
    requires TierPools.TierBooks(s.tiers.book, tier)
    ensures var k := TierPools.TierKey(offer, tier);
            var (b, pool) := (s.tiers.book, TierPools.PoolOf(s.tiers.book, tier));
            var share := TierPools.Covered(b, tier, amount);
            var locked := Max(Min(share - GetOr(b.reserved, k, 0), pool.balance - pool.reserved), 0);
            var r := ReservePayoutTier(s, offer, tier, amount);
            && (amount > 0 ==> IsShare(share, amount * Coverage(tier), 10_000))
            && (r.Ok? <==> amount > 0)
            && (r.Ok? ==>
                  var g := r.value.0.tiers.book;
                  && r.value.1 == locked
                  && TierPools.RemainingOf(g, k) == TierPools.RemainingOf(b, k) + locked
                  && TierPools.PoolOf(g, tier) == pool.(reserved := pool.reserved + locked)
                  && g.stakes == b.stakes
                  && r.value.0.wallets == s.wallets && r.value.0.flat == s.flat
                     && r.value.0.tiers.clock == s.tiers.clock)
  {
    if amount > 0 { CoveredIsShare(s.tiers.book, tier, amount); }
    hide TierPools.Covered, TierPools.TierBooks;
  }

  /** A tier claim goes through exactly when something is locked for its offer, the request is positive and
      the tokens are there. It pays the request, as far as what is locked for its offer and the tier go. */
  lemma ClaimTierCommitsIff(s: Insurance, offer: Symbol, tier: TierPools.Tier, lender: Party, amount: int)
    requires TierPools.TierBooks(s.tiers.book, tier)
    ensures var k := TierPools.TierKey(offer, tier);
            var (b, pool) := (s.tiers.book, TierPools.PoolOf(s.tiers.book, tier));
            var left := TierPools.RemainingOf(b, k);
            var p := Max(Min(Min(amount, left), pool.balance), 0);
            var r := ClaimPayoutTier(s, offer, tier, lender, amount);
            && (r.Ok? <==> amount > 0 && left > 0 && (p == 0 || p <= Held(s)))
            && (r.Ok? ==>
                  && r.value.1 == Receipt(p, left - p) && Moves(s, r.value.0, POOL, lender, p)
                  && TierPools.RemainingOf(r.value.0.tiers.book, k) == left - p
                  && TierPools.PoolOf(r.value.0.tiers.book, tier)
                     == pool.(balance := pool.balance - p, reserved := pool.reserved - p)
                  && r.value.0.flat == s.flat)
  {
    hide TierPools.OfTier, TierPools.Apy, TierPools.Cap;
    var k := TierPools.TierKey(offer, tier);
    TransferIff(s.wallets, POOL, lender, Max(TierPools.ClaimableOf(s.tiers.book, k, amount), 0));
    if |TierPools.Keys(s.tiers.book, tier)| == 0 {
      TierPools.FundedTierHasStakers(s.tiers.book, tier);
    }
    hide Transfer, TierPools.TierBooks, AfterPayout, TierPools.Keys;
  }

  // ----- refusals -----

  /** The amount a call names, where it names one. */
  ghost function AmountOf(op: Runs.Op): int {
    match op
    case Tick(_) => 1
    case DoSetYieldRate(_) => 1
    case _ => op.amount
  }

  /** A refused call is told why, truthfully: a request that is not positive or leaves too small a stake;
      more than is staked or locked; no default; or tokens that are not there. */
  lemma RefusalsTell(w: Runs.World, op: Runs.Op)
    requires Runs.Inv(w) && Runs.Apply(w.ins, op, w.now).Err?
    ensures var s := w.ins;
            match Runs.Apply(s, op, w.now).error
            case InvalidInput =>
              || AmountOf(op) <= 0
              || (op.DoStake? && FlatPool.StakeOf(s.flat, op.staker) + op.amount < 1_000_000)
              || (op.DoStakeTier?
                  && TierPools.StakeOf(s.tiers, TierPools.TierKey(op.staker, op.tier)) + op.amount < 1_000_000)
            case InsufficientBalance =>
              || (op.DoUnstake? && op.amount > FlatPool.StakeOf(s.flat, op.staker))
              || (op.DoUnstakeTier? && op.amount > TierPools.StakeOf(s.tiers, TierPools.TierKey(op.staker, op.tier)))
              || (op.DoClaim? && FlatPool.RemainingOf(s.flat.book, op.offer) <= 0)
              || (op.DoClaimTier? && TierPools.RemainingOf(s.tiers.book, TierPools.TierKey(op.offer, op.tier)) <= 0)
            case InvalidTransition => (op.DoPayOut? || op.DoPayOutTier?) && !op.defaulted
            case Trap => !op.Tick? && !op.DoSetYieldRate? && !op.DoReserve? && !op.DoReserveTier?
            case _ => false
  {
    hide TierPools.Books, FlatPool.Books, AfterPayout, Transfer, Withdraw, TierPools.Covered;
    if op.DoPayOutTier? {
      Runs.TierGuardsUnreachable(w, op.defaulted, 0, op.tier, op.beneficiary, op.amount);
    } else if op.DoClaimTier? {
      Runs.TierGuardsUnreachable(w, true, op.offer, op.tier, op.lender, op.amount);
    }
  }
}
