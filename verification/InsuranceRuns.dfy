/** What every run of the insurance contract keeps: the books of the flat pool and of each tier, the
    custody of the staking token, and the coverage limits. */
module InsuranceRuns {
  import opened Base
  import opened Ledger
  import opened ProRata
  import opened InsuranceSteps
  import FlatPool
  import TierPools

  datatype Op =
    | Tick(secs: nat)
    | Donate(from: Party, amount: int)
    | DoStake(staker: Party, amount: int)
    | DoUnstake(staker: Party, amount: int)
    | DoSetYieldRate(rate: nat)
    | DoPayOut(defaulted: bool, beneficiary: Party, amount: int)
    | DoReserve(offer: Symbol, amount: int)
    | DoClaim(offer: Symbol, lender: Party, amount: int)
    | DoStakeTier(staker: Party, tier: TierPools.Tier, amount: int)
    | DoUnstakeTier(staker: Party, tier: TierPools.Tier, amount: int)
    | DoPayOutTier(defaulted: bool, tier: TierPools.Tier, beneficiary: Party, amount: int)
    | DoReserveTier(offer: Symbol, tier: TierPools.Tier, amount: int)
    | DoClaimTier(offer: Symbol, tier: TierPools.Tier, lender: Party, amount: int)

  ghost function First<T>(r: Result<(Insurance, T)>): Result<Insurance> {
    match r case Ok(p) => Ok(p.0) case Err(e) => Err(e)
  }

  /** The state a transaction commits, or the error with which it reverts. */
  ghost function Apply(s: Insurance, op: Op, now: Timestamp): Result<Insurance> {
    match op
    case Tick(_) => Ok(s)
    case Donate(from, amount) =>
      (match Transfer(s.wallets, from, POOL, amount) case None => Err(Trap) case Some(w) => Ok(s.(wallets := w)))
    case DoStake(a, amount) => Stake(s, a, amount, now)
    case DoUnstake(a, amount) => Unstake(s, a, amount, now)
    case DoSetYieldRate(rate) => Ok(SetYieldRate(s, rate, now))
    case DoPayOut(d, a, amount) => First(PayOut(s, d, a, amount))
    case DoReserve(o, amount) => First(ReservePayout(s, o, amount))
    case DoClaim(o, a, amount) => First(ClaimPayout(s, o, a, amount))
    case DoStakeTier(a, t, amount) => StakeTier(s, a, t, amount, now)
    case DoUnstakeTier(a, t, amount) => UnstakeTier(s, a, t, amount, now)
    case DoPayOutTier(d, t, a, amount) => First(PayOutTier(s, d, t, a, amount))
    case DoReserveTier(o, t, amount) => First(ReservePayoutTier(s, o, t, amount))
    case DoClaimTier(o, t, a, amount) => First(ClaimPayoutTier(s, o, t, a, amount))
  }

  /** The contract in time, with the history its promises refer to: outside donations, yield paid
      out, and the largest reservation request seen for each (offer, tier). */
  datatype World = World(ins: Insurance, now: Timestamp, donated: int, yieldPaid: int,
                         largest: map<TierPools.TierKey, int>)

  ghost function YieldPaidBy(s: Insurance, op: Op, now: Timestamp): int {
    match op
    case DoUnstake(a, _) => Max(FlatPool.Due(s.flat, a, now), 0)
    case DoUnstakeTier(a, t, _) => Max(TierPools.Due(s.tiers, TierPools.TierKey(a, t), now), 0)
    case _ => 0
  }

  /** The principal a step stakes, less what it withdraws. */
  ghost function Staked(op: Op): int {
    match op
    case DoStake(_, amount) => amount
    case DoUnstake(_, amount) => -amount
    case DoStakeTier(_, _, amount) => amount
    case DoUnstakeTier(_, _, amount) => -amount
    case _ => 0
  }

  /** The tier a step works on. */
  ghost function TierOf(op: Op): Option<TierPools.Tier> {
    match op
    case DoStakeTier(_, t, _) => Some(t)
    case DoUnstakeTier(_, t, _) => Some(t)
    case DoPayOutTier(_, t, _, _) => Some(t)
    case DoReserveTier(_, t, _) => Some(t)
    case DoClaimTier(_, t, _, _) => Some(t)
    case _ => None
  }

  ghost function Largest(m: map<TierPools.TierKey, int>, op: Op): map<TierPools.TierKey, int> {
    match op
    case DoReserveTier(o, t, amount) =>
      var k := TierPools.TierKey(o, t);
      m[k := Max(GetOr(m, k, 0), amount)]
    case _ => m
  }

  ghost function Step(w: World, op: Op): World {
    match Apply(w.ins, op, w.now)
    case Err(_) => w
    case Ok(s) =>
      World(s,
            if op.Tick? then SaturatingAdd(w.now, op.secs) else w.now,
            w.donated + if op.Donate? then op.amount else 0,
            w.yieldPaid + YieldPaidBy(w.ins, op, w.now),
            Largest(w.largest, op))
  }

  ghost function Run(w: World, ops: seq<Op>): World
    decreases |ops|
  {
    if ops == [] then w else Run(Step(w, ops[0]), ops[1..])
  }

  ghost function TierFunds(b: TierPools.Book): int {
    TierPools.PoolOf(b, TierPools.Conservative).balance + TierPools.PoolOf(b, TierPools.Balanced).balance
    + TierPools.PoolOf(b, TierPools.Aggressive).balance
  }

  /** Tokens in custody. */
  ghost function Held(s: Insurance): int { GetOr(s.wallets, POOL, 0) }

  /** Principal owed to stakers, by the flat pool and the tiers. */
  ghost function Principal(s: Insurance): int { s.flat.book.total + TierFunds(s.tiers.book) }

  ghost predicate Custody(w: World) {
    Held(w.ins) == Principal(w.ins) + w.donated - w.yieldPaid
  }

  /** No (offer, tier) has reserved more than the tier's coverage share of its largest request. */
  ghost predicate CoverageLimit(w: World) {
    forall k :: k in w.ins.tiers.book.reserved ==>
      w.ins.tiers.book.reserved[k] * FlatPool.BPS_DENOMINATOR <= GetOr(w.largest, k, 0) * TierPools.Cap(k.tier)
  }

  ghost predicate Inv(w: World) {
    && FlatPool.Books(w.ins.flat.book)
    && TierPools.Books(w.ins.tiers.book)
    && Custody(w)
    && CoverageLimit(w)
  }

  // ----- the token -----

  lemma TransferMoves(m: map<Address, int>, from: Address, to: Address, amount: int)
    requires from != to && Transfer(m, from, to, amount).Some?
    ensures var n := Transfer(m, from, to, amount).value;
            && GetOr(n, from, 0) == GetOr(m, from, 0) - amount
            && GetOr(n, to, 0) == GetOr(m, to, 0) + amount
            && (forall a :: a != from && a != to ==> GetOr(n, a, 0) == GetOr(m, a, 0))
            && Total(n) == Total(m)
  {
    var debited := m[from := GetOr(m, from, 0) - amount];
    TotalSet(m, from, GetOr(m, from, 0) - amount);
    TotalSet(debited, to, GetOr(debited, to, 0) + amount);
  }

  lemma WithdrawMoves(m: map<Address, int>, to: Party, amount: int, due: int)
    requires Withdraw(m, to, amount, due).Some?
    ensures GetOr(Withdraw(m, to, amount, due).value, POOL, 0) == GetOr(m, POOL, 0) - amount - Max(due, 0)
    ensures Total(Withdraw(m, to, amount, due).value) == Total(m)
  {
    TransferMoves(m, POOL, to, amount);
    if due > 0 {
      TransferMoves(Transfer(m, POOL, to, amount).value, POOL, to, due);
    }
  }

  // ----- the books -----

  /** A flat step keeps the invariant once its books and its wallets agree. */
  lemma FlatStepKeeps(w: World, op: Op, x: int)
    requires Inv(w) && Apply(w.ins, op, w.now).Ok?
    requires op.DoStake? || op.DoUnstake? || op.DoPayOut? || op.DoReserve? || op.DoClaim?
    requires var v := Step(w, op);
             && FlatPool.Books(v.ins.flat.book)
             && v.ins.flat.book.total == w.ins.flat.book.total + x
             && Held(v.ins) == Held(w.ins) + x - YieldPaidBy(w.ins, op, w.now)
    ensures Inv(Step(w, op))
  {
    hide FlatPool.Books, TierPools.Books, FlatPool.Credit, FlatPool.Debit, FlatPool.PayOut, FlatPool.Claim,
         FlatPool.Due, Transfer, Withdraw;
    assert Step(w, op).ins.tiers == w.ins.tiers;
  }

  lemma StakeStep(w: World, a: Party, amount: int)
    requires Inv(w) && Apply(w.ins, DoStake(a, amount), w.now).Ok?
    ensures Inv(Step(w, DoStake(a, amount)))
  {
    hide Total, FlatPool.Bank;
    FlatPool.CreditKeepsBooks(w.ins.flat.book, a, amount);
    TransferMoves(w.ins.wallets, a, POOL, amount);
    hide Transfer, FlatPool.Books, TierPools.Books;
    FlatStepKeeps(w, DoStake(a, amount), amount);
  }

  lemma UnstakeStep(w: World, a: Party, amount: int)
    requires Inv(w) && Apply(w.ins, DoUnstake(a, amount), w.now).Ok?
    ensures Inv(Step(w, DoUnstake(a, amount)))
  {
    hide Total, FlatPool.Bank, FlatPool.Due;
    FlatPool.DebitKeepsBooks(w.ins.flat.book, a, amount);
    WithdrawMoves(w.ins.wallets, a, amount, FlatPool.Due(w.ins.flat, a, w.now));
    hide Withdraw, FlatPool.Books, TierPools.Books;
    FlatStepKeeps(w, DoUnstake(a, amount), -amount);
  }

  lemma PayOutStep(w: World, d: bool, a: Party, amount: int)
    requires Inv(w) && Apply(w.ins, DoPayOut(d, a, amount), w.now).Ok?
    ensures Inv(Step(w, DoPayOut(d, a, amount)))
  {
    hide Total, AfterPayout;
    var p := FlatPool.PayoutOf(w.ins.flat.book, amount);
    if p > 0 {
      FlatPool.PayOutKeepsBooks(w.ins.flat.book, p);
      TransferMoves(w.ins.wallets, POOL, a, p);
      hide Transfer, FlatPool.Books, TierPools.Books;
      FlatStepKeeps(w, DoPayOut(d, a, amount), -p);
    }
  }

  lemma ReserveStep(w: World, o: Symbol, amount: int)
    requires Inv(w) && Apply(w.ins, DoReserve(o, amount), w.now).Ok?
    ensures Inv(Step(w, DoReserve(o, amount)))
  {
    hide Total;
    var r := FlatPool.ReservableOf(w.ins.flat.book, amount);
    if r > 0 {
      FlatPool.ReserveKeepsBooks(w.ins.flat.book, o, r);
      hide FlatPool.Books, TierPools.Books;
      FlatStepKeeps(w, DoReserve(o, amount), 0);
    }
  }

  lemma ClaimStep(w: World, o: Symbol, a: Party, amount: int)
    requires Inv(w) && Apply(w.ins, DoClaim(o, a, amount), w.now).Ok?
    ensures Inv(Step(w, DoClaim(o, a, amount)))
  {
    hide Total, AfterPayout;
    var p := FlatPool.ClaimableOf(w.ins.flat.book, o, amount);
    if p > 0 {
      FlatPool.ClaimKeepsBooks(w.ins.flat.book, o, p);
      TransferMoves(w.ins.wallets, POOL, a, p);
      hide Transfer, FlatPool.Books, TierPools.Books;
      FlatStepKeeps(w, DoClaim(o, a, amount), -p);
    }
  }

  /** Moving funds in or out of one tier moves the tiers' funds by that amount. */
  lemma FundsMove(b: TierPools.Book, g: TierPools.Book, t: TierPools.Tier, x: int)
    requires g.pools == TierPools.AddBalance(b, t, x)
    ensures TierFunds(g) == TierFunds(b) + x
  {
  }

  /** A tier step keeps the invariant once its books, its wallets and its funds agree. */
  lemma TierStepKeeps(w: World, op: Op, x: int)
    requires Inv(w) && Apply(w.ins, op, w.now).Ok? && TierOf(op).Some? && !op.DoReserveTier?
    requires TierPools.Books(Step(w, op).ins.tiers.book)
    requires Step(w, op).ins.tiers.book.reserved == w.ins.tiers.book.reserved
    requires TierFunds(Step(w, op).ins.tiers.book) == TierFunds(w.ins.tiers.book) + x
    requires Held(Step(w, op).ins) == Held(w.ins) + x - YieldPaidBy(w.ins, op, w.now)
    ensures Inv(Step(w, op))
  {
    hide Total, FlatPool.Books, TierPools.Books, TierPools.PayOut, TierPools.Claim, TierPools.Due, TierPools.Bank,
         TierPools.Covered, TierPools.PoolOf, TierPools.Keys, Transfer, Withdraw, TierFunds;
    assert Step(w, op).ins.flat == w.ins.flat;
  }

  lemma StakeTierStep(w: World, a: Party, t: TierPools.Tier, amount: int)
    requires Inv(w) && Apply(w.ins, DoStakeTier(a, t, amount), w.now).Ok?
    ensures Inv(Step(w, DoStakeTier(a, t, amount)))
  {
    hide Total, TierPools.Bank, TierPools.Earned, TierPools.TierBooks;
    var b, k := w.ins.tiers.book, TierPools.TierKey(a, t);
    TierPools.CreditKeepsBooks(b, k, amount);
    TransferMoves(w.ins.wallets, a, POOL, amount);
    FundsMove(b, TierPools.CreditBook(b, k, amount), t, amount);
    TierStepKeeps(w, DoStakeTier(a, t, amount), amount);
  }

  lemma UnstakeTierStep(w: World, a: Party, t: TierPools.Tier, amount: int)
    requires Inv(w) && Apply(w.ins, DoUnstakeTier(a, t, amount), w.now).Ok?
    ensures Inv(Step(w, DoUnstakeTier(a, t, amount)))
  {
    hide Total, TierPools.Bank, TierPools.Earned, TierPools.TierBooks;
    var b, k := w.ins.tiers.book, TierPools.TierKey(a, t);
    TierPools.DebitKeepsBooks(b, k, amount);
    WithdrawMoves(w.ins.wallets, a, amount, TierPools.Due(w.ins.tiers, k, w.now));
    FundsMove(b, TierPools.DebitBook(b, k, amount), t, -amount);
    TierStepKeeps(w, DoUnstakeTier(a, t, amount), -amount);
  }

  lemma PayOutTierStep(w: World, d: bool, t: TierPools.Tier, a: Party, amount: int)
    requires Inv(w) && Apply(w.ins, DoPayOutTier(d, t, a, amount), w.now).Ok?
    ensures Inv(Step(w, DoPayOutTier(d, t, a, amount)))
  {
    hide Total, AfterPayout, TierPools.Covered, TierPools.TierBooks;
    var b := w.ins.tiers.book;
    var p := TierPools.PayoutOf(b, t, amount);
    if p > 0 {
      TierPools.PayOutKeepsBooks(b, t, p);
      TransferMoves(w.ins.wallets, POOL, a, p);
      FundsMove(b, TierPools.PayOut(b, t, p), t, -p);
      TierStepKeeps(w, DoPayOutTier(d, t, a, amount), -p);
    }
  }

  lemma ClaimFunds(b: TierPools.Book, k: TierPools.TierKey, p: int)
    requires TierPools.PoolOf(b, k.tier).balance > 0
    ensures TierFunds(TierPools.Claim(b, k, p)) == TierFunds(b) - p && TierPools.Claim(b, k, p).reserved == b.reserved
  {
    hide AfterPayout;
    FundsMove(b, TierPools.PayOut(b, k.tier, p), k.tier, -p);
    assert TierFunds(TierPools.Claim(b, k, p)) == TierFunds(TierPools.PayOut(b, k.tier, p));
  }

  lemma ClaimTierStep(w: World, o: Symbol, t: TierPools.Tier, a: Party, amount: int)
    requires Inv(w) && Apply(w.ins, DoClaimTier(o, t, a, amount), w.now).Ok?
    ensures Inv(Step(w, DoClaimTier(o, t, a, amount)))
  {
    hide AfterPayout, TierPools.Books, FlatPool.Books, TierPools.Claim, TierFunds, CoverageLimit;
    var b, k := w.ins.tiers.book, TierPools.TierKey(o, t);
    var p := TierPools.ClaimableOf(b, k, amount);
    if p > 0 {
      TierPools.ClaimKeepsBooks(b, k, p);
      TransferMoves(w.ins.wallets, POOL, a, p);
      ClaimFunds(b, k, p);
      hide Transfer, TierPools.PoolOf, TierPools.Keys;
      TierStepKeeps(w, DoClaimTier(o, t, a, amount), -p);
    }
  }

  /** A reservation stays within the tier's share of the largest request made so far. */
  lemma ReserveWithinCoverage(b: TierPools.Book, k: TierPools.TierKey, amount: int, largest: int)
    requires TierPools.TierBooks(b, k.tier) && amount > 0 && largest >= amount
    requires TierPools.ReservableOf(b, k, amount) > 0
    ensures (GetOr(b.reserved, k, 0) + TierPools.ReservableOf(b, k, amount)) * FlatPool.BPS_DENOMINATOR
            <= largest * TierPools.Cap(k.tier)
  {
    hide Total;
    assert amount * TierPools.Cap(k.tier) >= 0;
    assert (GetOr(b.reserved, k, 0) + TierPools.ReservableOf(b, k, amount)) * FlatPool.BPS_DENOMINATOR
           <= amount * TierPools.Cap(k.tier);
    ScaleUp(amount, largest, TierPools.Cap(k.tier));
  }

  lemma LimitsGrow(w: World, o: Symbol, t: TierPools.Tier, amount: int)
    requires CoverageLimit(w)
    ensures var b, largest := w.ins.tiers.book, Largest(w.largest, DoReserveTier(o, t, amount));
            forall j :: j in b.reserved ==>
                b.reserved[j] * FlatPool.BPS_DENOMINATOR <= GetOr(largest, j, 0) * TierPools.Cap(j.tier)
  {
    var b, largest := w.ins.tiers.book, Largest(w.largest, DoReserveTier(o, t, amount));
    forall j | j in b.reserved
      ensures b.reserved[j] * FlatPool.BPS_DENOMINATOR <= GetOr(largest, j, 0) * TierPools.Cap(j.tier)
    {
      ScaleUp(GetOr(w.largest, j, 0), GetOr(largest, j, 0), TierPools.Cap(j.tier));
    }
  }

  lemma TierReserveStep(w: World, o: Symbol, t: TierPools.Tier, amount: int)
    requires Inv(w) && Apply(w.ins, DoReserveTier(o, t, amount), w.now).Ok?
    ensures Inv(Step(w, DoReserveTier(o, t, amount)))
  {
    hide Total, FlatPool.Books, TierPools.TierBooks, TierPools.Covered;
    var b, k := w.ins.tiers.book, TierPools.TierKey(o, t);
    var r := TierPools.ReservableOf(b, k, amount);
    LimitsGrow(w, o, t, amount);
    if r > 0 {
      TierPools.ReserveKeepsBooks(b, k, r);
      assert TierPools.TierBooks(b, t);
      ReserveWithinCoverage(b, k, amount, GetOr(Largest(w.largest, DoReserveTier(o, t, amount)), k, 0));
      hide TierPools.Books, TierPools.ReservableOf;
    }
  }

  lemma RateKeepsBook(s: Insurance, rate: nat, now: Timestamp)
    ensures SetYieldRate(s, rate, now).flat.book == s.flat.book
    ensures SetYieldRate(s, rate, now).tiers == s.tiers && SetYieldRate(s, rate, now).wallets == s.wallets
  {
    hide FlatPool.BankAll;
  }

  /** One step from books that balance leads to books that balance. */
  lemma StepKeeps(w: World, op: Op)
    requires Inv(w)
    ensures Inv(Step(w, op))
  {
    hide Total, FlatPool.Books, TierPools.Books, FlatPool.BankAll, Stake, Unstake, PayOut, ReservePayout, ClaimPayout,
         StakeTier, UnstakeTier, PayOutTier, ReservePayoutTier, ClaimPayoutTier;
    if Apply(w.ins, op, w.now).Ok? {
      match op
      case Tick(_) =>
      case Donate(from, amount) => TransferMoves(w.ins.wallets, from, POOL, amount);
      case DoSetYieldRate(rate) => RateKeepsBook(w.ins, rate, w.now);
      case DoReserveTier(o, t, amount) => TierReserveStep(w, o, t, amount);
      case DoStakeTier(a, t, amount) => StakeTierStep(w, a, t, amount);
      case DoUnstakeTier(a, t, amount) => UnstakeTierStep(w, a, t, amount);
      case DoPayOutTier(d, t, a, amount) => PayOutTierStep(w, d, t, a, amount);
      case DoClaimTier(o, t, a, amount) => ClaimTierStep(w, o, t, a, amount);
      case DoStake(a, amount) => StakeStep(w, a, amount);
      case DoUnstake(a, amount) => UnstakeStep(w, a, amount);
      case DoPayOut(d, a, amount) => PayOutStep(w, d, a, amount);
      case DoReserve(o, amount) => ReserveStep(w, o, amount);
      case DoClaim(o, a, amount) => ClaimStep(w, o, a, amount);
    }
  }

  /** Over every run the stakes add up to the pool total, the outstanding sum to what offers may
      still claim, each tier's stakes to its balance, and the contract holds exactly the principal
      plus donations minus the yield it has paid. */
  lemma {:induction false} RunKeeps(w: World, ops: seq<Op>)
    requires Inv(w)
    ensures Inv(Run(w, ops))
    decreases |ops|
  {
    if ops != [] {
      StepKeeps(w, ops[0]);
      RunKeeps(Step(w, ops[0]), ops[1..]);
    }
  }

  ghost function Deployed(wallets: map<Address, int>, now: Timestamp): World {
    World(Empty(wallets), now, GetOr(wallets, POOL, 0), 0, map[])
  }

  lemma DeployedSound(wallets: map<Address, int>, now: Timestamp)
    ensures Inv(Deployed(wallets, now))
  {
    hide FlatPool.Books, TierPools.Books;
    FlatPool.EmptyBooks();
    TierPools.EmptyBooks();
  }

  /** Stakes and withdrawals move the principal in the pools by exactly their amount; donations and rate
      changes do not move it, and none of them reserves anything. */
  lemma PrincipalMoves(s: Insurance, op: Op, now: Timestamp)
    requires Apply(s, op, now).Ok?
    requires op.Donate? || op.DoStake? || op.DoUnstake? || op.DoSetYieldRate? || op.DoStakeTier? || op.DoUnstakeTier?
    ensures var t := Apply(s, op, now).value;
            && Principal(t) == Principal(s) + Staked(op)
            && t.flat.book.outstanding == s.flat.book.outstanding
  {
    hide Total, Transfer, Withdraw, TierFunds, TierPools.Bank, TierPools.PoolOf, FlatPool.Bank;
    match op
    case DoStakeTier(a, t, amount) =>
      FundsMove(s.tiers.book, TierPools.CreditBook(s.tiers.book, TierPools.TierKey(a, t), amount), t, amount);
    case DoUnstakeTier(a, t, amount) =>
      FundsMove(s.tiers.book, TierPools.DebitBook(s.tiers.book, TierPools.TierKey(a, t), amount), t, -amount);
    case _ =>
  }

  // ----- what the invariants buy -----

  /** A payout never exceeds the request or the pool, and the pool shrinks by exactly that much. */
  lemma PayoutWithinPool(s: Insurance, defaulted: bool, a: Party, amount: int)
    requires PayOut(s, defaulted, a, amount).Ok?
    ensures var (s', p) := PayOut(s, defaulted, a, amount).value;
            && defaulted
            && p == Max(Min(amount, s.flat.book.total), 0)
            && s'.flat.book.total == s.flat.book.total - p
            && Held(s') == Held(s) - p
            && GetOr(s'.wallets, a, 0) == GetOr(s.wallets, a, 0) + p
  {
    hide Total, AfterPayout;
    var p := FlatPool.PayoutOf(s.flat.book, amount);
    if p > 0 {
      TransferMoves(s.wallets, POOL, a, p);
    }
  }

  /** In every reachable state a paying claim meets a positive pool: the share computation never
      divides by zero. */
  lemma NoPayingClaimOnEmptyPool(w: World, offer: Symbol, amount: int)
    requires Inv(w) && FlatPool.ClaimableOf(w.ins.flat.book, offer, amount) > 0
    ensures w.ins.flat.book.total > 0
  {
    FlatPool.OthersOutstanding(w.ins.flat.book, offer);
  }

  /** In every reachable state the tier guards comparing the reductions with the payout never fire:
      a tier payout or a tier claim can only fail for its arguments or in the token transfer. */
  lemma TierGuardsUnreachable(w: World, defaulted: bool, o: Symbol, t: TierPools.Tier, a: Party, amount: int)
    requires Inv(w)
    ensures PayOutTier(w.ins, defaulted, t, a, amount) != Err(InsufficientBalance)
    ensures ClaimPayoutTier(w.ins, o, t, a, amount) == Err(InsufficientBalance)
       <==> amount > 0 && TierPools.RemainingOf(w.ins.tiers.book, TierPools.TierKey(o, t)) <= 0
  {
    hide Total, AfterPayout, TierPools.Covered, TierPools.TierBooks, Transfer;
    assert TierPools.TierBooks(w.ins.tiers.book, t);
    assert |TierPools.Keys(w.ins.tiers.book, t)| == 0 ==> TierPools.PoolOf(w.ins.tiers.book, t).balance == 0 by {
      if |TierPools.Keys(w.ins.tiers.book, t)| == 0 {
        TierPools.FundedTierHasStakers(w.ins.tiers.book, t);
      }
    }
  }

  /** Lifetime claims on an (offer, tier) stay within the tier's coverage share of the largest
      request made for it. */
  lemma ClaimsWithinCoverage(w: World, k: TierPools.TierKey)
    requires Inv(w)
    ensures GetOr(w.ins.tiers.book.paid, k, 0) * FlatPool.BPS_DENOMINATOR
         <= Max(GetOr(w.largest, k, 0) * TierPools.Cap(k.tier), 0)
  {
    hide Total;
    assert TierPools.TierBooks(w.ins.tiers.book, k.tier);
  }

  /** Everything one tier records. */
  ghost predicate SameTier(b: TierPools.Book, g: TierPools.Book, t: TierPools.Tier) {
    && TierPools.PoolOf(g, t) == TierPools.PoolOf(b, t)
    && TierPools.OfTier(g.stakes, t) == TierPools.OfTier(b.stakes, t)
    && TierPools.OfTier(g.reserved, t) == TierPools.OfTier(b.reserved, t)
    && TierPools.OfTier(g.paid, t) == TierPools.OfTier(b.paid, t)
  }

  lemma EntryElsewhere(m: map<TierPools.TierKey, int>, k: TierPools.TierKey, v: int, other: TierPools.Tier)
    requires k.tier != other
    ensures TierPools.OfTier(m[k := v], other) == TierPools.OfTier(m, other)
    ensures TierPools.OfTier(m - {k}, other) == TierPools.OfTier(m, other)
  {
  }

  lemma CreditElsewhere(b: TierPools.Book, k: TierPools.TierKey, x: int, other: TierPools.Tier)
    requires k.tier != other
    ensures SameTier(b, TierPools.CreditBook(b, k, x), other)
  {
    hide TierPools.OfTier;
    EntryElsewhere(b.stakes, k, GetOr(b.stakes, k, 0) + x, other);
  }

  lemma DebitElsewhere(b: TierPools.Book, k: TierPools.TierKey, x: int, other: TierPools.Tier)
    requires k.tier != other
    ensures SameTier(b, TierPools.DebitBook(b, k, x), other)
  {
    hide TierPools.OfTier;
    EntryElsewhere(b.stakes, k, GetOr(b.stakes, k, 0) - x, other);
  }

  lemma ReserveElsewhere(b: TierPools.Book, k: TierPools.TierKey, x: int, other: TierPools.Tier)
    requires k.tier != other
    ensures SameTier(b, TierPools.Reserve(b, k, x), other)
  {
    hide TierPools.OfTier;
    EntryElsewhere(b.reserved, k, GetOr(b.reserved, k, 0) + x, other);
  }

  lemma PayOutElsewhere(b: TierPools.Book, k: TierPools.TierKey, p: int, other: TierPools.Tier)
    requires TierPools.PoolOf(b, k.tier).balance > 0 && k.tier != other
    ensures SameTier(b, TierPools.PayOut(b, k.tier, p), other)
    ensures SameTier(b, TierPools.Claim(b, k, p), other)
  {
    hide TierPools.OfTier, Total, AfterPayout;
    TierPools.PayoutStaysInTier(b, k.tier, p, other);
    EntryElsewhere(b.paid, k, GetOr(b.paid, k, 0) + p, other);
  }

  /** Pools are isolated: a step leaves the records, stakes and reservations of every other tier
      alone, and a tier step leaves the flat pool alone. */
  lemma PoolsAreIsolated(s: Insurance, op: Op, now: Timestamp, other: TierPools.Tier)
    requires Apply(s, op, now).Ok?
    requires TierOf(op) != Some(other)
    ensures SameTier(s.tiers.book, Apply(s, op, now).value.tiers.book, other)
    ensures TierOf(op).Some? ==> Apply(s, op, now).value.flat == s.flat
  {
    hide SameTier, TierPools.PayOut, TierPools.Claim, TierPools.Bank, TierPools.Covered, FlatPool.Bank, Transfer,
      TierPools.CreditBook, TierPools.DebitBook, TierPools.Reserve;
    var b := s.tiers.book;
    SameTierReflexive(b, other);
    match op
    case DoStakeTier(a, t, amount) => CreditElsewhere(b, TierPools.TierKey(a, t), amount, other);
    case DoUnstakeTier(a, t, amount) => DebitElsewhere(b, TierPools.TierKey(a, t), amount, other);
    case DoReserveTier(o, t, amount) =>
      var k := TierPools.TierKey(o, t);
      ReserveElsewhere(b, k, TierPools.ReservableOf(b, k, amount), other);
    case DoPayOutTier(_, t, _, amount) =>
      if TierPools.PayoutOf(b, t, amount) > 0 {
        PayOutElsewhere(b, TierPools.TierKey(0, t), TierPools.PayoutOf(b, t, amount), other);
      }
    case DoClaimTier(o, t, _, amount) =>
      var k := TierPools.TierKey(o, t);
      if TierPools.ClaimableOf(b, k, amount) > 0 {
        PayOutElsewhere(b, k, TierPools.ClaimableOf(b, k, amount), other);
      }
    case _ =>
  }

  lemma SameTierReflexive(b: TierPools.Book, t: TierPools.Tier)
    ensures SameTier(b, b, t)
  {
  }

  // ----- runs that neither pay out defaults nor withdraw -----

  ghost predicate Reserving(op: Op) {
    op.DoStake? || op.DoReserve? || op.DoClaim? || op.Tick? || op.DoSetYieldRate?
  }

  /** On runs of stakes, reservations and claims the pool always covers every reservation, so each
      claim pays the requested amount up to what its offer reserved. */
  lemma {:induction false} ReservationsStayCovered(w: World, ops: seq<Op>)
    requires Inv(w) && w.ins.flat.book.outstanding <= w.ins.flat.book.total
    requires forall i :: 0 <= i < |ops| ==> Reserving(ops[i])
    ensures var b := Run(w, ops).ins.flat.book;
            && b.outstanding <= b.total
            && forall o, amount :: FlatPool.ClaimableOf(b, o, amount) == Min(amount, FlatPool.RemainingOf(b, o))
    decreases |ops|
  {
    hide Total, AfterPayout;
    if ops != [] {
      var op := ops[0];
      StepKeeps(w, op);
      CoveredStep(w, op);
      ReservationsStayCovered(Step(w, op), ops[1..]);
    }
  }

  lemma CoveredStep(w: World, op: Op)
    requires w.ins.flat.book.outstanding <= w.ins.flat.book.total && Reserving(op)
    ensures Step(w, op).ins.flat.book.outstanding <= Step(w, op).ins.flat.book.total
  {
    hide Total, AfterPayout;
  }

  /** What a step takes out of the flat pool without asking the reservations. */
  ghost function Unreserved(s: Insurance, op: Op): int {
    match op
    case DoUnstake(_, amount) => amount
    case DoPayOut(_, _, amount) => Max(FlatPool.PayoutOf(s.flat.book, amount), 0)
    case _ => 0
  }

  /** Only withdrawals and default payouts ignore the reservations: a step from a covered pool leaves
      it covered exactly when what it takes out that way fits into what is not reserved. */
  lemma CoveredExactlyWhen(s: Insurance, op: Op, now: Timestamp)
    requires s.flat.book.outstanding <= s.flat.book.total && Apply(s, op, now).Ok?
    ensures var b := Apply(s, op, now).value.flat.book;
            b.outstanding <= b.total <==> Unreserved(s, op) <= s.flat.book.total - s.flat.book.outstanding
  {
    hide Total, AfterPayout, Transfer, Withdraw, TierPools.PayOut, TierPools.Claim, TierPools.Credit, TierPools.Debit;
  }
}
