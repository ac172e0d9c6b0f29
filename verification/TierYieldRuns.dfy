/** The yield of one tier staker over a whole run of the insurance contract, against the exact time
    integral of its principal at its tier's yearly rate. */
module TierYieldRuns {
  import opened Base
  import opened TierPools
  import opened InsuranceSteps
  import FlatPool
  import YieldLosses
  import Runs = InsuranceRuns

  /** Basis points per year, and how many of them times seconds make up a whole. */
  ghost function YearlyRate(tier: Tier): nat {
    match tier case Conservative => 200 case Balanced => 500 case Aggressive => 1_000
  }

  const WHOLE: int := 315_360_000_000

  /** The contract as one staker of one tier watches it. `exact` is the integral of principal times rate
      over time, in units of one WHOLE-th; `received` what its withdrawals brought it beyond the principal
      withdrawn; `checkpoints` how often its yield was banked. */
  datatype Watch = Watch(ins: Insurance, now: Timestamp, exact: int, received: int, checkpoints: nat)

  ghost predicate Own(op: Runs.Op, k: TierKey) {
    (op.DoStakeTier? || op.DoUnstakeTier?) && op.staker == k.id && op.tier == k.tier
  }

  ghost function Gained(s: Insurance, t: Insurance, a: Address): int { GetOr(t.wallets, a, 0) - GetOr(s.wallets, a, 0) }

  ghost function Step(w: Watch, op: Runs.Op, k: TierKey): Watch {
    match Runs.Apply(w.ins, op, w.now)
    case Err(_) => w
    case Ok(s) =>
      var now := if op.Tick? then SaturatingAdd(w.now, op.secs) else w.now;
      Watch(s, now,
            w.exact + StakeOf(w.ins.tiers, k) * (now - w.now) * YearlyRate(k.tier),
            w.received + if op.DoUnstakeTier? && Own(op, k) then Gained(w.ins, s, k.id) - op.amount else 0,
            w.checkpoints + if Own(op, k) && StakeOf(w.ins.tiers, k) > 0 then 1 else 0)
  }

  ghost function Run(w: Watch, ops: seq<Runs.Op>, k: TierKey): Watch
    decreases |ops|
  {
    if ops == [] then w else Run(Step(w, ops[0], k), ops[1..], k)
  }

  /** Losses of the tier are absorbed by its stakers; the promise about yield is for runs without them. */
  ghost predicate LossFree(ops: seq<Runs.Op>, tier: Tier) {
    forall i :: 0 <= i < |ops| ==> !((ops[i].DoPayOutTier? || ops[i].DoClaimTier?) && ops[i].tier == tier)
  }

  ghost function Elapsed(s: Tiers, k: TierKey, now: Timestamp): nat { SaturatingSub(now, GetOr(s.clock.since, k, now)) }

  /** What the principal has earned since the checkpoint, unrounded. */
  ghost function Unrounded(s: Tiers, k: TierKey, now: Timestamp): int {
    StakeOf(s, k) * Elapsed(s, k, now) * YearlyRate(k.tier)
  }

  ghost function Banked(s: Tiers, k: TierKey): int { GetOr(s.clock.banked, k, 0) }

  /** What was received, is banked and is accruing tracks the exact integral, up to what rounding
      dropped at the checkpoints. */
  ghost predicate Tracks(w: Watch, k: TierKey) {
    var s := w.ins.tiers;
    var settled := WHOLE * (w.received + Banked(s, k));
    && PoolOf(s.book, k.tier).apy == YearlyRate(k.tier)
    && StakeOf(s, k) >= 0 && Banked(s, k) >= 0
    && (StakeOf(s, k) > 0 ==> k in s.clock.since && s.clock.since[k] <= w.now)
    && settled + Unrounded(s, k, w.now) <= w.exact
    && w.exact <= settled + Unrounded(s, k, w.now) + (WHOLE - 1) * w.checkpoints
  }

  lemma EarnedRounds(s: Tiers, k: TierKey, now: Timestamp)
    requires StakeOf(s, k) >= 0 && PoolOf(s.book, k.tier).apy == YearlyRate(k.tier)
    ensures var n := Unrounded(s, k, now); var y := Earned(s, k, now);
            0 <= y && y * WHOLE <= n < y * WHOLE + WHOLE
  {
    var p, e, r := StakeOf(s, k), Elapsed(s, k, now), YearlyRate(k.tier);
    assert p * r * e == p * e * r;
    assert p * e >= 0;
    assert p * e * r >= 0;
    if p == 0 || e == 0 {
      assert p * e * r == 0;
    }
  }

  /** Banking moves the accrued yield over and drops less than one unit. */
  lemma BankDrops(s: Tiers, k: TierKey, now: Timestamp)
    requires StakeOf(s, k) >= 0 && Banked(s, k) >= 0 && PoolOf(s.book, k.tier).apy == YearlyRate(k.tier)
    ensures var after := GetOr(Bank(s, k, now).banked, k, 0);
            && after >= Banked(s, k)
            && after * WHOLE <= Banked(s, k) * WHOLE + Unrounded(s, k, now)
            && Banked(s, k) * WHOLE + Unrounded(s, k, now) < after * WHOLE + WHOLE
    ensures k in Bank(s, k, now).since && Bank(s, k, now).since[k] == now
  {
    hide TierYield, Unrounded;
    EarnedRounds(s, k, now);
  }

  /** A checkpoint of the watched staker. */
  lemma Checkpoint(w: Watch, v: Watch, k: TierKey)
    requires Tracks(w, k) && StakeOf(w.ins.tiers, k) > 0
    requires PoolOf(v.ins.tiers.book, k.tier).apy == YearlyRate(k.tier)
    requires v.now == w.now && v.exact == w.exact && v.checkpoints == w.checkpoints + 1
    requires v.received + Banked(v.ins.tiers, k) == w.received + GetOr(Bank(w.ins.tiers, k, w.now).banked, k, 0)
    requires StakeOf(v.ins.tiers, k) >= 0 && Banked(v.ins.tiers, k) >= 0
    requires StakeOf(v.ins.tiers, k) > 0 ==> k in v.ins.tiers.clock.since && v.ins.tiers.clock.since[k] == w.now
    ensures Tracks(v, k)
  {
    hide Bank, Earned, PoolOf;
    BankDrops(w.ins.tiers, k, w.now);
    assert Unrounded(v.ins.tiers, k, v.now) == 0;
    assert (WHOLE - 1) * v.checkpoints == (WHOLE - 1) * w.checkpoints + WHOLE - 1;
  }

  /** A step that leaves the watched staker's principal, checkpoint and rate alone. */
  lemma Untouched(w: Watch, v: Watch, k: TierKey)
    requires Tracks(w, k)
    requires v.now == w.now && v.exact == w.exact && v.checkpoints == w.checkpoints && v.received == w.received
    requires StakeOf(v.ins.tiers, k) == StakeOf(w.ins.tiers, k) && Banked(v.ins.tiers, k) == Banked(w.ins.tiers, k)
    requires PoolOf(v.ins.tiers.book, k.tier).apy == PoolOf(w.ins.tiers.book, k.tier).apy
    requires k in v.ins.tiers.clock.since <==> k in w.ins.tiers.clock.since
    requires GetOr(v.ins.tiers.clock.since, k, w.now) == GetOr(w.ins.tiers.clock.since, k, w.now)
    ensures Tracks(v, k)
  {
    hide PoolOf;
  }

  // ----- one step -----

  lemma StakeKeeps(w: Watch, a: Party, tier: Tier, amount: int, k: TierKey)
    requires Tracks(w, k) && StakeTier(w.ins, a, tier, amount, w.now).Ok?
    ensures Tracks(Step(w, Runs.DoStakeTier(a, tier, amount), k), k)
  {
    hide Transfer, Earned, Tracks;
    var v, own := Step(w, Runs.DoStakeTier(a, tier, amount), k), TierKey(a, tier);
    assert v.ins.tiers == Credit(w.ins.tiers, own, amount, w.now);
    hide StakeTier, Step;
    if own == k {
      OwnStake(w, v, amount, k);
    } else {
      Untouched(w, v, k);
    }
  }

  lemma OwnStake(w: Watch, v: Watch, amount: int, k: TierKey)
    requires Tracks(w, k) && amount > 0 && v.ins.tiers == Credit(w.ins.tiers, k, amount, w.now)
    requires v.now == w.now && v.exact == w.exact && v.received == w.received
    requires v.checkpoints == w.checkpoints + if StakeOf(w.ins.tiers, k) > 0 then 1 else 0
    ensures Tracks(v, k)
  {
    hide Earned;
    BankDrops(w.ins.tiers, k, w.now);
    if StakeOf(w.ins.tiers, k) > 0 {
      hide Bank;
      Checkpoint(w, v, k);
    } else {
      assert Unrounded(w.ins.tiers, k, w.now) == 0 && Unrounded(v.ins.tiers, k, w.now) == 0;
    }
  }

  lemma UnstakeKeeps(w: Watch, a: Party, tier: Tier, amount: int, k: TierKey)
    requires Tracks(w, k) && UnstakeTier(w.ins, a, tier, amount, w.now).Ok?
    ensures Tracks(Step(w, Runs.DoUnstakeTier(a, tier, amount), k), k)
  {
    hide Withdraw, Earned, Tracks, Due;
    var v, own := Step(w, Runs.DoUnstakeTier(a, tier, amount), k), TierKey(a, tier);
    assert v.ins.tiers == Debit(w.ins.tiers, own, amount, w.now);
    YieldLosses.Receives(w.ins.wallets, a, amount, Due(w.ins.tiers, own, w.now));
    hide UnstakeTier, Step;
    if own == k {
      OwnUnstake(w, v, amount, k);
    } else {
      Untouched(w, v, k);
    }
  }

  lemma OwnUnstake(w: Watch, v: Watch, amount: int, k: TierKey)
    requires Tracks(w, k) && 0 < amount <= StakeOf(w.ins.tiers, k)
    requires v.ins.tiers == Debit(w.ins.tiers, k, amount, w.now)
    requires v.now == w.now && v.exact == w.exact && v.checkpoints == w.checkpoints + 1
    requires v.received == w.received + Max(Due(w.ins.tiers, k, w.now), 0)
    ensures Tracks(v, k)
  {
    hide Earned;
    BankDrops(w.ins.tiers, k, w.now);
    hide Bank;
    Checkpoint(w, v, k);
  }

  lemma TickKeeps(w: Watch, secs: nat, k: TierKey)
    requires Tracks(w, k)
    ensures Tracks(Step(w, Runs.Tick(secs), k), k)
  {
    var v := Step(w, Runs.Tick(secs), k);
    var p, e, d, r := StakeOf(w.ins.tiers, k), Elapsed(w.ins.tiers, k, w.now), v.now - w.now, YearlyRate(k.tier);
    if p > 0 {
      assert Elapsed(v.ins.tiers, k, v.now) == e + d;
      Accrues(p, e, d, r);
    } else {
      assert p * e * r == 0 && p * d * r == 0;
    }
  }

  lemma Accrues(p: int, e: int, d: int, r: int)
    ensures p * (e + d) * r == p * e * r + p * d * r
  {
    assert p * (e + d) == p * e + p * d;
    assert (p * e + p * d) * r == p * e * r + p * d * r;
  }

  /** A loss or a reservation elsewhere, and everything the flat pool does. */
  lemma OthersLeaveTier(s: Insurance, op: Runs.Op, now: Timestamp, k: TierKey)
    requires Runs.Apply(s, op, now).Ok?
    requires !op.Tick? && !op.DoStakeTier? && !op.DoUnstakeTier?
    requires (op.DoPayOutTier? || op.DoClaimTier?) ==> op.tier != k.tier
    ensures var t := Runs.Apply(s, op, now).value.tiers;
            && t.clock == s.tiers.clock && StakeOf(t, k) == StakeOf(s.tiers, k)
            && PoolOf(t.book, k.tier).apy == PoolOf(s.tiers.book, k.tier).apy
  {
    if op.DoPayOutTier? || op.DoClaimTier? {
      Runs.PoolsAreIsolated(s, op, now, k.tier);
      TierEntry(s.tiers.book, Runs.Apply(s, op, now).value.tiers.book, k);
      LossLeavesClock(s, op, now);
      hide Runs.Apply, Runs.SameTier;
    } else {
      hide Transfer, Withdraw;
    }
  }

  lemma TierEntry(b: Book, g: Book, k: TierKey)
    requires OfTier(g.stakes, k.tier) == OfTier(b.stakes, k.tier)
    ensures GetOr(g.stakes, k, 0) == GetOr(b.stakes, k, 0)
  {
    assert k in b.stakes <==> k in OfTier(b.stakes, k.tier);
    assert k in g.stakes <==> k in OfTier(g.stakes, k.tier);
  }

  lemma LossLeavesClock(s: Insurance, op: Runs.Op, now: Timestamp)
    requires Runs.Apply(s, op, now).Ok? && (op.DoPayOutTier? || op.DoClaimTier?)
    ensures Runs.Apply(s, op, now).value.tiers.clock == s.tiers.clock
  {
    hide Transfer, TierPools.PayOut, TierPools.Claim;
  }

  lemma StepKeeps(w: Watch, op: Runs.Op, k: TierKey)
    requires Tracks(w, k) && LossFree([op], k.tier)
    ensures Tracks(Step(w, op, k), k)
  {
    hide Tracks;
    assert [op][0] == op;
    if Runs.Apply(w.ins, op, w.now).Ok? {
      match op
      case Tick(secs) => TickKeeps(w, secs, k);
      case DoStakeTier(a, t, amount) => StakeKeeps(w, a, t, amount, k);
      case DoUnstakeTier(a, t, amount) => UnstakeKeeps(w, a, t, amount, k);
      case _ =>
        OthersLeaveTier(w.ins, op, w.now, k);
        hide Runs.Apply;
        Untouched(w, Step(w, op, k), k);
    }
  }

  // ----- runs -----

  lemma {:induction false} RunKeeps(w: Watch, ops: seq<Runs.Op>, k: TierKey)
    requires Tracks(w, k) && LossFree(ops, k.tier)
    ensures Tracks(Run(w, ops, k), k)
    decreases |ops|
  {
    hide Tracks, Step;
    if ops != [] {
      StepKeeps(w, ops[0], k);
      RunKeeps(Step(w, ops[0], k), ops[1..], k);
    }
  }

  /** Over every run from deployment without losses of its tier, what a tier staker has received beyond
      its principal plus what it has accrued never exceeds the exact integral of its principal at two, five
      or ten per cent a year, and falls short of it by less than one unit per checkpoint and one for the
      period still open. */
  lemma TierYieldTracksTheIntegral(wallets: map<Address, int>, now: Timestamp, ops: seq<Runs.Op>, k: TierKey)
    requires LossFree(ops, k.tier)
    ensures var w := Run(Watch(Empty(wallets), now, 0, 0, 0), ops, k);
            var paidOut := WHOLE * (w.received + AccruedYield(w.ins.tiers, k, w.now));
            paidOut <= w.exact < paidOut + WHOLE * (w.checkpoints + 1)
  {
    hide Run, Tracks, TierYield, AccruedYield;
    var w := Run(Watch(Empty(wallets), now, 0, 0, 0), ops, k);
    StartTracks(wallets, now, k);
    RunKeeps(Watch(Empty(wallets), now, 0, 0, 0), ops, k);
    TracksClosely(w, k);
  }

  lemma StartTracks(wallets: map<Address, int>, now: Timestamp, k: TierKey)
    ensures Tracks(Watch(Empty(wallets), now, 0, 0, 0), k)
  {
  }

  lemma TracksClosely(w: Watch, k: TierKey)
    requires Tracks(w, k)
    ensures var paidOut := WHOLE * (w.received + AccruedYield(w.ins.tiers, k, w.now));
            paidOut <= w.exact < paidOut + WHOLE * (w.checkpoints + 1)
  {
    hide Unrounded, Earned;
    EarnedRounds(w.ins.tiers, k, w.now);
    assert (WHOLE - 1) * w.checkpoints <= WHOLE * w.checkpoints;
  }

  // ----- one call -----

  /** A tier top-up leaves the yield accrued so far where it was, exactly while the principal has not
      accrued a whole negative unit. */
  lemma TopUpIsProspective(s: Tiers, k: TierKey, amount: int, now: Timestamp)
    requires PoolOf(s.book, k.tier).apy == YearlyRate(k.tier)
    ensures AccruedYield(Credit(s, k, amount, now), k, now) == AccruedYield(s, k, now)
       <==> StakeOf(s, k) * Elapsed(s, k, now) * YearlyRate(k.tier) > -WHOLE
  {
    var p, e, r := StakeOf(s, k), Elapsed(s, k, now), YearlyRate(k.tier);
    assert p * r * e == p * e * r;
    if p < 0 {
      assert p * e <= 0;
      assert p * e * r <= 0;
    } else {
      assert p * e >= 0;
      assert p * e * r >= 0;
    }
    if p == 0 || e == 0 { assert p * e * r == 0; }
    assert Elapsed(Credit(s, k, amount, now), k, now) == 0;
    assert Earned(Credit(s, k, amount, now), k, now) == 0;
    EarnedSign(p * e * r);
    assert Earned(s, k, now) == TruncDiv(p * e * r, WHOLE);
    hide TruncDiv;
  }

  lemma EarnedSign(n: int)
    ensures TruncDiv(n, WHOLE) >= 0 <==> n > -WHOLE
    ensures n >= 0 ==> TruncDiv(n, WHOLE) >= 0
    ensures n <= 0 ==> TruncDiv(n, WHOLE) <= 0
  {
  }

  /** A withdrawal from a tier goes through exactly when it is positive, within the stake, and covered by
      the tokens in custody together with the yield accrued. It brings the staker both, and leaves it with no
      yield to withdraw. */
  lemma TierWithdrawal(s: Insurance, a: Party, tier: Tier, x: int, now: Timestamp)
    requires StakeOf(s.tiers, TierKey(a, tier)) >= 0 && PoolOf(s.tiers.book, tier).apy == YearlyRate(tier)
    ensures var k := TierKey(a, tier); var due := Max(AccruedYield(s.tiers, k, now), 0);
            var r := UnstakeTier(s, a, tier, x, now);
            && (r.Ok? <==> 0 < x <= StakeOf(s.tiers, k) && Runs.Held(s) >= x + due)
            && (r.Ok? ==>
                  && GetOr(r.value.wallets, a, 0) == GetOr(s.wallets, a, 0) + x + due
                  && StakeOf(r.value.tiers, k) == StakeOf(s.tiers, k) - x
                  && AccruedYield(r.value.tiers, k, now) == 0)
  {
    var k := TierKey(a, tier);
    EarnedRounds(s.tiers, k, now);
    assert Due(s.tiers, k, now) == AccruedYield(s.tiers, k, now);
    if UnstakeTier(s, a, tier, x, now).Ok? {
      YieldLosses.Receives(s.wallets, a, x, Due(s.tiers, k, now));
      NothingLeft(s.tiers, k, x, now);
      hide Debit, AccruedYield, Due;
    }
  }

  lemma NothingLeft(s: Tiers, k: TierKey, x: int, now: Timestamp)
    ensures AccruedYield(Debit(s, k, x, now), k, now) == 0 && StakeOf(Debit(s, k, x, now), k) == StakeOf(s, k) - x
  {
  }
}
