/** The yield of one staker over a whole run of the insurance contract, against the exact time
    integral of its principal. */
module YieldRuns {
  import opened Base
  import opened FlatPool
  import opened InsuranceSteps
  import TierPools
  import Runs = InsuranceRuns

  /** The contract as one staker watches it. `exact` is the integral of principal * rate over time,
      in units of one YIELD_DENOMINATOR-th; `received` the yield paid out to the staker so far, and
      `checkpoints` how often its yield was banked. */
  datatype Watch = Watch(ins: Insurance, now: Timestamp, exact: int, received: int, checkpoints: nat)

  /** Steps that bank the yield of staker `a`. */
  ghost predicate Banks(s: Insurance, op: Runs.Op, a: Party) {
    || (op.DoStake? && op.staker == a && StakeOf(s.flat, a) > 0)
    || (op.DoUnstake? && op.staker == a)
    || (op.DoSetYieldRate? && StakeOf(s.flat, a) != 0)
  }

  ghost function Step(w: Watch, op: Runs.Op, a: Party): Watch {
    match Runs.Apply(w.ins, op, w.now)
    case Err(_) => w
    case Ok(s) =>
      var now := if op.Tick? then SaturatingAdd(w.now, op.secs) else w.now;
      Watch(s, now,
            w.exact + StakeOf(w.ins.flat, a) * (now - w.now) * w.ins.flat.clock.rate,
            w.received + if op.DoUnstake? && op.staker == a then Max(Due(w.ins.flat, a, w.now), 0) else 0,
            w.checkpoints + if Banks(w.ins, op, a) then 1 else 0)
  }

  ghost function Run(w: Watch, ops: seq<Runs.Op>, a: Party): Watch
    decreases |ops|
  {
    if ops == [] then w else Run(Step(w, ops[0], a), ops[1..], a)
  }

  /** Defaults are absorbed by the stakers; the promise about yield is for runs without them. */
  ghost predicate LossFree(ops: seq<Runs.Op>) {
    forall i :: 0 <= i < |ops| ==> !ops[i].DoPayOut? && !ops[i].DoClaim?
  }

  /** What the principal has earned since the checkpoint, unrounded. */
  ghost function Open(f: Flat, a: Address, now: Timestamp): int {
    StakeOf(f, a) * Elapsed(f, a, now) * f.clock.rate
  }

  ghost function Banked(f: Flat, a: Address): int { GetOr(f.clock.banked, a, 0) }

  /** What was received, is banked and is accruing tracks the exact integral, up to what rounding
      dropped at the checkpoints. */
  ghost predicate Tracks(w: Watch, a: Party) {
    var f := w.ins.flat;
    var settled := YIELD_DENOMINATOR * (w.received + Banked(f, a));
    && StakeOf(f, a) >= 0 && Banked(f, a) >= 0
    && (StakeOf(f, a) > 0 ==> a in f.clock.since && f.clock.since[a] <= w.now)
    && settled + Open(f, a, w.now) <= w.exact
    && w.exact <= settled + Open(f, a, w.now) + (YIELD_DENOMINATOR - 1) * w.checkpoints
  }

  lemma OpenIsYield(f: Flat, a: Address, now: Timestamp)
    requires StakeOf(f, a) >= 0
    ensures var n := Open(f, a, now); var y := Earned(f, a, now);
            0 <= y && y * YIELD_DENOMINATOR <= n < y * YIELD_DENOMINATOR + YIELD_DENOMINATOR
  {
    var p, e, r := StakeOf(f, a), Elapsed(f, a, now), f.clock.rate;
    assert p * e >= 0;
    assert p * e * r >= 0;
    if p == 0 || e == 0 || r == 0 {
      assert p * e * r == 0;
    }
  }

  /** Banking moves the accrued yield over and drops less than one unit. */
  lemma BankDrops(f: Flat, a: Address, now: Timestamp)
    requires StakeOf(f, a) > 0 && Banked(f, a) >= 0
    ensures var after := GetOr(Bank(f, a, now).banked, a, 0);
            && after >= Banked(f, a)
            && after * YIELD_DENOMINATOR <= Banked(f, a) * YIELD_DENOMINATOR + Open(f, a, now)
            && Banked(f, a) * YIELD_DENOMINATOR + Open(f, a, now) < after * YIELD_DENOMINATOR + YIELD_DENOMINATOR
    ensures GetOr(Bank(f, a, now).since, a, now) == now && a in Bank(f, a, now).since
  {
    hide ComputeYield;
    OpenIsYield(f, a, now);
  }

  /** A checkpoint of the watched staker. */
  lemma Checkpoint(w: Watch, v: Watch, a: Party)
    requires Tracks(w, a) && StakeOf(w.ins.flat, a) > 0
    requires v.now == w.now && v.exact == w.exact && v.checkpoints == w.checkpoints + 1
    requires v.received + Banked(v.ins.flat, a) == w.received + GetOr(Bank(w.ins.flat, a, w.now).banked, a, 0)
    requires StakeOf(v.ins.flat, a) >= 0 && Banked(v.ins.flat, a) >= 0
    requires StakeOf(v.ins.flat, a) > 0 ==> a in v.ins.flat.clock.since && v.ins.flat.clock.since[a] == w.now
    ensures Tracks(v, a)
  {
    hide ComputeYield, Bank, Earned;
    BankDrops(w.ins.flat, a, w.now);
    assert Open(v.ins.flat, a, v.now) == 0;
    assert (YIELD_DENOMINATOR - 1) * v.checkpoints == (YIELD_DENOMINATOR - 1) * w.checkpoints + YIELD_DENOMINATOR - 1;
  }

  /** A step that leaves the watched staker's principal, checkpoint and rate alone. */
  lemma Untouched(w: Watch, v: Watch, a: Party)
    requires Tracks(w, a)
    requires v.now == w.now && v.exact == w.exact && v.checkpoints == w.checkpoints && v.received == w.received
    requires StakeOf(v.ins.flat, a) == StakeOf(w.ins.flat, a) && Banked(v.ins.flat, a) == Banked(w.ins.flat, a)
    requires v.ins.flat.clock.rate == w.ins.flat.clock.rate
    requires a in v.ins.flat.clock.since <==> a in w.ins.flat.clock.since
    requires GetOr(v.ins.flat.clock.since, a, w.now) == GetOr(w.ins.flat.clock.since, a, w.now)
    ensures Tracks(v, a)
  {
  }

  lemma StakeStep(w: Watch, b: Party, amount: int, a: Party)
    requires Stake(w.ins, b, amount, w.now).Ok?
    ensures var v := Step(w, Runs.DoStake(b, amount), a);
            && amount > 0
            && v.ins.flat == Credit(w.ins.flat, b, amount, w.now) && v.now == w.now
            && v.exact == w.exact && v.received == w.received
            && v.checkpoints == w.checkpoints + if b == a && StakeOf(w.ins.flat, a) > 0 then 1 else 0
  {
    hide Credit, Transfer;
  }

  lemma StakeKeeps(w: Watch, b: Party, amount: int, a: Party)
    requires Tracks(w, a) && Stake(w.ins, b, amount, w.now).Ok?
    ensures Tracks(Step(w, Runs.DoStake(b, amount), a), a)
  {
    hide ComputeYield, Earned, Transfer, Stake, Step;
    StakeStep(w, b, amount, a);
    var v := Step(w, Runs.DoStake(b, amount), a);
    if a == b && StakeOf(w.ins.flat, a) > 0 {
      BankDrops(w.ins.flat, a, w.now);
      hide Bank, Open;
      Checkpoint(w, v, a);
    } else if a == b {
      assert Open(w.ins.flat, a, w.now) == 0;
      assert Open(v.ins.flat, a, w.now) == 0;
    } else {
      hide Tracks, Open;
      Untouched(w, v, a);
    }
  }

  lemma UnstakeKeeps(w: Watch, b: Party, amount: int, a: Party)
    requires Tracks(w, a) && Unstake(w.ins, b, amount, w.now).Ok?
    ensures Tracks(Step(w, Runs.DoUnstake(b, amount), a), a)
  {
    hide ComputeYield, Earned, Withdraw, Open;
    var v := Step(w, Runs.DoUnstake(b, amount), a);
    if a == b {
      BankDrops(w.ins.flat, a, w.now);
      Checkpoint(w, v, a);
    } else {
      hide Tracks;
      Untouched(w, v, a);
    }
  }

  /** What a rate change does to one staker: its clock restarts and its yield is banked, if it has a
      stake at all. */
  lemma SetRateAt(f: Flat, rate: nat, a: Address, now: Timestamp)
    requires StakeOf(f, a) >= 0
    ensures var g := SetRate(f, rate, now);
            && StakeOf(g, a) == StakeOf(f, a)
            && (StakeOf(f, a) > 0 ==>
                  && a in g.clock.since && g.clock.since[a] == now
                  && Banked(g, a) == GetOr(Bank(f, a, now).banked, a, 0))
            && (StakeOf(f, a) == 0 ==> Banked(g, a) == Banked(f, a))
  {
    hide ComputeYield;
    OpenIsYield(f, a, now);
  }

  /** A staker with nothing staked accrues nothing, whatever its clock says. */
  lemma Idle(w: Watch, v: Watch, a: Party)
    requires Tracks(w, a) && StakeOf(w.ins.flat, a) == 0 && StakeOf(v.ins.flat, a) == 0
    requires v.exact == w.exact && v.checkpoints == w.checkpoints && v.received == w.received
    requires Banked(v.ins.flat, a) == Banked(w.ins.flat, a)
    ensures Tracks(v, a)
  {
    assert Open(w.ins.flat, a, w.now) == 0 && Open(v.ins.flat, a, v.now) == 0;
  }

  lemma RateStep(w: Watch, rate: nat, a: Party)
    ensures Step(w, Runs.DoSetYieldRate(rate), a)
            == Watch(SetYieldRate(w.ins, rate, w.now), w.now, w.exact, w.received,
                     w.checkpoints + if StakeOf(w.ins.flat, a) != 0 then 1 else 0)
  {
    hide SetRate;
  }

  lemma SetRateKeeps(w: Watch, rate: nat, a: Party)
    requires Tracks(w, a)
    ensures Tracks(Step(w, Runs.DoSetYieldRate(rate), a), a)
  {
    var f := w.ins.flat;
    var v := Step(w, Runs.DoSetYieldRate(rate), a);
    RateStep(w, rate, a);
    SetRateAt(f, rate, a, w.now);
    hide Earned, Bank, SetRate, Step, Open;
    if StakeOf(f, a) > 0 {
      BankDrops(f, a, w.now);
      Checkpoint(w, v, a);
    } else {
      Idle(w, v, a);
    }
  }

  lemma TickKeeps(w: Watch, secs: nat, a: Party)
    requires Tracks(w, a)
    ensures Tracks(Step(w, Runs.Tick(secs), a), a)
  {
    var v := Step(w, Runs.Tick(secs), a);
    var p, e, d, r := StakeOf(w.ins.flat, a), Elapsed(w.ins.flat, a, w.now), v.now - w.now, w.ins.flat.clock.rate;
    if p > 0 {
      assert Elapsed(v.ins.flat, a, v.now) == e + d;
      Accrues(p, e, d, r);
    } else {
      assert p * e * r == 0 && p * d * r == 0;
    }
  }

  lemma Accrues(p: int, e: int, d: int, r: int)
    ensures p * (e + d) * r == p * e * r + p * d * r
  {
    assert p * (e + d) == p * e + p * d;
    assert (p * e + p * d) * r == p * e * r + p * d * r;
  }

  lemma StepKeeps(w: Watch, op: Runs.Op, a: Party)
    requires Tracks(w, a) && !op.DoPayOut? && !op.DoClaim?
    ensures Tracks(Step(w, op, a), a)
  {
    hide Tracks;
    if Runs.Apply(w.ins, op, w.now).Ok? {
      match op
      case Tick(secs) => TickKeeps(w, secs, a);
      case DoStake(b, amount) => StakeKeeps(w, b, amount, a);
      case DoUnstake(b, amount) => UnstakeKeeps(w, b, amount, a);
      case DoSetYieldRate(rate) => SetRateKeeps(w, rate, a);
      case _ => OthersKeep(w, op, a);
    }
  }

  /** What bears on a staker's yield: the stakes, the checkpoints and the rate. */
  lemma OthersLeaveFlat(s: Insurance, op: Runs.Op, now: Timestamp)
    requires Runs.Apply(s, op, now).Ok? && (op.Donate? || op.DoReserve? || Runs.TierOf(op).Some?)
    ensures var t := Runs.Apply(s, op, now).value;
            t.flat.clock == s.flat.clock && t.flat.book.stakes == s.flat.book.stakes
  {
    if Runs.TierOf(op).Some? {
      var other := if Runs.TierOf(op).value == TierPools.Balanced then TierPools.Aggressive else TierPools.Balanced;
      Runs.PoolsAreIsolated(s, op, now, other);
      hide Runs.Apply, Runs.SameTier;
    } else {
      hide Transfer;
    }
  }

  lemma OthersKeep(w: Watch, op: Runs.Op, a: Party)
    requires Tracks(w, a) && Runs.Apply(w.ins, op, w.now).Ok?
    requires op.Donate? || op.DoReserve? || Runs.TierOf(op).Some?
    ensures Tracks(Step(w, op, a), a)
  {
    hide Runs.Apply, Tracks;
    OthersLeaveFlat(w.ins, op, w.now);
    Untouched(w, Step(w, op, a), a);
  }

  lemma {:induction false} RunKeeps(w: Watch, ops: seq<Runs.Op>, a: Party)
    requires Tracks(w, a) && LossFree(ops)
    ensures Tracks(Run(w, ops, a), a)
    decreases |ops|
  {
    hide Tracks;
    if ops != [] {
      StepKeeps(w, ops[0], a);
      RunKeeps(Step(w, ops[0], a), ops[1..], a);
    }
  }

  /** Over every loss-free run from deployment, what a staker has received plus what it has accrued
      never exceeds the exact integral of its principal at the rates in force, and falls short of it
      by less than one unit per checkpoint and one for the period still open. */
  lemma YieldTracksTheIntegral(wallets: map<Address, int>, now: Timestamp, ops: seq<Runs.Op>, a: Party)
    requires LossFree(ops)
    ensures var w := Run(Watch(Empty(wallets), now, 0, 0, 0), ops, a);
            var paidOut := YIELD_DENOMINATOR * (w.received + AccruedYield(w.ins.flat, a, w.now));
            paidOut <= w.exact < paidOut + YIELD_DENOMINATOR * (w.checkpoints + 1)
  {
    hide Run, Tracks, ComputeYield, AccruedYield;
    var w := Run(Watch(Empty(wallets), now, 0, 0, 0), ops, a);
    StartTracks(wallets, now, a);
    RunKeeps(Watch(Empty(wallets), now, 0, 0, 0), ops, a);
    TracksClosely(w, a);
  }

  lemma StartTracks(wallets: map<Address, int>, now: Timestamp, a: Party)
    ensures Tracks(Watch(Empty(wallets), now, 0, 0, 0), a)
  {
  }

  lemma TracksClosely(w: Watch, a: Party)
    requires Tracks(w, a)
    ensures var paidOut := YIELD_DENOMINATOR * (w.received + AccruedYield(w.ins.flat, a, w.now));
            paidOut <= w.exact < paidOut + YIELD_DENOMINATOR * (w.checkpoints + 1)
  {
    hide Open, Earned;
    OpenIsYield(w.ins.flat, a, w.now);
    assert (YIELD_DENOMINATOR - 1) * w.checkpoints <= YIELD_DENOMINATOR * w.checkpoints;
  }
}
