/** Runs from deployment that reach what the insurance laws leave room for. */
module ReachableCases {
  import opened Base
  import opened Ledger
  import opened ProRata
  import opened InsuranceRuns
  import FlatPool
  import PoolCalls
  import opened InsuranceSteps

  const YEAR: nat := 31_536_000

  /** A deployment whose only activity is in the flat pool, without reservations. */
  ghost function Flat(stakes: map<Address, int>, total: int, since: map<Address, Timestamp>, banked: map<Address, int>,
                      rate: nat, wallets: map<Address, int>, now: Timestamp): World
  {
    World(Insurance(
            FlatPool.Flat(FlatPool.Book(stakes, total, 0, map[], map[]), FlatPool.Clock(since, banked, rate)),
            Empty(wallets).tiers, wallets),
          now, 0, 0, map[])
  }

  lemma RunCons(w: World, op: Op, rest: seq<Op>)
    ensures Run(w, [op] + rest) == Run(Step(w, op), rest)
  {
    assert ([op] + rest)[1..] == rest;
    hide Step;
  }

  lemma KeysAre(b: FlatPool.Book, keys: seq<Address>)
    requires Ascending(keys) && forall k :: k in keys <==> k in b.stakes
    ensures FlatPool.Keys(b) == keys
  {
    SameAscending(SortedKeys(b.stakes.Keys), keys);
  }

  lemma DeployedIsFlat(wallets: map<Address, int>, now: Timestamp)
    requires GetOr(wallets, 0, 0) == 0
    ensures Deployed(wallets, now) == Flat(map[], 0, map[], map[], 0, wallets, now)
  {
  }

  /** Ascending lists with the same elements are equal. */
  lemma {:induction false} SameAscending(a: seq<nat>, b: seq<nat>)
    requires Ascending(a) && Ascending(b) && forall x :: x in a <==> x in b
    ensures a == b
    decreases |a|
  {
    assert a != [] ==> a[0] in a;
    assert b != [] ==> b[0] in b;
    if a != [] && b != [] {
      assert a[0] in b && b[0] in a;
      assert a[0] == b[0];
      forall x ensures x in a[1..] <==> x in b[1..] {
        assert x in a <==> x == a[0] || x in a[1..];
        assert x in b <==> x == b[0] || x in b[1..];
      }
      SameAscending(a[1..], b[1..]);
    }
  }

  // ----- single steps -----

  lemma FirstRate(rate: nat, wallets: map<Address, int>, now: Timestamp)
    ensures Step(Flat(map[], 0, map[], map[], 0, wallets, now), DoSetYieldRate(rate))
            == Flat(map[], 0, map[], map[], rate, wallets, now)
  {
    var f := Flat(map[], 0, map[], map[], 0, wallets, now).ins.flat;
    assert FlatPool.Checkpointed(f, {}, now) == map[] && FlatPool.Credited(f, {}, now) == map[];
    assert f.book.stakes.Keys == {};
  }

  lemma NewStake(stakes: map<Address, int>, total: int, since: map<Address, Timestamp>, rate: nat,
                 wallets: map<Address, int>, now: Timestamp, a: Party, amount: int)
    requires a !in stakes && amount >= FlatPool.MIN_STAKE_AMOUNT && GetOr(wallets, a, 0) == amount
    ensures Step(Flat(stakes, total, since, map[], rate, wallets, now), DoStake(a, amount))
            == Flat(stakes[a := amount], total + amount, since[a := now], map[], rate,
                    wallets[a := 0][0 := GetOr(wallets, 0, 0) + amount], now)
  {
  }

  lemma NowOf(stakes: map<Address, int>, total: int, since: map<Address, Timestamp>, banked: map<Address, int>,
              rate: nat, wallets: map<Address, int>, now: Timestamp)
    ensures Flat(stakes, total, since, banked, rate, wallets, now).now == now
  {
  }

  lemma Wait(w: World, secs: nat)
    ensures Step(w, Tick(secs)) == w.(now := SaturatingAdd(w.now, secs))
  {
  }

  // ----- a partial payout -----

  /** A year at a hundred per cent, then a payout of half the pool: the only staker's accrued yield is
      halved with its principal, a year after the fact. */
  lemma PartialPayoutTakesYield()
    ensures var start := Deployed(map[1 := 2_000_000], 0);
            var before := Run(start, [DoSetYieldRate(10_000), DoStake(1, 2_000_000), Tick(YEAR)]);
            var after := Step(before, DoPayOut(true, 2, 1_000_000));
            && FlatPool.AccruedYield(before.ins.flat, 1, before.now) == 2_000_000
            && FlatPool.StakeOf(after.ins.flat, 1) == 1_000_000
            && FlatPool.AccruedYield(after.ins.flat, 1, after.now) == 1_000_000
  {
    hide Step, Run, Flat, Deployed, FlatPool.AccruedYield, FlatPool.StakeOf;
    var wallets := map[1 := 2_000_000];
    DeployedIsFlat(wallets, 0);
    FirstRate(10_000, wallets, 0);
    NewStake(map[], 0, map[], 10_000, wallets, 0, 1, 2_000_000);
    var none: map<Address, int>, never: map<Address, Timestamp> := map[], map[];
    assert none[1 := 2_000_000] == map[1 := 2_000_000] && never[1 := 0] == map[1 := 0];
    var w2 := Flat(map[1 := 2_000_000], 2_000_000, map[1 := 0], map[], 10_000, wallets[1 := 0][0 := 2_000_000], 0);
    assert w2.now == 0 by {
      NowOf(map[1 := 2_000_000], 2_000_000, map[1 := 0], map[], 10_000, wallets[1 := 0][0 := 2_000_000], 0);
    }
    Wait(w2, YEAR);
    RunThree(Deployed(wallets, 0), DoSetYieldRate(10_000), DoStake(1, 2_000_000), Tick(YEAR));
    HalfPaidOut(w2.(now := YEAR));
  }

  lemma RunThree(w: World, a: Op, b: Op, c: Op)
    ensures Run(w, [a, b, c]) == Step(Step(Step(w, a), b), c)
  {
    hide Step;
    assert [a, b, c] == [a] + [b, c] && [b, c] == [b] + [c] && [c] == [c] + [];
    RunCons(w, a, [b, c]);
    RunCons(Step(w, a), b, [c]);
    RunCons(Step(Step(w, a), b), c, []);
  }

  lemma HalfPaidOut(w: World)
    requires w
             == Flat(map[1 := 2_000_000], 2_000_000, map[1 := 0], map[], 10_000,
                     map[1 := 2_000_000][1 := 0][0 := 2_000_000], 0).(now := YEAR)
    ensures FlatPool.AccruedYield(w.ins.flat, 1, w.now) == 2_000_000
    ensures var after := Step(w, DoPayOut(true, 2, 1_000_000));
            && FlatPool.StakeOf(after.ins.flat, 1) == 1_000_000
            && FlatPool.AccruedYield(after.ins.flat, 1, after.now) == 1_000_000
  {
    var b := w.ins.flat.book;
    KeysAre(b, [1]);
    SoleStakerPays(b);
    PaysOut(w, 2, 1_000_000);
    hide AfterPayout, Step, Cut;
  }

  lemma SoleStakerPays(b: FlatPool.Book)
    requires b.stakes == map[1 := 2_000_000] && b.total == 2_000_000 && FlatPool.Keys(b) == [1]
    ensures GetOr(FlatPool.PayOut(b, 1_000_000).stakes, 1, 0) == 1_000_000
  {
    AfterPayoutAt(b.stakes, [1], 1_000_000, 2_000_000);
    hide AfterPayout;
    var bal := Balances(b.stakes, [1]);
    assert bal == [2_000_000];
    assert Cut(bal, 1_000_000, 2_000_000, 0) == 1_000_000;
    assert [1][0] == 1;
  }

  /** A default payout the pool can cover. */
  lemma PaysOut(w: World, to: Party, amount: int)
    requires 0 < amount <= w.ins.flat.book.total && GetOr(w.ins.wallets, 0, 0) >= amount
    ensures var v := Step(w, DoPayOut(true, to, amount));
            && v.ins.flat.book == FlatPool.PayOut(w.ins.flat.book, amount) && v.ins.flat.clock == w.ins.flat.clock
            && v.now == w.now
            && v.ins.wallets
               == w.ins.wallets[0 := GetOr(w.ins.wallets, 0, 0) - amount][to := GetOr(w.ins.wallets, to, 0) + amount]
  {
    hide FlatPool.PayOut;
  }

  // ----- a staker below zero -----

  const MANY: map<Address, int> := map[1 := 1_000_000, 2 := 1_000_000, 3 := 1_000_000]

  /** A withdrawal right after the last checkpoint. */
  lemma Withdraws(stakes: map<Address, int>, total: int, since: map<Address, Timestamp>, banked: map<Address, int>,
                  wallets: map<Address, int>, a: Party)
    requires a in stakes && stakes[a] == 1_000_000 && a in since && since[a] == 0 && a !in banked
             && GetOr(wallets, 0, 0) >= 999_999
    ensures Step(Flat(stakes, total, since, banked, 0, wallets, 0), DoUnstake(a, 999_999))
            == Flat(stakes[a := 1], total - 999_999, since[a := 0], banked[a := 0], 0,
                    wallets[0 := GetOr(wallets, 0, 0) - 999_999][a := GetOr(wallets, a, 0) + 999_999], 0)
  {
  }

  /** Two stakers with one unit each, a third owing one, in a pool of one. */
  ghost predicate Indebted(w: World) {
    && FlatPool.StakeOf(w.ins.flat, 1) == 1 && FlatPool.StakeOf(w.ins.flat, 2) == 1
       && FlatPool.StakeOf(w.ins.flat, 3) == -1
    && w.ins.flat.book.total == 1
    && w.now == 0 && w.ins.flat.clock.rate == 0 && 3 in w.ins.flat.clock.since
    && (forall a :: GetOr(w.ins.flat.clock.banked, a, 0) == 0)
    && Held(w.ins) == 1 && GetOr(w.ins.wallets, 1, 0) == 999_999 && GetOr(w.ins.wallets, 3, 0) == 1_000_001
  }

  function ToDebt(): seq<Op> { Depositing() + Withdrawing() + [DoPayOut(true, 3, 2)] }

  /** Three stakes of a million, each withdrawn down to one unit, and a payout of two: the run from
      deployment that leaves the last staker at minus one. */
  lemma LastStakerGoesNegative()
    ensures Indebted(Run(Deployed(MANY, 0), ToDebt()))
  {
    hide Step, Run, Deployed, Deposited, Drained, Indebted;
    var w := Run(Deployed(MANY, 0), Depositing() + Withdrawing());
    RunConcat(Deployed(MANY, 0), Depositing(), Withdrawing());
    Deposits();
    AllWithdraw();
    RunConcat(Deployed(MANY, 0), Depositing() + Withdrawing(), [DoPayOut(true, 3, 2)]);
    RunSingle(w, DoPayOut(true, 3, 2));
    TwoPaidOut(w);
  }

  lemma RunSingle(w: World, op: Op)
    ensures Run(w, [op]) == Step(w, op)
  {
    hide Step;
    assert [op] == [op] + [];
    RunCons(w, op, []);
    RunNothing(Step(w, op));
  }

  lemma RunNothing(w: World)
    ensures Run(w, []) == w
  {
  }

  function Depositing(): seq<Op> { [DoStake(1, 1_000_000), DoStake(2, 1_000_000), DoStake(3, 1_000_000)] }

  function Withdrawing(): seq<Op> { [DoUnstake(1, 999_999), DoUnstake(2, 999_999), DoUnstake(3, 999_999)] }

  lemma {:induction false} RunConcat(w: World, a: seq<Op>, b: seq<Op>)
    ensures Run(w, a + b) == Run(Run(w, a), b)
    decreases |a|
  {
    hide Step;
    if a == [] {
      assert a + b == b;
    } else {
      assert a + b == [a[0]] + (a[1..] + b);
      RunCons(w, a[0], a[1..] + b);
      RunConcat(Step(w, a[0]), a[1..], b);
    }
  }

  ghost function Deposited(): World {
    Flat(map[1 := 1_000_000, 2 := 1_000_000, 3 := 1_000_000], 3_000_000, map[1 := 0, 2 := 0, 3 := 0], map[], 0,
         map[0 := 3_000_000, 1 := 0, 2 := 0, 3 := 0], 0)
  }

  ghost function Drained(): World {
    Flat(map[1 := 1, 2 := 1, 3 := 1], 3, map[1 := 0, 2 := 0, 3 := 0], map[1 := 0, 2 := 0, 3 := 0], 0,
         map[0 := 3, 1 := 999_999, 2 := 999_999, 3 := 999_999], 0)
  }

  lemma Deposits()
    ensures Run(Deployed(MANY, 0), Depositing()) == Deposited()
  {
    hide Step, Run, Flat, Deployed;
    var m1 := MANY[1 := 0][0 := 1_000_000];
    var m2 := m1[2 := 0][0 := 2_000_000];
    DeployedIsFlat(MANY, 0);
    NewStake(map[], 0, map[], 0, MANY, 0, 1, 1_000_000);
    NewStake(map[1 := 1_000_000], 1_000_000, map[1 := 0], 0, m1, 0, 2, 1_000_000);
    NewStake(map[1 := 1_000_000][2 := 1_000_000], 2_000_000, map[1 := 0][2 := 0], 0, m2, 0, 3, 1_000_000);
    RunThree(Deployed(MANY, 0), DoStake(1, 1_000_000), DoStake(2, 1_000_000), DoStake(3, 1_000_000));
    assert m2[3 := 0][0 := 3_000_000] == map[0 := 3_000_000, 1 := 0, 2 := 0, 3 := 0];
    assert map[1 := 1_000_000][2 := 1_000_000][3 := 1_000_000] == map[1 := 1_000_000, 2 := 1_000_000, 3 := 1_000_000];
    assert map[1 := 0][2 := 0][3 := 0] == map[1 := 0, 2 := 0, 3 := 0];
  }

  lemma AllWithdraw()
    ensures Run(Deposited(), Withdrawing()) == Drained()
  {
    hide Step, Run, Flat;
    var since := map[1 := 0, 2 := 0, 3 := 0];
    var s0 := map[1 := 1_000_000, 2 := 1_000_000, 3 := 1_000_000];
    var m0 := map[0 := 3_000_000, 1 := 0, 2 := 0, 3 := 0];
    var m1 := m0[0 := 2_000_001][1 := 999_999];
    var m2 := m1[0 := 1_000_002][2 := 999_999];
    Withdraws(s0, 3_000_000, since, map[], m0, 1);
    var none: map<Address, int> := map[];
    Withdraws(s0[1 := 1], 2_000_001, since[1 := 0], none[1 := 0], m1, 2);
    Withdraws(s0[1 := 1][2 := 1], 1_000_002, since[1 := 0][2 := 0], none[1 := 0][2 := 0], m2, 3);
    RunThree(Deposited(), DoUnstake(1, 999_999), DoUnstake(2, 999_999), DoUnstake(3, 999_999));
    assert m2[0 := 3][3 := 999_999] == map[0 := 3, 1 := 999_999, 2 := 999_999, 3 := 999_999];
    assert s0[1 := 1][2 := 1][3 := 1] == map[1 := 1, 2 := 1, 3 := 1];
    assert since[1 := 0][2 := 0][3 := 0] == since;
    assert none[1 := 0][2 := 0][3 := 0] == since;
  }

  lemma TwoPaidOut(w: World)
    requires w == Drained()
    ensures Indebted(Step(w, DoPayOut(true, 3, 2)))
  {
    hide Drained, Step, Run, FlatPool.PayOut, FlatPool.Keys, Indebted;
    DrainedFacts();
    KeysAre(w.ins.flat.book, [1, 2, 3]);
    StakersPayTwo(w.ins.flat.book);
    PaysOut(w, 3, 2);
    PaidTotal(w.ins.flat.book, 2);
    var v := Step(w, DoPayOut(true, 3, 2));
    WalletsPayTwo(w.ins.wallets);
    IndebtedAfter(v);
  }

  lemma WalletsPayTwo(m: map<Address, int>)
    ensures var n := m[0 := GetOr(m, 0, 0) - 2][3 := GetOr(m, 3, 0) + 2];
            && GetOr(n, 0, 0) == GetOr(m, 0, 0) - 2 && GetOr(n, 1, 0) == GetOr(m, 1, 0)
               && GetOr(n, 3, 0) == GetOr(m, 3, 0) + 2
  {
  }

  lemma IndebtedAfter(w: World)
    requires GetOr(w.ins.flat.book.stakes, 1, 0) == 1 && GetOr(w.ins.flat.book.stakes, 2, 0) == 1
    requires GetOr(w.ins.flat.book.stakes, 3, 0) == -1 && w.ins.flat.book.total == 1
    requires w.now == 0 && w.ins.flat.clock.rate == 0 && 3 in w.ins.flat.clock.since
    requires forall a :: GetOr(w.ins.flat.clock.banked, a, 0) == 0
    requires GetOr(w.ins.wallets, 0, 0) == 1 && GetOr(w.ins.wallets, 1, 0) == 999_999
             && GetOr(w.ins.wallets, 3, 0) == 1_000_001
    ensures Indebted(w)
  {
  }

  lemma PaidTotal(b: FlatPool.Book, p: int)
    requires b.total > 0
    ensures FlatPool.PayOut(b, p).total == b.total - p
  {
  }

  lemma DrainedFacts()
    ensures var w := Drained();
            && w.ins.flat.book.stakes == map[1 := 1, 2 := 1, 3 := 1] && w.ins.flat.book.total == 3
            && GetOr(w.ins.wallets, 0, 0) == 3 && GetOr(w.ins.wallets, 1, 0) == 999_999
               && GetOr(w.ins.wallets, 3, 0) == 999_999
            && 3 in w.ins.flat.clock.since && (forall a :: GetOr(w.ins.flat.clock.banked, a, 0) == 0)
            && w.ins.flat.clock.rate == 0 && w.now == 0
  {
  }

  lemma StakersPayTwo(b: FlatPool.Book)
    requires b.stakes == map[1 := 1, 2 := 1, 3 := 1] && b.total == 3 && FlatPool.Keys(b) == [1, 2, 3]
    ensures var after := FlatPool.PayOut(b, 2).stakes;
            GetOr(after, 1, 0) == 1 && GetOr(after, 2, 0) == 1 && GetOr(after, 3, 0) == -1
  {
    hide AfterPayout, Cut;
    AfterPayoutAt(b.stakes, [1, 2, 3], 2, 3);
    LastCanGoNegative();
    assert Balances(b.stakes, [1, 2, 3]) == [1, 1, 1];
    assert [1, 2, 3][0] == 1 && [1, 2, 3][1] == 2 && [1, 2, 3][2] == 3;
  }

  /** Carried on for a year at a hundred per cent, that staker has accrued a whole negative unit, and a
      rate change or a top-up forgets it. */
  lemma DebtsAreForgotten()
    ensures var later := Run(Deployed(MANY, 0), ToDebt() + [DoSetYieldRate(10_000), Tick(YEAR)]);
            && FlatPool.AccruedYield(later.ins.flat, 3, later.now) == -1
            && FlatPool.AccruedYield(Step(later, DoSetYieldRate(0)).ins.flat, 3, later.now) == 0
            && Stake(later.ins, 3, 1_000_001, later.now).Ok?
            && FlatPool.AccruedYield(Step(later, DoStake(3, 1_000_001)).ins.flat, 3, later.now) == 0
  {
    hide Run, Step, Deployed, Indebted, FlatPool.AccruedYield, Stake;
    var w := Run(Deployed(MANY, 0), ToDebt());
    LastStakerGoesNegative();
    RunConcat(Deployed(MANY, 0), ToDebt(), [DoSetYieldRate(10_000), Tick(YEAR)]);
    assert [DoSetYieldRate(10_000), Tick(YEAR)] == [DoSetYieldRate(10_000)] + [Tick(YEAR)];
    RunCons(w, DoSetYieldRate(10_000), [Tick(YEAR)]);
    RunSingle(Step(w, DoSetYieldRate(10_000)), Tick(YEAR));
    Debt(w);
  }

  lemma Debt(w: World)
    requires Indebted(w)
    ensures var later := Step(Step(w, DoSetYieldRate(10_000)), Tick(YEAR));
            && FlatPool.AccruedYield(later.ins.flat, 3, later.now) == -1
            && FlatPool.AccruedYield(Step(later, DoSetYieldRate(0)).ins.flat, 3, later.now) == 0
            && Stake(later.ins, 3, 1_000_001, later.now).Ok?
            && FlatPool.AccruedYield(Step(later, DoStake(3, 1_000_001)).ins.flat, 3, later.now) == 0
  {
    hide Step, Run, Stake;
    RateSet(w, 10_000);
    var v := Step(w, DoSetYieldRate(10_000));
    Wait(v, YEAR);
    var later := v.(now := YEAR);
    assert FlatPool.Earned(later.ins.flat, 3, later.now) == FlatPool.ComputeYield(-1, 10_000, YEAR);
    RateSet(later, 0);
    DebtorTopsUp(later);
  }

  /** A rate change restarts a debtor's clock and banks nothing for it. */
  lemma RateSet(w: World, rate: nat)
    requires FlatPool.StakeOf(w.ins.flat, 3) == -1 && GetOr(w.ins.flat.clock.banked, 3, 0) == 0
    ensures var v := Step(w, DoSetYieldRate(rate));
            && v.now == w.now && v.ins.flat.clock.rate == rate && FlatPool.StakeOf(v.ins.flat, 3) == -1
            && 3 in v.ins.flat.clock.since && v.ins.flat.clock.since[3] == w.now
            && GetOr(v.ins.flat.clock.banked, 3, 0) == 0
            && v.ins.wallets == w.ins.wallets
  {
    FlatPool.LossIsNegative(-1, w.ins.flat.clock.rate, FlatPool.Elapsed(w.ins.flat, 3, w.now));
  }

  /** So does a top-up that lifts it to the minimum stake. */
  lemma DebtorTopsUp(w: World)
    requires FlatPool.StakeOf(w.ins.flat, 3) == -1 && GetOr(w.ins.flat.clock.banked, 3, 0) == 0
    requires GetOr(w.ins.wallets, 3, 0) == 1_000_001
    ensures Stake(w.ins, 3, 1_000_001, w.now).Ok?
    ensures FlatPool.AccruedYield(Step(w, DoStake(3, 1_000_001)).ins.flat, 3, w.now) == 0
  {
  }

  // ----- a pool overdrawn -----

  /** With one unit donated, the two stakers with a unit each withdraw it, and the pool of one is at
      minus one. */
  lemma PoolIsOverdrawn()
    ensures var w := Run(Deployed(MANY, 0), ToDebt() + [Donate(1, 1), DoUnstake(1, 1), DoUnstake(2, 1)]);
            w.ins.flat.book.total == -1
  {
    hide Run, Step, Deployed, Indebted;
    LastStakerGoesNegative();
    RunConcat(Deployed(MANY, 0), ToDebt(), [Donate(1, 1), DoUnstake(1, 1), DoUnstake(2, 1)]);
    var w := Run(Deployed(MANY, 0), ToDebt());
    RunThree(w, Donate(1, 1), DoUnstake(1, 1), DoUnstake(2, 1));
    BothWithdraw(w);
  }

  lemma BothWithdraw(w: World)
    requires Indebted(w)
    ensures Step(Step(Step(w, Donate(1, 1)), DoUnstake(1, 1)), DoUnstake(2, 1)).ins.flat.book.total == -1
  {
    Donated(w);
    var v := Step(w, Donate(1, 1));
    hide Step, Run;
    UnitWithdrawn(v, 1);
    UnitWithdrawn(Step(v, DoUnstake(1, 1)), 2);
  }

  lemma Donated(w: World)
    requires GetOr(w.ins.wallets, 1, 0) >= 1
    ensures var v := Step(w, Donate(1, 1)); v.ins.flat == w.ins.flat && Held(v.ins) == Held(w.ins) + 1 && v.now == w.now
  {
  }

  /** A withdrawal of a whole stake of one, at no yield. */
  lemma UnitWithdrawn(w: World, a: Party)
    requires FlatPool.StakeOf(w.ins.flat, a) == 1 && w.ins.flat.clock.rate == 0 && Held(w.ins) >= 1
    requires forall b :: GetOr(w.ins.flat.clock.banked, b, 0) == 0
    ensures var v := Step(w, DoUnstake(a, 1));
            && v.ins.flat.book.total == w.ins.flat.book.total - 1 && Held(v.ins) == Held(w.ins) - 1
            && v.ins.flat.clock.rate == 0
            && (forall b :: b != a ==> FlatPool.StakeOf(v.ins.flat, b) == FlatPool.StakeOf(w.ins.flat, b))
            && (forall b :: GetOr(v.ins.flat.clock.banked, b, 0) == 0)
  {
    NothingDue(w.ins.flat, a, w.now);
    hide FlatPool.Bank, FlatPool.Due;
    assert Unstake(w.ins, a, 1, w.now).Ok?;
    var v := Step(w, DoUnstake(a, 1));
    assert v.ins.flat.clock.banked == w.ins.flat.clock.banked - {a};
    forall b ensures GetOr(v.ins.flat.clock.banked, b, 0) == 0 {
      assert GetOr(w.ins.flat.clock.banked, b, 0) == 0;
    }
  }

  lemma NothingDue(f: FlatPool.Flat, a: Address, now: Timestamp)
    requires f.clock.rate == 0 && GetOr(f.clock.banked, a, 0) == 0
    ensures FlatPool.Due(f, a, now) == 0 && FlatPool.Bank(f, a, now).banked == f.clock.banked
    ensures FlatPool.Bank(f, a, now).rate == 0
  {
  }

  // ----- reservations that outlive the pool -----

  /** A stake, a reservation of all of it, and then either its withdrawal or a default payout: nothing is
      left for the offer that reserved, whose claim pays nothing. */
  lemma ReservationIsOutrun(leave: Op, lender: Party, amount: int)
    requires leave == DoUnstake(1, 1_000_000) || leave == DoPayOut(true, 2, 1_000_000)
    requires amount > 0
    ensures var w := Run(Deployed(map[1 := 1_000_000], 0), [DoStake(1, 1_000_000), DoReserve(7, 1_000_000), leave]);
            && w.ins.flat.book.total == 0 && w.ins.flat.book.outstanding == 1_000_000
            && ClaimPayout(w.ins, 7, lender, amount) == Ok((w.ins, Receipt(0, 1_000_000)))
  {
    hide Run, Step, Deployed, Flat;
    var wallets := map[1 := 1_000_000];
    DeployedIsFlat(wallets, 0);
    NewStake(map[], 0, map[], 0, wallets, 0, 1, 1_000_000);
    RunThree(Deployed(wallets, 0), DoStake(1, 1_000_000), DoReserve(7, 1_000_000), leave);
    var none: map<Address, int>, never: map<Address, Timestamp> := map[], map[];
    var staked := Flat(none[1 := 1_000_000], 1_000_000, never[1 := 0], map[], 0, wallets[1 := 0][0 := 1_000_000], 0);
    AllReserved(staked);
    Outrun(Step(staked, DoReserve(7, 1_000_000)), leave);
    hide ClaimPayout;
    NothingToClaim(Step(Step(staked, DoReserve(7, 1_000_000)), leave).ins, lender, amount);
  }

  ghost predicate FullyReserved(w: World) {
    && FlatPool.StakeOf(w.ins.flat, 1) == 1_000_000 && w.ins.flat.book.total == 1_000_000
    && w.ins.flat.book.outstanding == 1_000_000 && FlatPool.RemainingOf(w.ins.flat.book, 7) == 1_000_000
    && Held(w.ins) == 1_000_000 && w.ins.flat.clock.rate == 0 && GetOr(w.ins.flat.clock.banked, 1, 0) == 0
  }

  lemma AllReserved(w: World)
    requires w == Flat(map[][1 := 1_000_000], 1_000_000, map[][1 := 0], map[], 0,
                       map[1 := 1_000_000][1 := 0][0 := 1_000_000], 0)
    ensures FullyReserved(Step(w, DoReserve(7, 1_000_000)))
  {
    hide Step, Run, Flat, FullyReserved;
    OneStake(w);
    LocksAll(w);
  }

  lemma LocksAll(w: World)
    requires FlatPool.StakeOf(w.ins.flat, 1) == 1_000_000 && w.ins.flat.book.total == 1_000_000
    requires w.ins.flat.book.outstanding == 0 && FlatPool.RemainingOf(w.ins.flat.book, 7) == 0
    requires Held(w.ins) == 1_000_000 && w.ins.flat.clock.rate == 0 && GetOr(w.ins.flat.clock.banked, 1, 0) == 0
    ensures FullyReserved(Step(w, DoReserve(7, 1_000_000)))
  {
    hide ReservePayout;
    PoolCalls.ReserveLocks(w.ins, 7, 1_000_000);
  }

  lemma OneStake(w: World)
    requires w == Flat(map[][1 := 1_000_000], 1_000_000, map[][1 := 0], map[], 0,
                       map[1 := 1_000_000][1 := 0][0 := 1_000_000], 0)
    ensures FlatPool.StakeOf(w.ins.flat, 1) == 1_000_000 && w.ins.flat.book.total == 1_000_000
    ensures w.ins.flat.book.outstanding == 0 && FlatPool.RemainingOf(w.ins.flat.book, 7) == 0
    ensures Held(w.ins) == 1_000_000 && w.ins.flat.clock.rate == 0 && GetOr(w.ins.flat.clock.banked, 1, 0) == 0
  {
  }

  lemma Outrun(w: World, leave: Op)
    requires FullyReserved(w) && (leave == DoUnstake(1, 1_000_000) || leave == DoPayOut(true, 2, 1_000_000))
    ensures var b := Step(w, leave).ins.flat.book;
            b.total == 0 && b.outstanding == 1_000_000 && FlatPool.RemainingOf(b, 7) == 1_000_000
  {
    hide AfterPayout;
  }

  lemma NothingToClaim(s: Insurance, lender: Party, amount: int)
    requires s.flat.book.total == 0 && s.flat.book.outstanding == 1_000_000
             && FlatPool.RemainingOf(s.flat.book, 7) == 1_000_000
    requires amount > 0
    ensures ClaimPayout(s, 7, lender, amount) == Ok((s, Receipt(0, 1_000_000)))
  {
  }
}
