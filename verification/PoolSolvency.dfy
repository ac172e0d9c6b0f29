/** Whether the flat pool can honour its reservations and its stakers' withdrawals throughout a run. */
module PoolSolvency {
  import opened Base
  import opened Ledger
  import opened ProRata
  import opened InsuranceSteps
  import opened InsuranceRuns
  import opened FlatPool

  // ----- reservations -----

  ghost predicate Covered(s: Insurance) { s.flat.book.outstanding <= s.flat.book.total }

  /** The pool covers its reservations before and after every step. */
  ghost predicate AlwaysCovered(w: World, ops: seq<Op>)
    decreases |ops|
  {
    Covered(w.ins) && (ops != [] ==> AlwaysCovered(Step(w, ops[0]), ops[1..]))
  }

  /** No step that commits takes out more than what is not reserved at the time. */
  ghost predicate WithinUnreserved(w: World, ops: seq<Op>)
    decreases |ops|
  {
    ops != [] ==>
      && (Apply(w.ins, ops[0], w.now).Ok? ==>
            Unreserved(w.ins, ops[0]) <= w.ins.flat.book.total - w.ins.flat.book.outstanding)
      && WithinUnreserved(Step(w, ops[0]), ops[1..])
  }

  /** The pool covers its reservations throughout a run if and only if every withdrawal and default
      payout fits into what is not reserved when it commits. */
  lemma {:induction false} StaysCoveredIff(w: World, ops: seq<Op>)
    requires Covered(w.ins)
    ensures AlwaysCovered(w, ops) <==> WithinUnreserved(w, ops)
    decreases |ops|
  {
    hide Apply, Unreserved;
    if ops != [] {
      if Apply(w.ins, ops[0], w.now).Ok? {
        CoveredExactlyWhen(w.ins, ops[0], w.now);
      }
      if Covered(Step(w, ops[0]).ins) {
        StaysCoveredIff(Step(w, ops[0]), ops[1..]);
      }
    }
  }

  // ----- negative stakes -----

  ghost predicate NoDebts(b: Book) { forall a :: a in b.stakes ==> b.stakes[a] >= 0 }

  /** The loss a step divides over the stakers. */
  ghost function Shared(s: Insurance, op: Op): int {
    match op
    case DoPayOut(_, _, amount) => PayoutOf(s.flat.book, amount)
    case DoClaim(o, _, amount) => ClaimableOf(s.flat.book, o, amount)
    case _ => 0
  }

  /** The last staker can take the rounding of all the others. */
  ghost predicate Absorbs(b: Book, p: int) {
    p > 0 ==>
      && |Keys(b)| > 0 && b.total > 0
      && Dust(Balances(b.stakes, Keys(b)), p, b.total, |Keys(b)| - 1)
         <= GetOr(b.stakes, Keys(b)[|Keys(b)| - 1], 0) * (b.total - p)
  }

  lemma SharedFits(s: Insurance, op: Op)
    requires Books(s.flat.book)
    ensures Shared(s, op) <= s.flat.book.total || Shared(s, op) <= 0
  {
    hide Total, Books;
    if op.DoClaim? {
      OthersOutstanding(s.flat.book, op.offer);
    }
  }

  /** What a step that divides no loss does to the stakes. */
  lemma QuietOnDebts(s: Insurance, op: Op, now: Timestamp)
    requires NoDebts(s.flat.book) && Apply(s, op, now).Ok? && Shared(s, op) <= 0
    ensures NoDebts(Apply(s, op, now).value.flat.book)
  {
    hide Total, AfterPayout, Transfer, Withdraw, TierPools.PayOut, TierPools.Claim, TierPools.Credit, TierPools.Debit,
         FlatPool.Bank, FlatPool.Due, FlatPool.BankAll;
  }

  lemma SharedStakes(s: Insurance, op: Op, now: Timestamp)
    requires Apply(s, op, now).Ok? && Shared(s, op) > 0
    ensures s.flat.book.total > 0
    ensures Apply(s, op, now).value.flat.book.stakes == FlatPool.PayOut(s.flat.book, Shared(s, op)).stakes
  {
    hide AfterPayout, Transfer;
  }

  /** A step from a pool without negative stakes leaves none if and only if the last staker absorbs the
      rounding of the loss it divides, if it divides one. */
  lemma NoDebtsStepIff(s: Insurance, op: Op, now: Timestamp)
    requires Books(s.flat.book) && NoDebts(s.flat.book) && Apply(s, op, now).Ok?
    ensures NoDebts(Apply(s, op, now).value.flat.book) <==> Absorbs(s.flat.book, Shared(s, op))
  {
    hide Apply, Shared, Books, AfterPayout, Dust;
    if Shared(s, op) > 0 {
      SharedStakes(s, op, now);
      SharedFits(s, op);
      PayoutStaysHealthy(s.flat.book, Shared(s, op));
    } else {
      QuietOnDebts(s, op, now);
    }
  }

  ghost predicate NeverInDebt(w: World, ops: seq<Op>)
    decreases |ops|
  {
    NoDebts(w.ins.flat.book) && (ops != [] ==> NeverInDebt(Step(w, ops[0]), ops[1..]))
  }

  ghost predicate AllAbsorbed(w: World, ops: seq<Op>)
    decreases |ops|
  {
    ops != [] ==>
      && (Apply(w.ins, ops[0], w.now).Ok? ==> Absorbs(w.ins.flat.book, Shared(w.ins, ops[0])))
      && AllAbsorbed(Step(w, ops[0]), ops[1..])
  }

  /** No stake is negative throughout a run if and only if every committed payout and claim is absorbed. */
  lemma {:induction false} NeverInDebtIff(w: World, ops: seq<Op>)
    requires Inv(w) && NoDebts(w.ins.flat.book)
    ensures NeverInDebt(w, ops) <==> AllAbsorbed(w, ops)
    decreases |ops|
  {
    hide Apply, Absorbs, Shared;
    if ops != [] {
      BooksOf(w);
      if Apply(w.ins, ops[0], w.now).Ok? {
        NoDebtsStepIff(w.ins, ops[0], w.now);
      }
      StepKeeps(w, ops[0]);
      hide Inv, NoDebts;
      if NoDebts(Step(w, ops[0]).ins.flat.book) {
        NeverInDebtIff(Step(w, ops[0]), ops[1..]);
      }
    }
  }

  lemma BooksOf(w: World)
    requires Inv(w)
    ensures Books(w.ins.flat.book)
  {
  }

  // ----- withdrawals -----

  lemma StakeWithinTotal(b: Book, a: Address)
    requires Books(b) && NoDebts(b)
    ensures GetOr(b.stakes, a, 0) <= b.total
  {
    TotalBounds(b.stakes);
    if a in b.stakes {
      TotalRemove(b.stakes, a);
      TotalBounds(b.stakes - {a});
    }
    hide Total;
  }

  /** A withdrawal that commits leaves the pool's total non-negative if and only if it fits into it;
      without negative stakes it always does. */
  lemma UnstakeWithinPool(w: World, a: Party, x: int)
    requires Inv(w) && Unstake(w.ins, a, x, w.now).Ok?
    ensures Unstake(w.ins, a, x, w.now).value.flat.book.total >= 0 <==> x <= w.ins.flat.book.total
    ensures NoDebts(w.ins.flat.book) ==> x <= w.ins.flat.book.total
  {
    hide Withdraw, Bank, Due;
    if NoDebts(w.ins.flat.book) {
      StakeWithinTotal(w.ins.flat.book, a);
    }
  }

  /** No withdrawal ever exceeds the pool on a run whose payouts and claims are all absorbed. */
  lemma {:induction false} AbsorbedRunsNeverOverdraw(w: World, ops: seq<Op>, a: Party, x: int)
    requires Inv(w) && NoDebts(w.ins.flat.book) && AllAbsorbed(w, ops)
    ensures var v := Run(w, ops);
            Unstake(v.ins, a, x, v.now).Ok? ==>
              x <= v.ins.flat.book.total && Unstake(v.ins, a, x, v.now).value.flat.book.total >= 0
    decreases |ops|
  {
    hide Unstake;
    NeverInDebtIff(w, ops);
    EndsWithoutDebt(w, ops);
    RunKeeps(w, ops);
    var v := Run(w, ops);
    if Unstake(v.ins, a, x, v.now).Ok? {
      UnstakeWithinPool(v, a, x);
    }
  }

  lemma {:induction false} EndsWithoutDebt(w: World, ops: seq<Op>)
    requires NeverInDebt(w, ops)
    ensures NoDebts(Run(w, ops).ins.flat.book)
    decreases |ops|
  {
    hide NoDebts, Step;
    if ops != [] {
      EndsWithoutDebt(Step(w, ops[0]), ops[1..]);
    }
  }
}
