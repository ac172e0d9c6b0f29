/** The flat insurance pool as a value: stakes, yield checkpoints, and the reservation ledger. */
module FlatPool {
  import opened Base
  import opened Ledger
  import opened ProRata

  const MIN_STAKE_AMOUNT: int := 1_000_000
  const SECONDS_PER_YEAR: int := 31_536_000
  const BPS_DENOMINATOR: int := 10_000
  const YIELD_DENOMINATOR: int := SECONDS_PER_YEAR * BPS_DENOMINATOR

  /** Principal and claims. */
  datatype Book = Book(
    stakes: map<Address, int>,
    total: int,
    outstanding: int,
    reserved: map<Symbol, int>,
    paid: map<Symbol, int>)

  /** Yield: the last checkpoint of each staker and what had accrued by then. */
  datatype Clock = Clock(since: map<Address, Timestamp>, banked: map<Address, int>, rate: nat)

  datatype Flat = Flat(book: Book, clock: Clock)

  function StakeOf(f: Flat, a: Address): int { GetOr(f.book.stakes, a, 0) }

  function ComputeYield(principal: int, rate: nat, elapsed: nat): int {
    if principal == 0 || rate == 0 || elapsed == 0 then 0
    else TruncDiv(principal * elapsed * rate, YIELD_DENOMINATOR)
  }

  function Elapsed(f: Flat, a: Address, now: Timestamp): nat {
    SaturatingSub(now, GetOr(f.clock.since, a, now))
  }

  /** Yield earned since the staker's checkpoint and not banked yet. */
  function Earned(f: Flat, a: Address, now: Timestamp): int {
    ComputeYield(StakeOf(f, a), f.clock.rate, Elapsed(f, a, now))
  }

  function Bank(f: Flat, a: Address, now: Timestamp): Clock {
    if StakeOf(f, a) == 0 then f.clock
    else
      var earned := Earned(f, a, now);
      f.clock.(banked := if earned > 0 then f.clock.banked[a := GetOr(f.clock.banked, a, 0) + earned]
                         else f.clock.banked,
               since := f.clock.since[a := now])
  }

  function AccruedYield(f: Flat, a: Address, now: Timestamp): int {
    GetOr(f.clock.banked, a, 0) + Earned(f, a, now)
  }

  /** The yield a withdrawal pays out. */
  function Due(f: Flat, a: Address, now: Timestamp): int {
    GetOr(Bank(f, a, now).banked, a, 0)
  }

  function CreditBook(book: Book, a: Address, amount: int): Book {
    book.(stakes := book.stakes[a := GetOr(book.stakes, a, 0) + amount], total := book.total + amount)
  }

  function Credit(f: Flat, a: Address, amount: int, now: Timestamp): Flat {
    Flat(CreditBook(f.book, a, amount),
         if StakeOf(f, a) > 0 then Bank(f, a, now) else f.clock.(since := f.clock.since[a := now]))
  }

  function DebitBook(book: Book, a: Address, amount: int): Book {
    var left := GetOr(book.stakes, a, 0) - amount;
    book.(stakes := if left == 0 then book.stakes - {a} else book.stakes[a := left], total := book.total - amount)
  }

  function Debit(f: Flat, a: Address, amount: int, now: Timestamp): Flat {
    var c := Bank(f, a, now);
    Flat(DebitBook(f.book, a, amount),
         if StakeOf(f, a) == amount then c.(since := c.since - {a}, banked := c.banked - {a})
         else c.(banked := c.banked[a := 0]))
  }

  ghost function Checkpointed(f: Flat, done: set<Address>, now: Timestamp): map<Address, Timestamp> {
    map a | a in f.clock.since.Keys + done && (a in f.clock.since || StakeOf(f, a) != 0)
      :: if a in done && StakeOf(f, a) != 0 then now else f.clock.since[a]
  }

  ghost function Credited(f: Flat, done: set<Address>, now: Timestamp): map<Address, int> {
    map a | a in f.clock.banked.Keys + done && (a in f.clock.banked || Earned(f, a, now) > 0)
      :: GetOr(f.clock.banked, a, 0) + if a in done && Earned(f, a, now) > 0 then Earned(f, a, now) else 0
  }

  /** Every staker in `done` checkpointed at `now`. */
  ghost function BankAll(f: Flat, done: set<Address>, now: Timestamp): Flat {
    f.(clock := f.clock.(since := Checkpointed(f, done, now), banked := Credited(f, done, now)))
  }

  lemma BankNobody(f: Flat, now: Timestamp)
    ensures BankAll(f, {}, now) == f
  {
    assert Checkpointed(f, {}, now) == f.clock.since;
    assert Credited(f, {}, now) == f.clock.banked;
  }

  lemma CheckpointedStep(f: Flat, done: set<Address>, a: Address, now: Timestamp)
    requires a !in done
    ensures GetOr(Checkpointed(f, done, now), a, now) == GetOr(f.clock.since, a, now)
    ensures Checkpointed(f, done + {a}, now)
         == if StakeOf(f, a) == 0 then Checkpointed(f, done, now) else Checkpointed(f, done, now)[a := now]
  {
  }

  lemma CreditedStep(f: Flat, done: set<Address>, a: Address, now: Timestamp)
    requires a !in done
    ensures GetOr(Credited(f, done, now), a, 0) == GetOr(f.clock.banked, a, 0)
    ensures Credited(f, done + {a}, now)
         == if Earned(f, a, now) > 0 then Credited(f, done, now)[a := GetOr(f.clock.banked, a, 0) + Earned(f, a, now)]
            else Credited(f, done, now)
  {
    var earned := Earned(f, a, now);
    var next, prior := Credited(f, done + {a}, now), Credited(f, done, now);
    if earned > 0 {
      assert next == prior[a := GetOr(f.clock.banked, a, 0) + earned];
    } else {
      assert next == prior;
    }
  }

  lemma BankAllStep(f: Flat, done: set<Address>, a: Address, now: Timestamp)
    requires a !in done
    ensures BankAll(f, done + {a}, now) == BankAll(f, done, now).(clock := Bank(BankAll(f, done, now), a, now))
  {
    CheckpointedStep(f, done, a, now);
    CreditedStep(f, done, a, now);
    assert Earned(BankAll(f, done, now), a, now) == Earned(f, a, now);
  }

  ghost function SetRate(f: Flat, rate: nat, now: Timestamp): Flat {
    f.(clock := BankAll(f, f.book.stakes.Keys, now).clock.(rate := rate))
  }

  /** A change of the yield rate is prospective: what each staker has accrued at that instant does
      not move -- as long as rounding has not driven the staker's principal so far below zero that
      it accrues a whole negative unit, which banking would forget. */
  lemma RateChangeIsProspective(f: Flat, rate: nat, a: Address, now: Timestamp)
    ensures AccruedYield(SetRate(f, rate, now), a, now) == AccruedYield(f, a, now)
       <==> StakeOf(f, a) * Elapsed(f, a, now) * f.clock.rate > -YIELD_DENOMINATOR
  {
    var g := SetRate(f, rate, now);
    var principal := StakeOf(f, a);
    assert Earned(g, a, now) == 0;
    if principal == 0 {
      assert a !in f.book.stakes || f.book.stakes[a] == 0;
      assert GetOr(g.clock.banked, a, 0) == GetOr(f.clock.banked, a, 0);
    } else {
      assert GetOr(g.clock.banked, a, 0) == GetOr(f.clock.banked, a, 0) + Max(Earned(f, a, now), 0);
    }
    EarnedSign(principal, f.clock.rate, Elapsed(f, a, now));
  }

  lemma EarnedSign(principal: int, rate: nat, elapsed: nat)
    ensures ComputeYield(principal, rate, elapsed) >= 0
       <==> principal * elapsed * rate > -YIELD_DENOMINATOR
  {
    var n := principal * elapsed * rate;
    if principal == 0 || rate == 0 || elapsed == 0 {
      assert n == 0;
    }
  }

  /** A top-up never rewrites history either. */
  lemma TopUpIsProspective(f: Flat, a: Address, amount: int, now: Timestamp)
    ensures AccruedYield(Credit(f, a, amount, now), a, now) == AccruedYield(f, a, now)
       <==> StakeOf(f, a) * Elapsed(f, a, now) * f.clock.rate > -YIELD_DENOMINATOR
    ensures forall b :: b != a ==> AccruedYield(Credit(f, a, amount, now), b, now) == AccruedYield(f, b, now)
  {
    var g := Credit(f, a, amount, now);
    var principal, earned := StakeOf(f, a), Earned(f, a, now);
    assert Elapsed(g, a, now) == 0 && Earned(g, a, now) == 0;
    EarnedSign(principal, f.clock.rate, Elapsed(f, a, now));
    assert principal > 0 ==> earned >= 0 && GetOr(g.clock.banked, a, 0) == GetOr(f.clock.banked, a, 0) + earned;
    assert principal == 0 ==> earned == 0;
    if principal < 0 {
      LossIsNegative(principal, f.clock.rate, Elapsed(f, a, now));
    }
  }

  lemma LossIsNegative(principal: int, rate: nat, elapsed: nat)
    requires principal < 0
    ensures ComputeYield(principal, rate, elapsed) <= 0
  {
    assert principal * elapsed <= 0;
    assert principal * elapsed * rate <= 0;
  }

  // ----- payouts and reservations -----

  function Keys(b: Book): (keys: seq<Address>)
    ensures Covers(b.stakes, keys)
    ensures forall k :: k in keys <==> k in b.stakes
  {
    SortedKeys(b.stakes.Keys)
  }

  /** What the pool can pay towards a default. */
  function PayoutOf(b: Book, amount: int): int { Min(amount, b.total) }

  ghost function PayOut(b: Book, payout: int): Book
    requires b.total > 0
  {
    b.(stakes := AfterPayout(b.stakes, Keys(b), payout, b.total), total := b.total - payout)
  }

  function ReservableOf(b: Book, amount: int): int { Min(amount, b.total - b.outstanding) }

  function Reserve(b: Book, offer: Symbol, amount: int): Book {
    b.(reserved := b.reserved[offer := GetOr(b.reserved, offer, 0) + amount],
       outstanding := b.outstanding + amount)
  }

  /** What is still locked for an offer. */
  function RemainingOf(b: Book, offer: Symbol): int {
    GetOr(b.reserved, offer, 0) - GetOr(b.paid, offer, 0)
  }

  function ClaimableOf(b: Book, offer: Symbol, amount: int): int {
    Min(Min(amount, RemainingOf(b, offer)), b.total - (b.outstanding - RemainingOf(b, offer)))
  }

  ghost function Claim(b: Book, offer: Symbol, payout: int): Book
    requires b.total > 0
  {
    PayOut(b, payout).(paid := b.paid[offer := GetOr(b.paid, offer, 0) + payout],
                       outstanding := b.outstanding - payout)
  }

  /** The books balance: stakes make up the pool total, the outstanding sum is what the offers may
      still claim, and no offer was paid more than it reserved. */
  ghost predicate Books(b: Book) {
    && Total(b.stakes) == b.total
    && Total(b.reserved) - Total(b.paid) == b.outstanding
    && (forall o :: o in b.paid ==> o in b.reserved)
    && (forall o :: o in b.reserved ==> 0 <= GetOr(b.paid, o, 0) <= b.reserved[o])
  }

  lemma EmptyBooks()
    ensures Books(Book(map[], 0, 0, map[], map[]))
  {
  }

  lemma CreditKeepsBooks(b: Book, a: Address, amount: int)
    requires Books(b)
    ensures Books(CreditBook(b, a, amount))
  {
    hide Total;
    TotalSet(b.stakes, a, GetOr(b.stakes, a, 0) + amount);
  }

  lemma DebitKeepsBooks(b: Book, a: Address, amount: int)
    requires Books(b)
    ensures Books(DebitBook(b, a, amount))
  {
    hide Total;
    TotalSet(b.stakes, a, GetOr(b.stakes, a, 0) - amount);
    TotalRemove(b.stakes, a);
  }

  /** A pool that holds funds has stakers to share a loss among. */
  lemma FundedPoolHasStakers(b: Book)
    requires Books(b) && |Keys(b)| == 0
    ensures b.total == 0
  {
    assert forall k :: k in b.stakes ==> k in Keys(b);
    assert b.stakes == map[];
  }

  lemma PayOutKeepsBooks(b: Book, payout: int)
    requires Books(b) && b.total > 0
    ensures Books(PayOut(b, payout))
  {
    hide Total, AfterPayout;
    PayoutConserves(b.stakes, Keys(b), payout, b.total);
    if |Keys(b)| == 0 {
      FundedPoolHasStakers(b);
    }
  }

  /** The stakes of a pool without negative entries, as the allocation sees them. */
  ghost predicate Healthy(b: Book) {
    Books(b) && b.total > 0 && forall a :: a in b.stakes ==> b.stakes[a] >= 0
  }

  lemma HealthyIsSound(b: Book)
    requires Healthy(b)
    ensures Sound(Balances(b.stakes, Keys(b)), b.total) && |Keys(b)| > 0
  {
    hide Total;
    var keys := Keys(b);
    SumIsTotal(b.stakes, keys, |keys|);
    assert Listed(b.stakes, keys, |keys|) == b.stakes by { assert keys[..|keys|] == keys; }
    if |keys| == 0 {
      FundedPoolHasStakers(b);
    }
  }

  /** A payout from a healthy pool, staker by staker: in the host's order everybody but the last
      loses exactly its rounded-down share, the last at least that and at most one unit per other
      staker more. */
  lemma PayoutShares(b: Book, p: int)
    requires Healthy(b) && 0 < p <= b.total
    ensures |Keys(b)| > 0
    ensures forall i :: 0 <= i < |Keys(b)| - 1 ==>
              var a := Keys(b)[i];
              GetOr(PayOut(b, p).stakes, a, 0) == b.stakes[a] - b.stakes[a] * p / b.total >= 0
    ensures var last := Keys(b)[|Keys(b)| - 1];
            var loss := b.stakes[last] - GetOr(PayOut(b, p).stakes, last, 0);
            b.stakes[last] * p / b.total <= loss <= b.stakes[last] * p / b.total + |Keys(b)| - 1
  {
    hide Cut, Taken, Dust, AfterPayout, Books;
    HealthyIsSound(b);
    var keys := Keys(b);
    var bal := Balances(b.stakes, keys);
    AfterPayoutAt(b.stakes, keys, p, b.total);
    Allocation(bal, p, b.total);
    StaysNonNegative(bal, p, b.total);
    assert forall i :: 0 <= i < |keys| ==> bal[i] == b.stakes[keys[i]];
  }

  lemma OthersStayNonNegative(b: Book, p: int, a: Address)
    requires Healthy(b) && 0 < p <= b.total && a in PayOut(b, p).stakes
    ensures |Keys(b)| > 0
    ensures a == Keys(b)[|Keys(b)| - 1] || PayOut(b, p).stakes[a] >= 0
  {
    hide Cut, Taken, Dust, AfterPayout, Books;
    HealthyIsSound(b);
    OnlyStakersRemain(b, p, a);
    var i := IndexOf(Keys(b), a);
    AfterPayoutAt(b.stakes, Keys(b), p, b.total);
    StaysNonNegative(Balances(b.stakes, Keys(b)), p, b.total);
    assert Balances(b.stakes, Keys(b))[i] == b.stakes[a];
  }

  /** When a payout leaves no staker below zero: exactly when the last staker's balance can absorb
      the rounding dust of the others. */
  lemma PayoutStaysHealthy(b: Book, p: int)
    requires Healthy(b) && 0 < p <= b.total
    ensures |Keys(b)| > 0
    ensures (forall a :: a in PayOut(b, p).stakes ==> PayOut(b, p).stakes[a] >= 0)
       <==> Dust(Balances(b.stakes, Keys(b)), p, b.total, |Keys(b)| - 1)
            <= b.stakes[Keys(b)[|Keys(b)| - 1]] * (b.total - p)
  {
    hide Cut, Taken, Dust, AfterPayout, Books;
    HealthyIsSound(b);
    var keys, after := Keys(b), PayOut(b, p).stakes;
    var bal, n := Balances(b.stakes, keys), |keys| - 1;
    AfterPayoutAt(b.stakes, keys, p, b.total);
    LastStaysNonNegative(bal, p, b.total);
    assert bal[n] == b.stakes[keys[n]];
    forall a | a in after && a != keys[n]
      ensures after[a] >= 0
    {
      OthersStayNonNegative(b, p, a);
    }
    assert GetOr(after, keys[n], 0) == bal[n] - Cut(bal, p, b.total, n);
    assert GetOr(after, keys[n], 0) < 0 ==> keys[n] in after && after[keys[n]] < 0;
  }

  lemma OnlyStakersRemain(b: Book, p: int, a: Address)
    requires b.total > 0 && a in PayOut(b, p).stakes
    ensures a in Keys(b)
  {
  }

  /** Paying out the whole pool leaves no stake at all. */
  lemma FullPayoutClearsThePool(b: Book)
    requires Healthy(b)
    ensures PayOut(b, b.total).stakes == map[] && PayOut(b, b.total).total == 0
  {
    HealthyIsSound(b);
    var keys := Keys(b);
    FullPayoutEmptiesEveryone(Balances(b.stakes, keys), b.total);
    assert keys[..|keys|] == keys;
    forall a ensures a !in PayOut(b, b.total).stakes {
      if a in b.stakes {
        var i := IndexOf(keys, a);
        assert Balances(b.stakes, keys)[i] == b.stakes[a];
      }
    }
  }

  lemma ReserveKeepsBooks(b: Book, offer: Symbol, amount: int)
    requires Books(b) && amount >= 0
    ensures Books(Reserve(b, offer, amount))
  {
    hide Total;
    TotalSet(b.reserved, offer, GetOr(b.reserved, offer, 0) + amount);
  }

  /** What all other offers together may still claim is never negative. */
  lemma OthersOutstanding(b: Book, offer: Symbol)
    requires Books(b)
    ensures b.outstanding - RemainingOf(b, offer) >= 0
  {
    var open := Remaining(b);
    RemainingTotal(b, b.reserved.Keys);
    assert forall o :: o in open ==> open[o] == RemainingOf(b, o) >= 0;
    TotalBounds(open);
  }

  /** What each offer may still claim. */
  ghost function Remaining(b: Book): map<Symbol, int> {
    map o | o in b.reserved :: RemainingOf(b, o)
  }

  ghost function Only(m: map<Symbol, int>, s: set<Symbol>): map<Symbol, int> {
    map o | o in m && o in s :: m[o]
  }

  lemma {:induction false} RemainingTotal(b: Book, s: set<Symbol>)
    requires Books(b) && s == b.reserved.Keys
    ensures Total(Remaining(b)) == b.outstanding
  {
    RemainingOver(b, s);
    assert Only(b.reserved, s) == b.reserved && Only(b.paid, s) == b.paid && Only(Remaining(b), s) == Remaining(b);
  }

  lemma {:induction false} RemainingOver(b: Book, s: set<Symbol>)
    requires Books(b) && s <= b.reserved.Keys
    ensures Total(Only(Remaining(b), s)) == Total(Only(b.reserved, s)) - Total(Only(b.paid, s))
  {
    if s == {} {
      assert Only(b.reserved, s) == map[] && Only(b.paid, s) == map[] && Only(Remaining(b), s) == map[];
    } else {
      var o :| o in s;
      RemainingOver(b, s - {o});
      TakeOut(b.reserved, s, o);
      TakeOut(b.paid, s, o);
      TakeOut(Remaining(b), s, o);
    }
  }

  lemma TakeOut(m: map<Symbol, int>, s: set<Symbol>, o: Symbol)
    requires o in s
    ensures Total(Only(m, s)) == Total(Only(m, s - {o})) + GetOr(m, o, 0)
  {
    assert Only(m, s) - {o} == Only(m, s - {o});
    TotalRemove(Only(m, s), o);
  }

  lemma ClaimKeepsBooks(b: Book, offer: Symbol, payout: int)
    requires Books(b) && b.total > 0 && 0 < payout <= RemainingOf(b, offer)
    ensures Books(Claim(b, offer, payout))
  {
    hide Total, AfterPayout;
    PayOutKeepsBooks(b, payout);
    TotalSet(b.paid, offer, GetOr(b.paid, offer, 0) + payout);
  }

  /** A paying claim never eats into what other offers have reserved: the pool that remains still
      covers all of them, and none of their entries moves. */
  lemma ClaimSparesOtherOffers(b: Book, offer: Symbol, amount: int)
    requires Books(b) && ClaimableOf(b, offer, amount) > 0
    ensures var payout := ClaimableOf(b, offer, amount);
            && 0 < payout <= b.total
            && var after := Claim(b, offer, payout);
               && after.total >= after.outstanding - RemainingOf(after, offer)
               && forall o :: o != offer ==> RemainingOf(after, o) == RemainingOf(b, o)
  {
    OthersOutstanding(b, offer);
  }

  /** While every reservation is covered by the pool, a claim pays in full. */
  lemma CoveredClaimPaysInFull(b: Book, offer: Symbol, amount: int)
    requires b.outstanding <= b.total
    ensures ClaimableOf(b, offer, amount) == Min(amount, RemainingOf(b, offer))
  {
  }
}
