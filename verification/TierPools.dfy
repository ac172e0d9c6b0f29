/** The three tier pools as a value. Stakes, yield checkpoints and reservations of all tiers live in
    shared maps whose keys carry the tier. */
module TierPools {
  import opened Base
  import opened Ledger
  import opened ProRata
  import FlatPool

  datatype Tier = Conservative | Balanced | Aggressive

  /** A staker's or an offer's entry in one tier. */
  datatype TierKey = TierKey(id: nat, tier: Tier)

  datatype PoolRecord = PoolRecord(balance: int, reserved: int, apy: nat, cap: nat)

  /** Principal and claims. */
  datatype Book = Book(
    pools: map<Tier, PoolRecord>,
    stakes: map<TierKey, int>,
    reserved: map<TierKey, int>,
    paid: map<TierKey, int>)

  /** Yield checkpoints. */
  datatype Clock = Clock(since: map<TierKey, Timestamp>, banked: map<TierKey, int>)

  datatype Tiers = Tiers(book: Book, clock: Clock)

  function Apy(tier: Tier): nat {
    match tier case Conservative => 200 case Balanced => 500 case Aggressive => 1_000
  }

  function Cap(tier: Tier): nat {
    match tier case Conservative => 5_000 case Balanced => 7_500 case Aggressive => 10_000
  }

  function PoolOf(b: Book, tier: Tier): PoolRecord {
    GetOr(b.pools, tier, PoolRecord(0, 0, Apy(tier), Cap(tier)))
  }

  function StakeOf(s: Tiers, k: TierKey): int { GetOr(s.book.stakes, k, 0) }

  /** The share of a request the tier covers. */
  function Covered(b: Book, tier: Tier, amount: int): int {
    TruncDiv(amount * PoolOf(b, tier).cap, FlatPool.BPS_DENOMINATOR)
  }

  function TierYield(principal: int, apy: nat, elapsed: nat): int {
    if principal == 0 || elapsed == 0 then 0
    else TruncDiv(principal * apy * elapsed, FlatPool.YIELD_DENOMINATOR)
  }

  function Earned(s: Tiers, k: TierKey, now: Timestamp): int {
    TierYield(StakeOf(s, k), PoolOf(s.book, k.tier).apy, SaturatingSub(now, GetOr(s.clock.since, k, now)))
  }

  function AccruedYield(s: Tiers, k: TierKey, now: Timestamp): int {
    GetOr(s.clock.banked, k, 0) + Earned(s, k, now)
  }

  function Bank(s: Tiers, k: TierKey, now: Timestamp): Clock {
    var earned := Earned(s, k, now);
    Clock(s.clock.since[k := now],
          if earned > 0 then s.clock.banked[k := GetOr(s.clock.banked, k, 0) + earned] else s.clock.banked)
  }

  function Due(s: Tiers, k: TierKey, now: Timestamp): int {
    GetOr(Bank(s, k, now).banked, k, 0)
  }

  function AddBalance(b: Book, tier: Tier, amount: int): map<Tier, PoolRecord> {
    b.pools[tier := PoolOf(b, tier).(balance := PoolOf(b, tier).balance + amount)]
  }

  function CreditBook(b: Book, k: TierKey, amount: int): Book {
    b.(stakes := b.stakes[k := GetOr(b.stakes, k, 0) + amount], pools := AddBalance(b, k.tier, amount))
  }

  function Credit(s: Tiers, k: TierKey, amount: int, now: Timestamp): Tiers {
    Tiers(CreditBook(s.book, k, amount),
          if StakeOf(s, k) > 0 then Bank(s, k, now) else s.clock.(since := s.clock.since[k := now]))
  }

  function DebitBook(b: Book, k: TierKey, amount: int): Book {
    var left := GetOr(b.stakes, k, 0) - amount;
    b.(stakes := if left == 0 then b.stakes - {k} else b.stakes[k := left], pools := AddBalance(b, k.tier, -amount))
  }

  function Debit(s: Tiers, k: TierKey, amount: int, now: Timestamp): Tiers {
    var c := Bank(s, k, now);
    Tiers(DebitBook(s.book, k, amount),
          if StakeOf(s, k) == amount then Clock(c.since - {k}, c.banked - {k})
          else c.(banked := c.banked[k := 0]))
  }

  function Stakers(b: Book, tier: Tier): set<nat> {
    set k | k in b.stakes && k.tier == tier :: k.id
  }

  lemma StakersAt(b: Book, tier: Tier, id: nat)
    ensures id in Stakers(b, tier) <==> TierKey(id, tier) in b.stakes
  {
    if TierKey(id, tier) in b.stakes {
      assert TierKey(id, tier).id in Stakers(b, tier);
    }
  }

  /** The keys of one tier, in the host's order: by staker. */
  function Keys(b: Book, tier: Tier): (keys: seq<TierKey>)
    ensures Covers(b.stakes, keys)
    ensures forall k :: k in keys <==> k in b.stakes && k.tier == tier
  {
    var ids := SortedKeys(Stakers(b, tier));
    var keys := seq(|ids|, i requires 0 <= i < |ids| => TierKey(ids[i], tier));
    assert forall k :: k in keys <==> k in b.stakes && k.tier == tier by {
      forall k ensures k in keys <==> k in b.stakes && k.tier == tier {
        StakersAt(b, tier, k.id);
        if k in b.stakes && k.tier == tier {
          var i :| 0 <= i < |ids| && ids[i] == k.id;
          assert keys[i] == k;
        }
        if k in keys {
          var i :| 0 <= i < |keys| && keys[i] == k;
          assert ids[i] in ids;
        }
      }
    }
    keys
  }

  function PayoutOf(b: Book, tier: Tier, amount: int): int {
    Min(Covered(b, tier, amount), PoolOf(b, tier).balance)
  }

  ghost function PayOut(b: Book, tier: Tier, payout: int): Book
    requires PoolOf(b, tier).balance > 0
  {
    b.(stakes := AfterPayout(b.stakes, Keys(b, tier), payout, PoolOf(b, tier).balance),
       pools := AddBalance(b, tier, -payout))
  }

  /** What a reservation request adds: the uncovered rest of the capped request, within the capacity
      of the tier that is not reserved yet. */
  function ReservableOf(b: Book, k: TierKey, amount: int): int {
    Min(Covered(b, k.tier, amount) - GetOr(b.reserved, k, 0),
        PoolOf(b, k.tier).balance - PoolOf(b, k.tier).reserved)
  }

  function AddReserve(b: Book, tier: Tier, amount: int): map<Tier, PoolRecord> {
    b.pools[tier := PoolOf(b, tier).(reserved := PoolOf(b, tier).reserved + amount)]
  }

  function Reserve(b: Book, k: TierKey, amount: int): Book {
    b.(reserved := b.reserved[k := GetOr(b.reserved, k, 0) + amount], pools := AddReserve(b, k.tier, amount))
  }

  function RemainingOf(b: Book, k: TierKey): int {
    GetOr(b.reserved, k, 0) - GetOr(b.paid, k, 0)
  }

  function ClaimableOf(b: Book, k: TierKey, amount: int): int {
    Min(Min(amount, RemainingOf(b, k)), PoolOf(b, k.tier).balance)
  }

  ghost function Claim(b: Book, k: TierKey, payout: int): Book
    requires PoolOf(b, k.tier).balance > 0
  {
    var g := PayOut(b, k.tier, payout);
    g.(paid := b.paid[k := GetOr(b.paid, k, 0) + payout], pools := AddReserve(g, k.tier, -payout))
  }

  // ----- the books of one tier -----

  ghost function OfTier(m: map<TierKey, int>, tier: Tier): map<TierKey, int> {
    map k | k in m && k.tier == tier :: m[k]
  }

  lemma OfTierSet(m: map<TierKey, int>, tier: Tier, k: TierKey, v: int)
    ensures Total(OfTier(m[k := v], tier))
         == Total(OfTier(m, tier)) + if k.tier == tier then v - GetOr(m, k, 0) else 0
  {
    if k.tier == tier {
      assert OfTier(m[k := v], tier) == OfTier(m, tier)[k := v];
      TotalSet(OfTier(m, tier), k, v);
    } else {
      assert OfTier(m[k := v], tier) == OfTier(m, tier);
    }
  }

  lemma OfTierRemove(m: map<TierKey, int>, tier: Tier, k: TierKey)
    ensures Total(OfTier(m - {k}, tier))
         == Total(OfTier(m, tier)) - if k.tier == tier then GetOr(m, k, 0) else 0
  {
    if k.tier == tier {
      assert OfTier(m - {k}, tier) == OfTier(m, tier) - {k};
      TotalRemove(OfTier(m, tier), k);
    } else {
      assert OfTier(m - {k}, tier) == OfTier(m, tier);
    }
  }

  /** Reductions over the keys of one tier can be computed within that tier, and leave the others. */
  lemma ReducedWithinTier(m: map<TierKey, int>, keys: seq<TierKey>, cuts: seq<int>, tier: Tier, other: Tier)
    requires |keys| == |cuts| && forall k :: k in keys ==> k in m && k.tier == tier
    ensures OfTier(Reduced(m, keys, cuts, |keys|), other)
         == if other == tier then Reduced(OfTier(m, tier), keys, cuts, |keys|) else OfTier(m, other)
  {
    assert keys[..|keys|] == keys;
    if other == tier {
      assert OfTier(Reduced(m, keys, cuts, |keys|), tier) == Reduced(OfTier(m, tier), keys, cuts, |keys|);
    } else {
      assert OfTier(Reduced(m, keys, cuts, |keys|), other) == OfTier(m, other);
    }
  }

  /** A payout touches the stakes of its own tier only, and takes exactly its amount from them. */
  lemma PayoutStaysInTier(b: Book, tier: Tier, payout: int, other: Tier)
    requires PoolOf(b, tier).balance > 0
    ensures other != tier ==> OfTier(PayOut(b, tier, payout).stakes, other) == OfTier(b.stakes, other)
    ensures Total(OfTier(PayOut(b, tier, payout).stakes, tier))
         == Total(OfTier(b.stakes, tier)) - if |Keys(b, tier)| > 0 then payout else 0
  {
    var keys, pool := Keys(b, tier), PoolOf(b, tier).balance;
    var own := OfTier(b.stakes, tier);
    assert Balances(own, keys) == Balances(b.stakes, keys);
    var cuts := Cuts(Balances(b.stakes, keys), payout, pool);
    ReducedWithinTier(b.stakes, keys, cuts, tier, other);
    ReducedWithinTier(b.stakes, keys, cuts, tier, tier);
    PayoutConserves(own, keys, payout, pool);
  }

  /** The books of a tier balance: its stakes make up its balance, its reserve is what its offers
      may still claim, no offer was paid more than it reserved, and its economics are the fixed ones. */
  ghost predicate TierBooks(b: Book, tier: Tier) {
    && Total(OfTier(b.stakes, tier)) == PoolOf(b, tier).balance
    && Total(OfTier(b.reserved, tier)) - Total(OfTier(b.paid, tier)) == PoolOf(b, tier).reserved
    && PoolOf(b, tier).apy == Apy(tier) && PoolOf(b, tier).cap == Cap(tier)
    && (forall k :: k in b.paid && k.tier == tier ==> k in b.reserved)
    && (forall k :: k in b.reserved && k.tier == tier ==> 0 <= GetOr(b.paid, k, 0) <= b.reserved[k])
  }

  ghost predicate Books(b: Book) {
    forall tier :: TierBooks(b, tier)
  }

  lemma EmptyBooks()
    ensures Books(Book(map[], map[], map[], map[]))
  {
    forall tier ensures TierBooks(Book(map[], map[], map[], map[]), tier) {
      assert OfTier(map[], tier) == map[];
    }
  }

  lemma CreditKeepsBooks(b: Book, k: TierKey, amount: int)
    requires Books(b)
    ensures Books(CreditBook(b, k, amount))
  {
    hide Total, OfTier;
    forall tier ensures TierBooks(CreditBook(b, k, amount), tier) {
      assert TierBooks(b, tier);
      OfTierSet(b.stakes, tier, k, GetOr(b.stakes, k, 0) + amount);
    }
  }

  lemma DebitKeepsBooks(b: Book, k: TierKey, amount: int)
    requires Books(b)
    ensures Books(DebitBook(b, k, amount))
  {
    hide Total, OfTier;
    forall tier ensures TierBooks(DebitBook(b, k, amount), tier) {
      assert TierBooks(b, tier);
      OfTierSet(b.stakes, tier, k, GetOr(b.stakes, k, 0) - amount);
      OfTierRemove(b.stakes, tier, k);
    }
  }

  /** A tier that holds funds has stakers, so its reductions always reach the payout. */
  lemma FundedTierHasStakers(b: Book, tier: Tier)
    requires TierBooks(b, tier) && |Keys(b, tier)| == 0
    ensures PoolOf(b, tier).balance == 0
  {
    assert forall k :: k in b.stakes && k.tier == tier ==> k in Keys(b, tier);
    assert OfTier(b.stakes, tier) == map[];
  }

  lemma PayOutKeepsBooks(b: Book, tier: Tier, payout: int)
    requires Books(b) && PoolOf(b, tier).balance > 0
    ensures Books(PayOut(b, tier, payout))
  {
    hide Total, AfterPayout;
    assert TierBooks(b, tier);
    if |Keys(b, tier)| == 0 {
      FundedTierHasStakers(b, tier);
    }
    forall other ensures TierBooks(PayOut(b, tier, payout), other) {
      assert TierBooks(b, other);
      PayoutStaysInTier(b, tier, payout, other);
    }
  }

  /** The part of the books that a reservation touches. */
  lemma ReserveTotals(b: Book, k: TierKey, amount: int, tier: Tier)
    ensures Total(OfTier(Reserve(b, k, amount).reserved, tier)) - PoolOf(Reserve(b, k, amount), tier).reserved
         == Total(OfTier(b.reserved, tier)) - PoolOf(b, tier).reserved
  {
    hide Total;
    OfTierSet(b.reserved, tier, k, GetOr(b.reserved, k, 0) + amount);
  }

  lemma ReserveInTier(b: Book, k: TierKey, amount: int, tier: Tier)
    requires TierBooks(b, tier) && amount >= 0
    ensures TierBooks(Reserve(b, k, amount), tier)
  {
    hide Total, OfTier;
    ReserveTotals(b, k, amount, tier);
    var g := Reserve(b, k, amount);
    assert g.paid == b.paid && g.stakes == b.stakes;
    assert PoolOf(g, tier).(reserved := 0) == PoolOf(b, tier).(reserved := 0);
  }

  lemma ReserveKeepsBooks(b: Book, k: TierKey, amount: int)
    requires Books(b) && amount >= 0
    ensures Books(Reserve(b, k, amount))
  {
    hide Total;
    forall tier ensures TierBooks(Reserve(b, k, amount), tier) {
      ReserveInTier(b, k, amount, tier);
    }
  }

  lemma RecordClaimInTier(b: Book, k: TierKey, payout: int, tier: Tier)
    requires TierBooks(b, tier) && 0 < payout <= RemainingOf(b, k)
    requires k in b.reserved
    ensures TierBooks(b.(paid := b.paid[k := GetOr(b.paid, k, 0) + payout], pools := AddReserve(b, k.tier, -payout)),
                      tier)
  {
    hide Total;
    var g := b.(paid := b.paid[k := GetOr(b.paid, k, 0) + payout], pools := AddReserve(b, k.tier, -payout));
    var delta := if k.tier == tier then payout else 0;
    OfTierSet(b.paid, tier, k, GetOr(b.paid, k, 0) + payout);
    assert Total(OfTier(g.paid, tier)) == Total(OfTier(b.paid, tier)) + delta;
    assert PoolOf(g, tier) == PoolOf(b, tier).(reserved := PoolOf(b, tier).reserved - delta);
    forall o | o in g.reserved && o.tier == tier
      ensures 0 <= GetOr(g.paid, o, 0) <= g.reserved[o]
    {
      assert 0 <= GetOr(b.paid, o, 0) <= b.reserved[o];
    }
  }

  /** A payout leaves the ledger of reservations alone. */
  lemma PayOutLeavesClaims(b: Book, tier: Tier, payout: int)
    requires PoolOf(b, tier).balance > 0
    ensures PayOut(b, tier, payout).reserved == b.reserved && PayOut(b, tier, payout).paid == b.paid
  {
  }

  /** A claim is a payout, recorded. */
  lemma ClaimIsRecordedPayout(b: Book, k: TierKey, payout: int)
    requires PoolOf(b, k.tier).balance > 0
    ensures var g := PayOut(b, k.tier, payout);
            Claim(b, k, payout)
              == g.(paid := g.paid[k := GetOr(g.paid, k, 0) + payout], pools := AddReserve(g, k.tier, -payout))
  {
    hide AfterPayout;
  }

  lemma ClaimKeepsBooks(b: Book, k: TierKey, payout: int)
    requires Books(b) && PoolOf(b, k.tier).balance > 0 && 0 < payout <= RemainingOf(b, k)
    ensures Books(Claim(b, k, payout))
  {
    hide Total, PayOut, AddReserve, AfterPayout;
    assert k in b.reserved by { assert TierBooks(b, k.tier); }
    hide TierBooks, PoolOf, Books;
    PayOutKeepsBooks(b, k.tier, payout);
    PayOutLeavesClaims(b, k.tier, payout);
    ClaimIsRecordedPayout(b, k, payout);
    RecordedKeepsBooks(b, PayOut(b, k.tier, payout), k, payout);
  }

  lemma RecordedKeepsBooks(b: Book, g: Book, k: TierKey, payout: int)
    requires Books(g) && k in b.reserved && 0 < payout <= RemainingOf(b, k) && g.reserved == b.reserved
             && g.paid == b.paid
    ensures Books(g.(paid := g.paid[k := GetOr(g.paid, k, 0) + payout], pools := AddReserve(g, k.tier, -payout)))
  {
    hide TierBooks, AddReserve;
    var h := g.(paid := g.paid[k := GetOr(g.paid, k, 0) + payout], pools := AddReserve(g, k.tier, -payout));
    forall tier ensures TierBooks(h, tier) {
      assert TierBooks(g, tier);
      RecordClaimInTier(g, k, payout, tier);
    }
  }
}
