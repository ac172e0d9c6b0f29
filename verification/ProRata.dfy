/** The pro-rata loss allocation shared by the four payout entry points of the insurance contract:
    every staker but the last gives up a rounded-down share, the last absorbs the remainder. */
module ProRata {
  import opened Base
  import opened Ledger

  /** What the i-th of the balances `b` gives up towards a payout `p` from a pool of size `t`. */
  ghost function Cut(b: seq<int>, p: int, t: int, i: nat): int
    requires t > 0 && i < |b|
    decreases i, 1
  {
    if i == |b| - 1 then p - Taken(b, p, t, i)
    else Min(TruncDiv(b[i] * p, t), p - Taken(b, p, t, i))
  }

  /** What the first i balances give up together. */
  ghost function Taken(b: seq<int>, p: int, t: int, i: nat): int
    requires t > 0 && i <= |b|
    decreases i, 0
  {
    if i == 0 then 0 else Taken(b, p, t, i - 1) + Cut(b, p, t, i - 1)
  }

  ghost function Sum(b: seq<int>, i: nat): int
    requires i <= |b|
  {
    if i == 0 then 0 else Sum(b, i - 1) + b[i - 1]
  }

  /** The units lost to rounding, in t-ths, over the first i shares. */
  ghost function Dust(b: seq<int>, p: int, t: int, i: nat): int
    requires t > 0 && i <= |b|
  {
    if i == 0 then 0 else Dust(b, p, t, i - 1) + (b[i - 1] * p) % t
  }

  /** A pool whose balances are non-negative and add up to its recorded size. */
  ghost predicate Sound(b: seq<int>, t: int) {
    && t > 0
    && (forall i :: 0 <= i < |b| ==> b[i] >= 0)
    && Sum(b, |b|) == t
  }

  lemma {:induction false} SumMonotonic(b: seq<int>, i: nat, j: nat)
    requires i <= j <= |b|
    requires forall k :: 0 <= k < |b| ==> b[k] >= 0
    ensures Sum(b, i) <= Sum(b, j)
    decreases j
  {
    if i < j {
      SumMonotonic(b, i, j - 1);
    }
  }

  lemma {:induction false} DustBounds(b: seq<int>, p: int, t: int, i: nat)
    requires t > 0 && i <= |b|
    ensures 0 <= Dust(b, p, t, i) <= i * (t - 1)
  {
    if i > 0 {
      DustBounds(b, p, t, i - 1);
      assert i * (t - 1) == (i - 1) * (t - 1) + (t - 1);
    }
  }

  lemma ScaleUp(x: int, y: int, p: int)
    requires x <= y && p >= 0
    ensures x * p <= y * p
  {
  }

  lemma CancelScale(x: int, y: int, t: int)
    requires t > 0 && x * t <= y * t
    ensures x <= y
  {
  }

  /** One more floored share: the books stay exact in t-ths. */
  lemma FloorStep(taken: int, sum: int, dust: int, x: int, p: int, t: int)
    requires t > 0 && taken * t == sum * p - dust
    ensures (taken + x * p / t) * t == (sum + x) * p - (dust + (x * p) % t)
  {
    var e := x * p;
    assert e / t * t == e - e % t;
    assert (sum + x) * p == sum * p + e;
    assert (taken + e / t) * t == taken * t + e / t * t;
  }

  lemma NeverOver(taken: int, sum: int, dust: int, p: int, t: int)
    requires t > 0 && p >= 0 && dust >= 0 && sum <= t
    requires taken * t == sum * p - dust
    ensures taken <= p
  {
    ScaleUp(sum, t, p);
    assert taken * t <= p * t;
    CancelScale(taken, p, t);
  }

  lemma FloorIsTrunc(x: int, p: int, t: int)
    requires x >= 0 && p >= 0 && t > 0
    ensures TruncDiv(x * p, t) == x * p / t
  {
  }

  /** As long as rounding down never overshoots, the amounts taken trail the exact shares by
      precisely the accumulated dust. */
  lemma {:induction false} TakenIsFloors(b: seq<int>, p: int, t: int, i: nat)
    requires Sound(b, t) && 0 <= p <= t && i < |b|
    ensures Taken(b, p, t, i) * t == Sum(b, i) * p - Dust(b, p, t, i)
    ensures Taken(b, p, t, i) <= p
    ensures forall k :: 0 <= k < i ==> Cut(b, p, t, k) == b[k] * p / t
  {
    if i > 0 {
      var j := i - 1;
      TakenIsFloors(b, p, t, j);
      var taken, sum, dust := Taken(b, p, t, j), Sum(b, j), Dust(b, p, t, j);
      FloorStep(taken, sum, dust, b[j], p, t);
      DustBounds(b, p, t, i);
      SumMonotonic(b, i, |b|);
      NeverOver(taken + b[j] * p / t, sum + b[j], dust + (b[j] * p) % t, p, t);
      FloorIsTrunc(b[j], p, t);
      assert Cut(b, p, t, j) == b[j] * p / t;
    }
  }

  /** Reductions add up to the payout whatever the balances are. */
  lemma TakenAll(b: seq<int>, p: int, t: int)
    requires t > 0 && |b| > 0
    ensures Taken(b, p, t, |b|) == p
  {
    assert Taken(b, p, t, |b|) == Taken(b, p, t, |b| - 1) + Cut(b, p, t, |b| - 1);
  }

  lemma LastShare(taken: int, sum: int, dust: int, x: int, p: int, t: int)
    requires taken * t == sum * p - dust && sum + x == t
    ensures (p - taken) * t == x * p + dust
  {
    assert (p - taken) * t == p * t - taken * t;
    assert p * t == sum * p + x * p;
  }

  /** The last staker pays its own exact share plus all the dust of the others. */
  lemma LastCut(b: seq<int>, p: int, t: int)
    requires Sound(b, t) && 0 <= p <= t && |b| > 0
    ensures Cut(b, p, t, |b| - 1) * t == b[|b| - 1] * p + Dust(b, p, t, |b| - 1)
  {
    var n := |b| - 1;
    TakenIsFloors(b, p, t, n);
    LastShare(Taken(b, p, t, n), Sum(b, n), Dust(b, p, t, n), b[n], p, t);
  }

  lemma LastBounds(last: int, exact: int, dust: int, n: nat, t: int)
    requires t > 0 && last * t == exact + dust && 0 <= dust <= n * (t - 1)
    ensures exact / t <= last <= exact / t + n
  {
    var q := exact / t;
    assert q * t <= exact < q * t + t;
    assert n * (t - 1) == n * t - n;
    assert (q + n + 1) * t == q * t + n * t + t;
    if last > q + n {
      ScaleUp(q + n + 1, last, t);
    }
    CancelScale(q, last, t);
  }

  /** The allocation of a sound pool: nobody but the last is ever clamped, the last overpays by at
      most one unit per other staker, and the pool loses exactly the payout. */
  lemma Allocation(b: seq<int>, p: int, t: int)
    requires Sound(b, t) && 0 <= p <= t && |b| > 0
    ensures forall i :: 0 <= i < |b| - 1 ==> Cut(b, p, t, i) == b[i] * p / t <= p - Taken(b, p, t, i)
    ensures b[|b| - 1] * p / t <= Cut(b, p, t, |b| - 1) <= b[|b| - 1] * p / t + (|b| - 1)
    ensures Taken(b, p, t, |b|) == p
  {
    var n := |b| - 1;
    TakenIsFloors(b, p, t, n);
    forall i | 0 <= i < n
      ensures Cut(b, p, t, i) == b[i] * p / t <= p - Taken(b, p, t, i)
    {
      TakenIsFloors(b, p, t, i + 1);
    }
    LastCut(b, p, t);
    DustBounds(b, p, t, n);
    LastBounds(Cut(b, p, t, n), b[n] * p, Dust(b, p, t, n), n, t);
    TakenAll(b, p, t);
  }

  /** When the last staker ends below zero: exactly when the dust of the others exceeds what its
      own balance leaves over. */
  lemma LastStaysNonNegative(b: seq<int>, p: int, t: int)
    requires Sound(b, t) && 0 <= p <= t && |b| > 0
    ensures b[|b| - 1] - Cut(b, p, t, |b| - 1) >= 0
       <==> Dust(b, p, t, |b| - 1) <= b[|b| - 1] * (t - p)
  {
    var n := |b| - 1;
    LastCut(b, p, t);
    var last := Cut(b, p, t, n);
    assert b[n] * (t - p) == b[n] * t - b[n] * p;
    if last <= b[n] {
      ScaleUp(last, b[n], t);
    } else {
      ScaleUp(b[n] + 1, last, t);
    }
  }

  /** Everybody but the last always stays non-negative; the last does whenever its balance outweighs
      one rounding unit per other staker. */
  lemma StaysNonNegative(b: seq<int>, p: int, t: int)
    requires Sound(b, t) && 0 <= p <= t && |b| > 0
    ensures forall i :: 0 <= i < |b| - 1 ==> 0 <= b[i] - Cut(b, p, t, i)
    ensures b[|b| - 1] * (t - p) >= (|b| - 1) * t ==> 0 <= b[|b| - 1] - Cut(b, p, t, |b| - 1)
  {
    Allocation(b, p, t);
    forall i | 0 <= i < |b| - 1
      ensures 0 <= b[i] - Cut(b, p, t, i)
    {
      ScaleUp(p, t, b[i]);
      CancelScale(b[i] * p / t, b[i], t);
    }
    DustBounds(b, p, t, |b| - 1);
    assert (|b| - 1) * (t - 1) == (|b| - 1) * t - (|b| - 1);
    LastStaysNonNegative(b, p, t);
  }

  /** A payout of the whole pool takes every balance entirely. */
  lemma FullPayoutEmptiesEveryone(b: seq<int>, t: int)
    requires Sound(b, t)
    ensures forall i :: 0 <= i < |b| ==> Cut(b, t, t, i) == b[i]
  {
    if |b| > 0 {
      var n := |b| - 1;
      TakenIsFloors(b, t, t, n);
      forall i | 0 <= i < n
        ensures Cut(b, t, t, i) == b[i]
      {
        ExactMultiple(b[i], t);
      }
      NoDust(b, t, n);
      LastCut(b, t, t);
      SameMultiple(Cut(b, t, t, n), b[n], t);
    }
  }

  lemma ExactMultiple(x: int, t: int)
    requires t > 0
    ensures x * t / t == x && (x * t) % t == 0
  {
    assert x * t == (x * t) / t * t + (x * t) % t;
    var q, r := (x * t) / t, (x * t) % t;
    assert (x - q) * t == r;
    if x > q { ScaleUp(1, x - q, t); }
    if x < q { ScaleUp(x - q, -1, t); }
  }

  lemma SameMultiple(x: int, y: int, t: int)
    requires t > 0 && x * t == y * t
    ensures x == y
  {
    CancelScale(x, y, t);
    CancelScale(y, x, t);
  }

  lemma {:induction false} NoDust(b: seq<int>, t: int, i: nat)
    requires t > 0 && i <= |b|
    ensures Dust(b, t, t, i) == 0
  {
    if i > 0 {
      NoDust(b, t, i - 1);
      ExactMultiple(b[i - 1], t);
    }
  }

  /** Three stakes of one unit and a payout of two leave the last staker at minus one. */
  lemma LastCanGoNegative()
    ensures Sound([1, 1, 1], 3)
    ensures 1 - Cut([1, 1, 1], 2, 3, 2) == -1
    ensures Cut([1, 1, 1], 2, 3, 0) == 0 && Cut([1, 1, 1], 2, 3, 1) == 0
  {
    var b := [1, 1, 1];
    assert Sum(b, 1) == 1 && Sum(b, 2) == 2 && Sum(b, 3) == 3;
    assert Taken(b, 2, 3, 1) == 0;
    assert Taken(b, 2, 3, 2) == 0;
  }

  // ----- the allocation on a stakes map -----

  ghost function Balances<K>(stakes: map<K, int>, keys: seq<K>): seq<int>
    requires forall k :: k in keys ==> k in stakes
  {
    seq(|keys|, i requires 0 <= i < |keys| => stakes[keys[i]])
  }

  ghost function Cuts(b: seq<int>, p: int, t: int): (cuts: seq<int>)
    requires t > 0
    ensures |cuts| == |b|
  {
    seq(|b|, i requires 0 <= i < |b| => Cut(b, p, t, i))
  }

  lemma {:induction false} CutsSum(b: seq<int>, p: int, t: int, i: nat)
    requires t > 0 && i <= |b|
    ensures Sum(Cuts(b, p, t), i) == Taken(b, p, t, i)
  {
    if i > 0 {
      CutsSum(b, p, t, i - 1);
    }
  }

  ghost predicate Covers<K>(stakes: map<K, int>, keys: seq<K>) {
    Distinct(keys) && forall k :: k in keys ==> k in stakes
  }

  ghost function IndexOf<K>(keys: seq<K>, k: K): (i: nat)
    requires k in keys
    ensures i < |keys| && keys[i] == k
  {
    var i :| 0 <= i < |keys| && keys[i] == k; i
  }

  /** The stakes once the first i keys have given up their cuts: the others are untouched, and a
      staker left with nothing is dropped. */
  ghost function Reduced<K>(stakes: map<K, int>, keys: seq<K>, cuts: seq<int>, i: nat): map<K, int>
    requires i <= |keys| == |cuts|
  {
    map k | k in stakes && (k in keys[..i] ==> stakes[k] != cuts[IndexOf(keys, k)])
      :: if k in keys[..i] then stakes[k] - cuts[IndexOf(keys, k)] else stakes[k]
  }

  lemma ReducedStep<K>(stakes: map<K, int>, keys: seq<K>, cuts: seq<int>, i: nat)
    requires i < |keys| == |cuts| && Covers(stakes, keys)
    ensures keys[i] in Reduced(stakes, keys, cuts, i)
    ensures Reduced(stakes, keys, cuts, i)[keys[i]] == stakes[keys[i]]
    ensures var left := stakes[keys[i]] - cuts[i];
            Reduced(stakes, keys, cuts, i + 1)
            == if left == 0 then Reduced(stakes, keys, cuts, i) - {keys[i]}
               else Reduced(stakes, keys, cuts, i)[keys[i] := left]
  {
    assert keys[..i + 1] == keys[..i] + [keys[i]];
    assert keys[i] !in keys[..i];
    assert IndexOf(keys, keys[i]) == i;
  }

  lemma ReducedNone<K>(stakes: map<K, int>, keys: seq<K>, cuts: seq<int>)
    requires |keys| == |cuts|
    ensures Reduced(stakes, keys, cuts, 0) == stakes
  {
  }

  /** Allocation conserves value: the stakes lose exactly what was taken. */
  lemma {:induction false} ReducedTotal<K>(stakes: map<K, int>, keys: seq<K>, cuts: seq<int>, i: nat)
    requires i <= |keys| == |cuts| && Covers(stakes, keys)
    ensures Total(Reduced(stakes, keys, cuts, i)) == Total(stakes) - Sum(cuts, i)
  {
    hide Total, Reduced;
    if i == 0 {
      ReducedNone(stakes, keys, cuts);
    } else {
      ReducedTotal(stakes, keys, cuts, i - 1);
      ReducedStep(stakes, keys, cuts, i - 1);
      var before, k := Reduced(stakes, keys, cuts, i - 1), keys[i - 1];
      TotalSet(before, k, stakes[k] - cuts[i - 1]);
      TotalRemove(before, k);
    }
  }

  /** The stakes after a payout of `p` from a pool of size `t`, allocated over `keys` in order. */
  ghost function AfterPayout<K>(stakes: map<K, int>, keys: seq<K>, p: int, t: int): map<K, int>
    requires t > 0 && Covers(stakes, keys)
  {
    Reduced(stakes, keys, Cuts(Balances(stakes, keys), p, t), |keys|)
  }

  /** A payout over at least one staker removes exactly its amount from the stakes, even from stakes
      that rounding has made negative. */
  lemma PayoutConserves<K>(stakes: map<K, int>, keys: seq<K>, p: int, t: int)
    requires t > 0 && Covers(stakes, keys)
    ensures Total(AfterPayout(stakes, keys, p, t)) == Total(stakes) - if |keys| > 0 then p else 0
  {
    var b := Balances(stakes, keys);
    ReducedTotal(stakes, keys, Cuts(b, p, t), |keys|);
    CutsSum(b, p, t, |keys|);
    if |keys| > 0 {
      TakenAll(b, p, t);
    }
  }

  /** Each listed staker keeps what its cut leaves; the others keep everything. */
  lemma AfterPayoutAt<K>(stakes: map<K, int>, keys: seq<K>, p: int, t: int)
    requires t > 0 && Covers(stakes, keys)
    ensures forall i :: 0 <= i < |keys| ==>
              GetOr(AfterPayout(stakes, keys, p, t), keys[i], 0)
              == stakes[keys[i]] - Cut(Balances(stakes, keys), p, t, i)
    ensures forall k :: k !in keys ==> GetOr(AfterPayout(stakes, keys, p, t), k, 0) == GetOr(stakes, k, 0)
  {
    var cuts := Cuts(Balances(stakes, keys), p, t);
    assert keys[..|keys|] == keys;
    forall i | 0 <= i < |keys|
      ensures GetOr(AfterPayout(stakes, keys, p, t), keys[i], 0) == stakes[keys[i]] - cuts[i]
    {
      assert IndexOf(keys, keys[i]) == i;
    }
  }

  /** The loop of `pay_out`, `claim_payout` and their tier versions. */
  method AllocateLoss<K(==)>(stakes: map<K, int>, keys: seq<K>, payout: int, pool: int)
    returns (left: map<K, int>, reductions: int)
    requires pool > 0 && Covers(stakes, keys)
    ensures left == AfterPayout(stakes, keys, payout, pool)
    ensures reductions == if |keys| > 0 then payout else 0
  {
    ghost var b := Balances(stakes, keys);
    ghost var cuts := Cuts(b, payout, pool);
    left, reductions := stakes, 0;
    assert left == Reduced(stakes, keys, cuts, 0);
    for i := 0 to |keys|
      invariant left == Reduced(stakes, keys, cuts, i)
      invariant reductions == Taken(b, payout, pool, i)
    {
      ReducedStep(stakes, keys, cuts, i);
      var balance := left[keys[i]];
      var reduction := if i == |keys| - 1 then payout - reductions
                       else Min(TruncDiv(balance * payout, pool), payout - reductions);
      assert reduction == cuts[i];
      if balance - reduction == 0 {
        left := left - {keys[i]};
      } else {
        left := left[keys[i] := balance - reduction];
      }
      reductions := reductions + reduction;
    }
    if |keys| > 0 {
      TakenAll(b, payout, pool);
    }
  }

  /** The entries of the stakes listed by the first i keys. */
  ghost function Listed<K>(stakes: map<K, int>, keys: seq<K>, i: nat): map<K, int>
    requires i <= |keys|
  {
    map k | k in stakes && k in keys[..i] :: stakes[k]
  }

  /** The balances listed by distinct keys add up to the total of the map they cover. */
  lemma {:induction false} SumIsTotal<K>(stakes: map<K, int>, keys: seq<K>, i: nat)
    requires i <= |keys| && Covers(stakes, keys)
    ensures Sum(Balances(stakes, keys), i) == Total(Listed(stakes, keys, i))
  {
    hide Listed, Balances, Covers;
    if i == 0 {
      ListedNone(stakes, keys);
    } else {
      SumIsTotal(stakes, keys, i - 1);
      ListedStep(stakes, keys, i - 1);
      TotalPick(Listed(stakes, keys, i), keys[i - 1]);
    }
  }

  lemma ListedNone<K>(stakes: map<K, int>, keys: seq<K>)
    requires Covers(stakes, keys)
    ensures Listed(stakes, keys, 0) == map[]
  {
  }

  lemma ListedStep<K>(stakes: map<K, int>, keys: seq<K>, i: nat)
    requires i < |keys| && Covers(stakes, keys)
    ensures keys[i] in Listed(stakes, keys, i + 1)
    ensures Listed(stakes, keys, i + 1)[keys[i]] == Balances(stakes, keys)[i]
    ensures Listed(stakes, keys, i + 1) - {keys[i]} == Listed(stakes, keys, i)
  {
    assert keys[..i + 1] == keys[..i] + [keys[i]];
    assert keys[i] !in keys[..i];
  }
}
