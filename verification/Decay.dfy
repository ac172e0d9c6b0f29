/** Reputation records and their step decay. */
module Decay {
  import opened Base

  const HALF_LIFE: nat := 7_776_000

  datatype Record = Record(repayments: nat, defaults: nat, weightedRepayments: int, weightedDefaults: int,
                           last: Timestamp)

  const BLANK: Record := Record(0, 0, 0, 0, 0)

  function Score(r: Record): int { Max(r.weightedRepayments - r.weightedDefaults, 0) }

  function Halve(w: int, n: nat): int {
    if n == 0 then w else TruncDiv(Halve(w, n - 1), 2)
  }

  function Pow2(n: nat): (p: nat)
    ensures p > 0
  {
    if n == 0 then 1 else 2 * Pow2(n - 1)
  }

  /** The full half-lives elapsed since the last recompute; a record never recomputed has none. */
  function Halvings(r: Record, now: Timestamp): nat {
    if now > r.last && r.last > 0 then (now - r.last) / HALF_LIFE else 0
  }

  function Decayed(r: Record, now: Timestamp): Record {
    var n := Halvings(r, now);
    r.(weightedRepayments := Halve(r.weightedRepayments, n), weightedDefaults := Halve(r.weightedDefaults, n),
       last := now)
  }

  /** The decay loop. */
  method ApplyPendingDecay(r: Record, now: Timestamp) returns (d: Record)
    ensures d == Decayed(r, now)
  {
    d := r;
    if now > r.last && r.last > 0 {
      var elapsed := now - r.last;
      ghost var n := 0;
      while elapsed >= HALF_LIFE
        invariant elapsed >= 0 && elapsed + n * HALF_LIFE == now - r.last
        invariant d
                  == r.(weightedRepayments := Halve(r.weightedRepayments, n),
                        weightedDefaults := Halve(r.weightedDefaults, n))
      {
        d := d.(weightedRepayments := TruncDiv(d.weightedRepayments, 2),
                weightedDefaults := TruncDiv(d.weightedDefaults, 2));
        elapsed := elapsed - HALF_LIFE;
        n := n + 1;
      }
      UniqueQuotient(now - r.last, HALF_LIFE, n, elapsed);
    }
    d := d.(last := now);
  }

  /** Halving n times is one floor division by two to the n. */
  lemma {:induction false} HalveIsDivision(w: int, n: nat)
    requires w >= 0
    ensures Halve(w, n) == w / Pow2(n) && 0 <= Halve(w, n) <= w
  {
    if n > 0 {
      HalveIsDivision(w, n - 1);
      NestedDivision(w, Pow2(n - 1));
    }
  }

  lemma NestedDivision(w: int, p: nat)
    requires w >= 0 && p > 0
    ensures w / p / 2 == w / (2 * p)
  {
    var q, r := w / p, w % p;
    var h, o := q / 2, q % 2;
    Regroup(w, p, q, r, h, o);
    UniqueQuotient(w, 2 * p, h, o * p + r);
  }

  lemma Regroup(w: int, p: nat, q: int, r: int, h: int, o: int)
    requires w == q * p + r && 0 <= r < p && q == 2 * h + o && 0 <= o <= 1
    ensures w == h * (2 * p) + (o * p + r) && 0 <= o * p + r < 2 * p
  {
    assert q * p == (2 * h) * p + o * p;
    assert o * p == if o == 0 then 0 else p;
  }

  lemma AtLeastOnce(x: int, d: int)
    requires x >= 1 && d > 0
    ensures x * d >= d
  {
  }

  lemma UniqueQuotient(w: int, d: int, q: int, r: int)
    requires d > 0 && w == q * d + r && 0 <= r < d
    ensures w / d == q
  {
    var k, s := w / d, w % d;
    assert (k - q) * d == k * d - q * d == r - s;
    assert (q - k) * d == q * d - k * d == s - r;
    if k > q { AtLeastOnce(k - q, d); }
    if k < q { AtLeastOnce(q - k, d); }
  }

  lemma {:induction false} HalveTwice(w: int, m: nat, n: nat)
    ensures Halve(Halve(w, m), n) == Halve(w, m + n)
  {
    if n > 0 {
      HalveTwice(w, m, n - 1);
    }
  }

  /** Recomputing at an intermediate time never decays more than one recomputation at the end, and
      at most by one halving less; the two agree exactly when the two remainders of a half-life do
      not add up to another one. */
  lemma SplitDecay(r: Record, mid: Timestamp, now: Timestamp)
    requires 0 < r.last < mid < now
    ensures var lost := if (mid - r.last) % HALF_LIFE + (now - mid) % HALF_LIFE >= HALF_LIFE then 1 else 0;
            var split, once := Decayed(Decayed(r, mid), now), Decayed(r, now);
            && once.weightedRepayments == Halve(split.weightedRepayments, lost)
            && once.weightedDefaults == Halve(split.weightedDefaults, lost)
            && once.last == split.last
  {
    hide Halve;
    var a, b := mid - r.last, now - mid;
    var m, n := Halvings(r, mid), Halvings(Decayed(r, mid), now);
    var lost := if a % HALF_LIFE + b % HALF_LIFE >= HALF_LIFE then 1 else 0;
    assert (a + b) / HALF_LIFE == a / HALF_LIFE + b / HALF_LIFE + lost;
    HalveTwice(r.weightedRepayments, m, n);
    HalveTwice(r.weightedDefaults, m, n);
    HalveTwice(r.weightedRepayments, m + n, lost);
    HalveTwice(r.weightedDefaults, m + n, lost);
  }

  // ----- several recomputations -----

  /** The whole half-lives in each gap. */
  function TotalHalvings(gaps: seq<nat>): nat {
    if gaps == [] then 0 else gaps[0] / HALF_LIFE + TotalHalvings(gaps[1..])
  }

  function TotalTime(gaps: seq<nat>): nat { if gaps == [] then 0 else gaps[0] + TotalTime(gaps[1..]) }

  /** The started half-lives forgotten at each recomputation. */
  function Leftovers(gaps: seq<nat>): nat {
    if gaps == [] then 0 else gaps[0] % HALF_LIFE + Leftovers(gaps[1..])
  }

  ghost function Recomputed(r: Record, gaps: seq<nat>, now: Timestamp): Record
    requires now + TotalTime(gaps) <= U64_MAX
    decreases |gaps|
  {
    if gaps == [] then r
    else
      var later: Timestamp := now + gaps[0];
      Recomputed(Decayed(r, later), gaps[1..], later)
  }

  /** A run of recomputations halves exactly as often as there are whole half-lives in its gaps; against
      one recomputation at the end it loses what the forgotten parts would have added up to. */
  lemma {:induction false} RunOfRecomputations(r: Record, gaps: seq<nat>, now: Timestamp)
    requires r.last == now > 0 && now + TotalTime(gaps) <= U64_MAX
    ensures var end := Recomputed(r, gaps, now);
            && end.weightedRepayments == Halve(r.weightedRepayments, TotalHalvings(gaps))
            && end.weightedDefaults == Halve(r.weightedDefaults, TotalHalvings(gaps))
    ensures TotalTime(gaps) / HALF_LIFE == TotalHalvings(gaps) + Leftovers(gaps) / HALF_LIFE
    ensures TotalTime(gaps) % HALF_LIFE == Leftovers(gaps) % HALF_LIFE
    decreases |gaps|
  {
    if gaps != [] {
      var later: Timestamp := now + gaps[0];
      var d := Decayed(r, later);
      RunOfRecomputations(d, gaps[1..], later);
      HalveTwice(r.weightedRepayments, gaps[0] / HALF_LIFE, TotalHalvings(gaps[1..]));
      HalveTwice(r.weightedDefaults, gaps[0] / HALF_LIFE, TotalHalvings(gaps[1..]));
      SplitLeftovers(gaps[0], TotalTime(gaps[1..]), Leftovers(gaps[1..]), TotalHalvings(gaps[1..]));
    }
  }

  lemma SplitLeftovers(gap: nat, time: nat, left: nat, halvings: nat)
    requires time / HALF_LIFE == halvings + left / HALF_LIFE && time % HALF_LIFE == left % HALF_LIFE
    ensures (gap + time) / HALF_LIFE == gap / HALF_LIFE + halvings + (gap % HALF_LIFE + left) / HALF_LIFE
    ensures (gap + time) % HALF_LIFE == (gap % HALF_LIFE + left) % HALF_LIFE
  {
  }
}
