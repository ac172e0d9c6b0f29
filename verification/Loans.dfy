/** What a loan owes: principal, interest on what remains of it, and the overdue penalty. */
module Loans {
  import opened Base

  const I128_MAX: int := 0x7FFF_FFFF_FFFF_FFFF_FFFF_FFFF_FFFF_FFFF
  const I128_MIN: int := -0x8000_0000_0000_0000_0000_0000_0000_0000

  const SECS_PER_DAY: nat := 86_400
  const BPS: nat := 10_000
  const MIN_PARTIAL_BPS: nat := 100
  const INTEREST_DIVISOR: nat := 3_650_000
  const MAX_PAYMENTS: nat := 1_000
  const GRACE_PERIOD: nat := 604_800

  function SaturatingMul(a: int, b: int): int { Max(Min(a * b, I128_MAX), I128_MIN) }

  /** A year's rate in basis points, charged by the whole day on what remains of the principal. */
  function ProRataInterest(remaining: int, rate: nat, days: int): (i: int)
    ensures i >= 0
    ensures remaining <= 0 || rate == 0 || days <= 0 ==> i == 0
  {
    if remaining <= 0 || rate == 0 || days <= 0 then 0
    else
      assert remaining * rate >= 0;
      assert SaturatingMul(remaining, rate) * days >= 0;
      TruncDiv(SaturatingMul(SaturatingMul(remaining, rate), days), INTEREST_DIVISOR)
  }

  /** Whole days past the due date, charged on a base that repayments do not shrink, up to a cap. */
  function AccruedPenalty(base: int, due: Timestamp, penaltyBps: nat, capBps: nat, now: Timestamp): (p: int)
    ensures p >= 0
    ensures now <= due ==> p == 0
    ensures base > 0 ==> p * BPS <= base * capBps
  {
    if penaltyBps == 0 || capBps == 0 || base <= 0 || now <= due then 0
    else
      var days := (now - due) / SECS_PER_DAY;
      if days == 0 then 0
      else
        assert base * penaltyBps >= 0 && base * capBps >= 0;
        assert SaturatingMul(base, penaltyBps) * days >= 0;
        Min(TruncDiv(SaturatingMul(SaturatingMul(base, penaltyBps), days), BPS),
            TruncDiv(SaturatingMul(base, capBps), BPS))
  }

  lemma SaturatesInOrder(a: int, b: int, c: int)
    requires a >= 0 && b <= c
    ensures SaturatingMul(a, b) <= SaturatingMul(a, c)
    ensures b >= 0 ==> SaturatingMul(a, b) >= 0
  {
    assert a * c - a * b == a * (c - b) >= 0;
    assert b >= 0 ==> a * b >= 0;
  }

  lemma DividesInOrder(a: int, b: int, d: int)
    requires 0 <= a <= b && d > 0
    ensures TruncDiv(a, d) <= TruncDiv(b, d)
  {
    ScalesApart(TruncDiv(a, d), TruncDiv(b, d), d);
    hide TruncDiv;
  }

  lemma ScalesApart(q: int, r: int, d: int)
    requires d > 0
    ensures q > r ==> q * d >= r * d + d
  {
    assert q * d - (r * d + d) == (q - r - 1) * d;
    assert q > r ==> (q - r - 1) * d >= 0;
  }

  /** The penalty never falls in time, through both saturating products and the cap. */
  lemma PenaltyNeverFalls(base: int, due: Timestamp, penaltyBps: nat, capBps: nat, now: Timestamp, later: Timestamp)
    requires now <= later
    ensures AccruedPenalty(base, due, penaltyBps, capBps, now) <= AccruedPenalty(base, due, penaltyBps, capBps, later)
  {
    if base > 0 && penaltyBps > 0 && capBps > 0 && now > due {
      var daily := SaturatingMul(base, penaltyBps);
      SaturatesInOrder(base, 0, penaltyBps);
      var days, more := (now - due) / SECS_PER_DAY, (later - due) / SECS_PER_DAY;
      DividesInOrder(now - due, later - due, SECS_PER_DAY);
      SaturatesInOrder(daily, days, more);
      hide SaturatingMul;
      DividesInOrder(SaturatingMul(daily, days), SaturatingMul(daily, more), BPS);
    }
  }

  /** Neither does the interest on what remains. */
  lemma InterestNeverFalls(remaining: int, rate: nat, days: nat, more: nat)
    requires days <= more
    ensures ProRataInterest(remaining, rate, days) <= ProRataInterest(remaining, rate, more)
  {
    if remaining > 0 && rate > 0 && days > 0 {
      var daily := SaturatingMul(remaining, rate);
      SaturatesInOrder(remaining, 0, rate);
      SaturatesInOrder(daily, days, more);
      hide SaturatingMul;
      DividesInOrder(SaturatingMul(daily, days), SaturatingMul(daily, more), INTEREST_DIVISOR);
    }
  }

  function FlatYield(amount: int, rate: nat): int { TruncDiv(amount * rate, BPS) }

  /** A payment split into the interest and the principal it covered. */
  datatype Payment = Payment(id: nat, amount: int, interest: int, principal: int, at: Timestamp, payer: Address)

  function Principal(pays: seq<Payment>): int {
    if pays == [] then 0 else Principal(pays[..|pays| - 1]) + pays[|pays| - 1].principal
  }

  /** Only the first thousand payments are looked at. */
  function Counted(pays: seq<Payment>): seq<Payment> { if |pays| <= MAX_PAYMENTS then pays else pays[..MAX_PAYMENTS] }

  method TotalPrincipalRepaid(pays: seq<Payment>) returns (total: int)
    ensures total == Principal(Counted(pays))
  {
    total := 0;
    var limit := if |pays| <= MAX_PAYMENTS then |pays| else MAX_PAYMENTS;
    var i := 0;
    while i < limit
      invariant 0 <= i <= limit && total == Principal(pays[..i])
    {
      assert pays[..i + 1][..i] == pays[..i];
      total := total + pays[i].principal;
      i := i + 1;
    }
    assert pays[..limit] == Counted(pays);
  }

  lemma PrincipalSnoc(pays: seq<Payment>, p: Payment)
    ensures Principal(pays + [p]) == Principal(pays) + p.principal
  {
    assert (pays + [p])[..|pays|] == pays;
  }
}
