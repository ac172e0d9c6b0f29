/** The reputation contract as deployed. */
module Reputation {
  import opened Base
  import opened Decay

  const OUTCOME_REPAID: nat := 0
  const OUTCOME_DEFAULTED: nat := 1

  function RecordOf(records: map<Address, Record>, a: Address): Record { GetOr(records, a, BLANK) }

  /** Decay first, then the new outcome at full weight: one per repayment, two per default. */
  function WithOutcome(r: Record, outcome: nat, now: Timestamp): Record {
    var d := Decayed(r, now);
    if outcome == OUTCOME_REPAID then d.(repayments := d.repayments + 1, weightedRepayments := d.weightedRepayments + 1)
    else d.(defaults := d.defaults + 1, weightedDefaults := d.weightedDefaults + 2)
  }

  /** A dispute decided for the originator takes one default back. */
  function WithDispute(r: Record, favourable: bool, now: Timestamp): Record {
    var d := Decayed(r, now);
    if favourable && d.defaults > 0 then
      d.(defaults := d.defaults - 1, weightedDefaults := Max(d.weightedDefaults - 2, 0))
    else d
  }

  class Contract {
    var records: map<Address, Record>

    constructor ()
      ensures records == map[]
    {
      records := map[];
    }

    /** `changed` is the score announced, when the recomputation moves it. */
    method RecordOutcome(a: Address, outcome: nat, now: Timestamp) returns (r: Result<()>, changed: Option<int>)
      modifies this
      ensures outcome > 1 ==> r == Err(InvalidInput) && records == old(records) && changed == None
      ensures outcome <= 1 ==>
                r == Ok(()) && records == old(records)[a := WithOutcome(RecordOf(old(records), a), outcome, now)]
      ensures outcome <= 1 ==>
                changed == if Score(RecordOf(records, a)) != Score(RecordOf(old(records), a))
                           then Some(Score(RecordOf(records, a))) else None
    {
      if outcome != OUTCOME_REPAID && outcome != OUTCOME_DEFAULTED { return Err(InvalidInput), None; }
      var record := GetOr(records, a, BLANK);
      var oldScore := Score(record);
      record := ApplyPendingDecay(record, now);
      if outcome == OUTCOME_REPAID {
        record := record.(repayments := record.repayments + 1, weightedRepayments := record.weightedRepayments + 1);
      } else {
        record := record.(defaults := record.defaults + 1, weightedDefaults := record.weightedDefaults + 2);
      }
      records := records[a := record];
      return Ok(()), if Score(record) != oldScore then Some(Score(record)) else None;
    }

    method ResolveDispute(a: Address, favourable: bool, now: Timestamp) returns (score: int)
      modifies this
      ensures records == old(records)[a := WithDispute(RecordOf(old(records), a), favourable, now)]
      ensures score == Score(RecordOf(records, a))
    {
      var record := ApplyPendingDecay(GetOr(records, a, BLANK), now);
      if favourable && record.defaults > 0 {
        record := record.(defaults := record.defaults - 1, weightedDefaults := Max(record.weightedDefaults - 2, 0));
      }
      records := records[a := record];
      score := Score(record);
    }
  }

  // ----- runs -----

  datatype Op = Outcome(a: Address, outcome: nat) | Dispute(a: Address, favourable: bool) | Tick(secs: nat)

  datatype World = World(records: map<Address, Record>, now: Timestamp)

  ghost function Step(w: World, op: Op): World {
    match op
    case Outcome(a, o) =>
      if o > 1 then w else w.(records := w.records[a := WithOutcome(RecordOf(w.records, a), o, w.now)])
    case Dispute(a, f) => w.(records := w.records[a := WithDispute(RecordOf(w.records, a), f, w.now)])
    case Tick(secs) => w.(now := SaturatingAdd(w.now, secs))
  }

  ghost function Run(w: World, ops: seq<Op>): World
    decreases |ops|
  {
    if ops == [] then w else Run(Step(w, ops[0]), ops[1..])
  }

  /** Weights never exceed what the raw counts justify. */
  ghost predicate Bounded(r: Record) {
    0 <= r.weightedRepayments <= r.repayments && 0 <= r.weightedDefaults <= 2 * r.defaults
  }

  ghost predicate Inv(w: World) {
    forall a :: Bounded(RecordOf(w.records, a)) && RecordOf(w.records, a).last <= w.now
  }

  lemma DecayBounded(r: Record, now: Timestamp)
    requires Bounded(r)
    ensures Bounded(Decayed(r, now))
  {
    HalveIsDivision(r.weightedRepayments, Halvings(r, now));
    HalveIsDivision(r.weightedDefaults, Halvings(r, now));
  }

  lemma StepKeeps(w: World, op: Op)
    requires Inv(w)
    ensures Inv(Step(w, op))
  {
    hide Halve, Halvings;
    if !op.Tick? {
      assert Bounded(RecordOf(w.records, op.a));
      DecayBounded(RecordOf(w.records, op.a), w.now);
    }
    forall b
      ensures Bounded(RecordOf(Step(w, op).records, b)) && RecordOf(Step(w, op).records, b).last <= Step(w, op).now
    {
      assert Bounded(RecordOf(w.records, b)) && RecordOf(w.records, b).last <= w.now;
    }
  }

  /** In every reachable record the weighted values stay within the raw counts. */
  lemma {:induction false} RunKeeps(w: World, ops: seq<Op>)
    requires Inv(w)
    ensures Inv(Run(w, ops))
    decreases |ops|
  {
    if ops != [] {
      StepKeeps(w, ops[0]);
      RunKeeps(Step(w, ops[0]), ops[1..]);
    }
  }

  /** From deployment on, a record's score lies between zero and its repayments, its weighted defaults
      never exceed two per default, and no record is from the future. */
  lemma ScoresAreEarned(now: Timestamp, ops: seq<Op>, a: Address)
    ensures var w := Run(World(map[], now), ops); var r := RecordOf(w.records, a);
            && 0 <= Score(r) <= r.repayments
            && 0 <= r.weightedRepayments <= r.repayments && 0 <= r.weightedDefaults <= 2 * r.defaults
            && r.last <= w.now
  {
    RunKeeps(World(map[], now), ops);
    assert Bounded(RecordOf(Run(World(map[], now), ops).records, a));
  }

  // ----- what an outcome weighs -----

  /** Whole half-lives of ninety days since the record was last computed, if ever. */
  ghost function Periods(r: Record, now: Timestamp): nat {
    if 0 < r.last < now then (now - r.last) / 7_776_000 else 0
  }

  /** An outcome first divides both weights by two to the power of the whole half-lives passed, rounded down,
      then counts one for a repayment and two for a default; a dispute decided for the originator takes one
      default and two of its weight back, as far as there are any. */
  lemma OutcomesWeigh(r: Record, outcome: nat, favourable: bool, now: Timestamp)
    requires Bounded(r) && outcome <= 1
    ensures var (n, d) := (Periods(r, now), WithOutcome(r, outcome, now));
            && d.last == now
            && d.repayments == r.repayments + 1 - outcome && d.defaults == r.defaults + outcome
            && d.weightedRepayments == r.weightedRepayments / Pow2(n) + 1 - outcome
            && d.weightedDefaults == r.weightedDefaults / Pow2(n) + 2 * outcome
    ensures var (n, d) := (Periods(r, now), WithDispute(r, favourable, now));
            var taken := favourable && r.defaults > 0;
            && d.last == now
            && d.repayments == r.repayments && d.defaults == r.defaults - (if taken then 1 else 0)
            && d.weightedRepayments == r.weightedRepayments / Pow2(n)
            && d.weightedDefaults == Max(r.weightedDefaults / Pow2(n) - (if taken then 2 else 0), 0)
  {
    HalveIsDivision(r.weightedRepayments, Halvings(r, now));
    HalveIsDivision(r.weightedDefaults, Halvings(r, now));
    hide Halve, Pow2;
  }

  /** On a record that has not decayed the score is repayments less twice the defaults, and zero if that is
      negative. */
  lemma FullScore(r: Record)
    requires Full(r)
    ensures Score(r) == if r.repayments >= 2 * r.defaults then r.repayments - 2 * r.defaults else 0
  {
  }

  ghost function Reports(ops: seq<Op>, a: Address, outcome: nat): nat {
    if ops == [] then 0
    else Reports(ops[..|ops| - 1], a, outcome) + if ops[|ops| - 1] == Outcome(a, outcome) then 1 else 0
  }

  lemma {:induction false} RunSnoc(w: World, ops: seq<Op>, op: Op)
    ensures Run(w, ops + [op]) == Step(Run(w, ops), op)
    decreases |ops|
  {
    if ops == [] {
      assert [op][1..] == [];
    } else {
      assert (ops + [op])[1..] == ops[1..] + [op];
      RunSnoc(Step(w, ops[0]), ops[1..], op);
    }
  }

  /** From deployment on, a record counts the repayments reported for its originator, and while no dispute is
      decided for it, the defaults. */
  lemma {:induction false} CountsAreReports(now: Timestamp, ops: seq<Op>, a: Address)
    ensures var r := RecordOf(Run(World(map[], now), ops).records, a);
            && r.repayments == Reports(ops, a, 0)
            && r.defaults <= Reports(ops, a, 1)
            && (Dispute(a, true) !in ops ==> r.defaults == Reports(ops, a, 1))
    decreases |ops|
  {
    if ops != [] {
      var n := |ops| - 1;
      assert ops == ops[..n] + [ops[n]];
      CountsAreReports(now, ops[..n], a);
      RunSnoc(World(map[], now), ops[..n], ops[n]);
      hide Run, Halve, Halvings;
    }
  }

  // ----- a run of one originator -----

  /** Each outcome with the time passed since the previous one. */
  datatype Event = Event(gap: nat, outcome: nat)

  ghost function Replay(r: Record, events: seq<Event>, now: Timestamp): Record
    decreases |events|
  {
    if events == [] then r
    else
      var later := SaturatingAdd(now, events[0].gap);
      Replay(WithOutcome(r, events[0].outcome, later), events[1..], later)
  }

  ghost predicate Full(r: Record) { r.weightedRepayments == r.repayments && r.weightedDefaults == 2 * r.defaults }

  ghost function TimeOf(events: seq<Event>): nat
    decreases |events|
  {
    if events == [] then 0 else events[0].gap + TimeOf(events[1..])
  }

  /** What has decayed never comes back. */
  lemma {:induction false} ShortStaysShort(r: Record, events: seq<Event>, now: Timestamp)
    requires Bounded(r) && !Full(r)
    ensures Bounded(Replay(r, events, now)) && !Full(Replay(r, events, now))
    decreases |events|
  {
    if events != [] {
      var later := SaturatingAdd(now, events[0].gap);
      HalveIsDivision(r.weightedRepayments, Halvings(r, later));
      HalveIsDivision(r.weightedDefaults, Halvings(r, later));
      hide Halve;
      ShortStaysShort(WithOutcome(r, events[0].outcome, later), events[1..], later);
    }
  }

  /** A whole half-life takes something from every positive weight. */
  lemma {:induction false} HalvingTakes(w: int, n: nat)
    requires w > 0 && n > 0
    ensures 0 <= Halve(w, n) < w
  {
    HalveIsDivision(w, n - 1);
  }

  /** Every recompute restarts the clock and forgets the part of a half-life that had passed, so an
      originator with a record keeps all of it at full weight if and only if no gap between its outcomes
      reaches a half-life -- over any length of time. */
  lemma {:induction false} NeverDecaysIff(r: Record, events: seq<Event>, now: Timestamp)
    requires r.last == now > 0 && Full(r) && r.repayments + r.defaults > 0 && now + TimeOf(events) <= U64_MAX
    ensures Full(Replay(r, events, now)) <==> forall i :: 0 <= i < |events| ==> events[i].gap < HALF_LIFE
    decreases |events|
  {
    if events != [] {
      var later: Timestamp := now + events[0].gap;
      var next := WithOutcome(r, events[0].outcome, later);
      if events[0].gap < HALF_LIFE {
        assert Halvings(r, later) == 0;
        NeverDecaysIff(next, events[1..], later);
        assert forall i :: 0 < i < |events| ==> events[i] == events[1..][i - 1];
      } else {
        HalveIsDivision(r.weightedRepayments, Halvings(r, later));
        HalveIsDivision(r.weightedDefaults, Halvings(r, later));
        if r.weightedRepayments > 0 { HalvingTakes(r.weightedRepayments, Halvings(r, later)); }
        if r.weightedDefaults > 0 { HalvingTakes(r.weightedDefaults, Halvings(r, later)); }
        hide Halve;
        ShortStaysShort(next, events[1..], later);
      }
    }
  }

  /** In particular an originator with an outcome in every half-life never sees any outcome decay. */
  lemma {:induction false} FrequentOutcomesNeverDecay(r: Record, events: seq<Event>, now: Timestamp)
    requires r.last == now || r.last == 0
    requires r.weightedRepayments == r.repayments && r.weightedDefaults == 2 * r.defaults
    requires forall i :: 0 <= i < |events| ==> events[i].gap < HALF_LIFE
    ensures var end := Replay(r, events, now);
            end.weightedRepayments == end.repayments && end.weightedDefaults == 2 * end.defaults
    decreases |events|
  {
    if events != [] {
      var later := SaturatingAdd(now, events[0].gap);
      assert Halvings(r, later) == 0;
      FrequentOutcomesNeverDecay(WithOutcome(r, events[0].outcome, later), events[1..], later);
    }
  }
}
