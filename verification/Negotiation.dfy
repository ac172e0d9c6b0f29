/** Terms, negotiation rounds, and what each side last proposed. */
module Negotiation {
  import opened Base

  const MAX_INTEREST_BPS: nat := 10_000
  const MIN_OFFER_DURATION: nat := 86_400
  const MAX_OFFER_DURATION: nat := 31_536_000
  const MIN_WINDOW: nat := 3_600
  const DEFAULT_WINDOW: nat := 259_200
  const MAX_WINDOW: nat := 2_592_000
  const MAX_ROUNDS: nat := 20

  datatype Terms = Terms(amount: int, rate: nat, duration: nat)

  predicate ValidTerms(t: Terms) {
    t.amount > 0 && 1 <= t.rate <= MAX_INTEREST_BPS && MIN_OFFER_DURATION <= t.duration <= MAX_OFFER_DURATION
  }

  datatype Side = Lender | Originator

  datatype Round = Round(side: Side, terms: Terms, at: Timestamp)

  /** What a side last proposed: the only proposal of theirs that can still be settled. */
  function Live(rounds: seq<Round>, side: Side): Option<Terms> {
    if rounds == [] then None
    else
      var last := rounds[|rounds| - 1];
      if last.side == side then Some(last.terms) else Live(rounds[..|rounds| - 1], side)
  }

  method LastProposalBy(rounds: seq<Round>, side: Side) returns (latest: Option<Terms>)
    ensures latest == Live(rounds, side)
  {
    latest := None;
    for i := 0 to |rounds|
      invariant latest == Live(rounds[..i], side)
    {
      assert rounds[..i + 1][..i] == rounds[..i];
      if rounds[i].side == side {
        latest := Some(rounds[i].terms);
      }
    }
    assert rounds[..|rounds|] == rounds;
  }

  /** Round i is this side's, on these terms, and its last. */
  ghost predicate LastAt(rounds: seq<Round>, side: Side, t: Terms, i: nat) {
    && i < |rounds| && rounds[i].side == side && rounds[i].terms == t
    && forall j :: i < j < |rounds| ==> rounds[j].side != side
  }

  lemma LastAtShorter(rounds: seq<Round>, side: Side, t: Terms, i: nat)
    requires rounds != [] && rounds[|rounds| - 1].side != side
    ensures LastAt(rounds, side, t, i) <==> LastAt(rounds[..|rounds| - 1], side, t, i)
  {
    assert forall j :: 0 <= j < |rounds| - 1 ==> rounds[..|rounds| - 1][j] == rounds[j];
  }

  /** A live proposal is a recorded round that its side has not moved off since. */
  lemma {:induction false} LiveIsLatest(rounds: seq<Round>, side: Side, t: Terms)
    ensures Live(rounds, side) == Some(t) <==> exists i :: LastAt(rounds, side, t, i)
  {
    if rounds != [] {
      var n := |rounds| - 1;
      if rounds[n].side == side {
        assert rounds[n].terms == t ==> LastAt(rounds, side, t, n);
      } else {
        LiveIsLatest(rounds[..n], side, t);
        forall i ensures LastAt(rounds, side, t, i) <==> LastAt(rounds[..n], side, t, i) {
          LastAtShorter(rounds, side, t, i);
        }
      }
    }
  }
}
