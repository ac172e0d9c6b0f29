/** The running statistics kept per lender agree with a scan over all offers. */
module LenderStatistics {
  import opened Base
  import opened Ledger
  import opened Negotiation
  import opened FinancingSteps
  import opened NegotiationRuns

  datatype Kind = Offered | Created | Funding | Repayments

  /** What one offer contributes to a figure. */
  function Measure(k: Kind, x: Offer): int {
    match k
    case Offered => x.terms.amount
    case Created => 1
    case Funding => if x.status in {Pending, Rejected} then 0 else x.terms.amount
    case Repayments => if x.status == Repaid then 1 else 0
  }

  function Figure(st: LenderStats, k: Kind): int {
    match k
    case Offered => st.offered
    case Created => st.pending
    case Funding => st.accepted
    case Repayments => st.repaid
  }

  ghost function Shares(offers: map<Symbol, Offer>, a: Address, k: Kind): map<Symbol, int> {
    map o | o in offers && offers[o].lender == a :: Measure(k, offers[o])
  }

  /** The running figures of a lender are the totals over its offers: of the amounts now on the
      table, whatever became of the offers; of the amounts ever funded; of the loans repaid in full.
      The figure called pending counts the offers ever created: nothing takes one off it. */
  ghost predicate StatsOk(f: Financing, a: Address) {
    forall k :: Figure(StatsOf(f, a), k) == Total(Shares(f.offers, a, k))
  }

  ghost predicate AllStatsOk(f: Financing) { forall a :: StatsOk(f, a) }

  ghost function Before(f: Financing, o: Symbol, k: Kind): int { if o in f.offers then Measure(k, f.offers[o]) else 0 }

  /** One offer changed, and its lender's figures moved by the difference. */
  ghost predicate Booked(f: Financing, g: Financing, o: Symbol) {
    && o in g.offers && g.offers == f.offers[o := g.offers[o]]
    && (o in f.offers ==> f.offers[o].lender == g.offers[o].lender)
    && var l := g.offers[o].lender;
       && (forall a: Address :: a != l ==> StatsOf(g, a) == StatsOf(f, a))
       && (forall k :: Figure(StatsOf(g, l), k) == Figure(StatsOf(f, l), k) + Measure(k, g.offers[o]) - Before(f, o, k))
  }

  lemma SharesSet(offers: map<Symbol, Offer>, o: Symbol, x: Offer, a: Address, k: Kind)
    requires o in offers ==> offers[o].lender == x.lender
    ensures x.lender != a ==> Shares(offers[o := x], a, k) == Shares(offers, a, k)
    ensures x.lender == a ==> Shares(offers[o := x], a, k) == Shares(offers, a, k)[o := Measure(k, x)]
  {
  }

  lemma BookedKeeps(f: Financing, g: Financing, o: Symbol)
    requires Booked(f, g, o) && AllStatsOk(f)
    ensures AllStatsOk(g)
  {
    hide Total;
    forall a, k ensures Figure(StatsOf(g, a), k) == Total(Shares(g.offers, a, k)) {
      assert StatsOk(f, a);
      SharesSet(f.offers, o, g.offers[o], a, k);
      TotalSet(Shares(f.offers, a, k), o, Measure(k, g.offers[o]));
    }
    assert forall a :: StatsOk(g, a);
  }

  lemma ProposalKeeps(s: Market, op: Op, now: Timestamp)
    requires (op.DoAmend? || op.DoCounter?) && Apply(s, op, now).Ok? && AllStatsOk(s.fin)
    ensures AllStatsOk(Apply(s, op, now).value.fin)
  {
    ProposalShape(s, op, now);
    var side, t := SideOf(op), Apply(s, op, now).value;
    var mid := Between(s, op.o, side, op.terms, now);
    hide StatsOk, Apply;
    assert AllStatsOk(mid.fin) by {
      if side == Lender {
        assert Booked(s.fin, mid.fin, op.o);
        BookedKeeps(s.fin, mid.fin, op.o);
      } else {
        SameFigures(s.fin, mid.fin);
      }
    }
    if t != mid {
      SettledKeepsStats(mid, t, op.o, now);
    }
  }

  lemma SameFigures(f: Financing, g: Financing)
    requires g.offers == f.offers && g.stats == f.stats && AllStatsOk(f)
    ensures AllStatsOk(g)
  {
    forall a ensures StatsOk(g, a) { assert StatsOk(f, a); }
  }

  lemma SettledKeepsStats(s: Market, t: Market, o: Symbol, now: Timestamp)
    requires Settled(s, t, o, now) && AllStatsOk(s.fin)
    ensures AllStatsOk(t.fin)
  {
    assert t.fin == Funded(s.fin, o, now);
    assert Booked(s.fin, t.fin, o);
    BookedKeeps(s.fin, t.fin, o);
  }

  lemma StepKeepsStats(w: World, op: Op)
    requires AllStatsOk(w.market.fin)
    ensures AllStatsOk(Step(w, op).market.fin)
  {
    if Apply(w.market, op, w.now).Ok? {
      var f, g := w.market.fin, Step(w, op).market.fin;
      match op
      case DoAmend(_, _, _, _) => ProposalKeeps(w.market, op, w.now);
      case DoCounter(_, _, _, _) => ProposalKeeps(w.market, op, w.now);
      case DoAccept(o, who) =>
        AcceptShape(w.market, o, who, w.now);
        SettledKeepsStats(w.market, Step(w, op).market, o, w.now);
      case DoClose(_, _) => SameFigures(f, g);
      case DoSetWindow(_) => SameFigures(f, g);
      case Elsewhere(_, _) =>
      case Tick(_) =>
      case _ => OneOfferBooked(w.market, op, w.now);
    }
  }

  lemma OneOfferBooked(s: Market, op: Op, now: Timestamp)
    requires op.DoCreate? || op.DoWithdraw? || op.DoReject? || op.Callback?
    requires Apply(s, op, now).Ok? && AllStatsOk(s.fin)
    ensures AllStatsOk(Apply(s, op, now).value.fin)
  {
    var g := Apply(s, op, now).value.fin;
    assert Booked(s.fin, g, op.o);
    hide AllStatsOk, Booked;
    BookedKeeps(s.fin, g, op.o);
  }

  /** In every reachable state every lender's running figures equal the scan. */
  lemma {:induction false} RunKeepsStats(w: World, ops: seq<Op>)
    requires AllStatsOk(w.market.fin)
    ensures AllStatsOk(Run(w, ops).market.fin)
    decreases |ops|
  {
    if ops != [] {
      StepKeepsStats(w, ops[0]);
      RunKeepsStats(Step(w, ops[0]), ops[1..]);
    }
  }

  lemma DeployedStats()
    ensures AllStatsOk(Empty())
  {
    forall a, k ensures Total(Shares(Empty().offers, a, k)) == 0 {
      assert Shares(Empty().offers, a, k) == map[];
    }
    assert forall a :: StatsOk(Empty(), a);
  }
}
