/** What every run of the financing contract keeps, whatever the registry and the token do between
    its steps: the history of each negotiation, the agreement behind each settlement, the one closing
    announcement, and the lenders' statistics. */
module NegotiationRuns {
  import opened Base
  import opened Negotiation
  import opened FinancingSteps
  import Status
  import Registry = RegistrySteps
  import InsuranceSteps

  datatype Op =
    | DoCreate(o: Symbol, invoice: Symbol, lender: Party, terms: Terms, currency: Symbol, expiresAt: Timestamp)
    | DoWithdraw(o: Symbol, who: Address)
    | DoReject(o: Symbol, who: Address)
    | DoAccept(o: Symbol, who: Address)
    | DoAmend(o: Symbol, who: Address, expected: nat, terms: Terms)
    | DoCounter(o: Symbol, who: Address, expected: nat, terms: Terms)
    | DoClose(o: Symbol, who: Address)
    | DoSetWindow(window: nat)
    | Callback(o: Symbol, status: OfferStatus, amountRepaid: int)
    | Elsewhere(reg: Registry.Registry, wallets: map<Address, int>)
    | Tick(secs: nat)

  /** The repayment contract reports on funded offers only, and never moves one back. */
  function Report(f: Financing, o: Symbol, status: OfferStatus, amountRepaid: int): Result<Financing> {
    if o !in f.offers then Err(NotFound)
    else if f.offers[o].status !in {Accepted, Financed} || status !in {Financed, Repaid, Defaulted}
      then Err(InvalidTransition)
    else if status == Defaulted then SetStatus(f, o, Defaulted)
    else Ok(Reported(f, o, amountRepaid, status == Repaid))
  }

  function First<T>(r: Result<(Market, T)>): Result<Market> {
    match r case Ok(p) => Ok(p.0) case Err(e) => Err(e)
  }

  function Apply(s: Market, op: Op, now: Timestamp): Result<Market> {
    match op
    case DoCreate(o, i, l, t, c, x) => Create(s, o, i, l, t, c, x)
    case DoWithdraw(o, who) => Withdraw(s, o, who)
    case DoReject(o, who) => Reject(s, o, who)
    case DoAccept(o, who) => Accept(s, o, who, now)
    case DoAmend(o, who, n, t) => Amend(s, o, who, n, t, now)
    case DoCounter(o, who, n, t) => Counter(s, o, who, n, t, now)
    case DoClose(o, who) => First(CloseTalk(s, o, who, now))
    case DoSetWindow(n) => (match SetWindow(s.fin, n) case Ok(f) => Ok(s.(fin := f)) case Err(e) => Err(e))
    case Callback(o, st, a) => (match Report(s.fin, o, st, a) case Ok(f) => Ok(s.(fin := f)) case Err(e) => Err(e))
    case Elsewhere(reg, wallets) => Ok(Market(s.fin, reg, wallets))
    case Tick(_) => Ok(s)
  }

  /** The contract in time, with the terms each offer was created with. */
  datatype World = World(market: Market, now: Timestamp, created: map<Symbol, Terms>)

  function Step(w: World, op: Op): World {
    match Apply(w.market, op, w.now)
    case Err(_) => w
    case Ok(s) =>
      World(s,
            if op.Tick? then SaturatingAdd(w.now, op.secs) else w.now,
            if op.DoCreate? then w.created[op.o := op.terms] else w.created)
  }

  function Run(w: World, ops: seq<Op>): World
    decreases |ops|
  {
    if ops == [] then w else Run(Step(w, ops[0]), ops[1..])
  }

  // ----- what holds of each negotiation -----

  ghost function Announced(cs: seq<Closing>, o: Symbol): nat {
    if cs == [] then 0 else Announced(cs[..|cs| - 1], o) + if cs[|cs| - 1].offer == o then 1 else 0
  }

  lemma AnnouncedSnoc(cs: seq<Closing>, c: Closing, o: Symbol)
    ensures Announced(cs + [c], o) == Announced(cs, o) + if c.offer == o then 1 else 0
  {
    assert (cs + [c])[..|cs|] == cs;
  }

  lemma LiveSnoc(rounds: seq<Round>, r: Round, side: Side)
    ensures Live(rounds + [r], side) == if r.side == side then Some(r.terms) else Live(rounds, side)
  {
    assert (rounds + [r])[..|rounds|] == rounds;
  }

  /** Rounds in order of time, none from the future, none after the deadline, which lies a permitted
      window after the opening round. */
  ghost predicate Timed(rounds: seq<Round>, deadline: Timestamp, now: Timestamp) {
    && (forall i, j :: 0 <= i < j < |rounds| ==> rounds[i].at <= rounds[j].at)
    && (forall i :: 0 <= i < |rounds| ==> rounds[i].at <= now && rounds[i].at <= deadline)
    && (rounds != [] ==> deadline == U64_MAX || MIN_WINDOW <= deadline - rounds[0].at <= MAX_WINDOW)
  }

  /** The terms on the table: the lender's last amendment, or those the offer was created with. */
  ghost function Standing(rounds: seq<Round>, created: Terms): Terms {
    match Live(rounds, Lender) case Some(t) => t case None => created
  }

  ghost predicate HistoryOk(f: Financing, o: Symbol, now: Timestamp) {
    var rounds := RoundsOf(f.talks, o);
    && |rounds| <= MAX_ROUNDS
    && (rounds != [] ==> o in f.offers && o in f.talks.deadlines)
    && Timed(rounds, GetOr(f.talks.deadlines, o, 0), now)
    && (o in f.talks.outcomes ==> rounds != [] && f.talks.outcomes[o] in {Expired, Closed, Agreed})
  }

  /** Standing terms are the lender's own, and a pending offer never sits on an unexecuted agreement. */
  ghost predicate TermsOk(f: Financing, created: map<Symbol, Terms>, o: Symbol) {
    var rounds := RoundsOf(f.talks, o);
    && (o in created <==> o in f.offers)
    && (o in f.offers ==>
          && ValidTerms(f.offers[o].terms)
          && f.offers[o].terms == Standing(rounds, created[o])
          && (f.offers[o].status == Pending ==> Live(rounds, Originator) != Some(f.offers[o].terms)))
  }

  ghost predicate IsOver(f: Financing, o: Symbol) {
    o in f.talks.outcomes || (o in f.offers && f.offers[o].status != Pending)
  }

  /** One announcement for a negotiation that is over, none before. */
  ghost predicate AnnouncedOk(f: Financing, o: Symbol) {
    Announced(f.closings, o) == if RoundsOf(f.talks, o) != [] && IsOver(f, o) then 1 else 0
  }

  ghost predicate TalkOk(w: World, o: Symbol) {
    var f := w.market.fin;
    HistoryOk(f, o, w.now) && TermsOk(f, w.created, o) && AnnouncedOk(f, o)
  }

  ghost predicate TalksOk(w: World) {
    MIN_WINDOW <= w.market.fin.window <= MAX_WINDOW && forall o :: TalkOk(w, o)
  }

  // ----- the shapes a step can take -----

  /** A step at offer o touches no other offer's state. */
  ghost predicate OnlyAt(f: Financing, g: Financing, o: Symbol) {
    forall p :: p != o ==>
      && (p in g.offers <==> p in f.offers)
      && (p in f.offers ==> g.offers[p] == f.offers[p])
      && RoundsOf(g.talks, p) == RoundsOf(f.talks, p)
      && (p in g.talks.deadlines <==> p in f.talks.deadlines)
      && GetOr(g.talks.deadlines, p, 0) == GetOr(f.talks.deadlines, p, 0)
      && (p in g.talks.outcomes <==> p in f.talks.outcomes)
      && (p in f.talks.outcomes ==> g.talks.outcomes[p] == f.talks.outcomes[p])
      && Announced(g.closings, p) == Announced(f.closings, p)
  }

  /** The settled market: money moved, invoice financed, negotiation concluded. */
  ghost predicate Settled(s: Market, t: Market, o: Symbol, now: Timestamp) {
    && o in s.fin.offers && s.fin.offers[o].invoice in s.reg.invoices
    && Settle(s, o, now) == Ok(t)
    && s.fin.offers[o].status == Pending
    && s.reg.invoices[s.fin.offers[o].invoice].status == Status.Pending
    && !Stale(s.fin.offers[o], now)
  }

  /** An amendment or a counter-offer, as recorded. */
  ghost predicate Recorded(s: Market, t: Market, o: Symbol, side: Side, terms: Terms, now: Timestamp) {
    && o in s.fin.offers && ValidTerms(terms)
    && s.fin.offers[o].status == Pending
    && |RoundsOf(s.fin.talks, o)| < MAX_ROUNDS
    && TalkOf(s.fin, o, now) in {Unopened, Open}
    && t.reg == s.reg && t.wallets == s.wallets
    && t.fin == (if side == Lender then Amended(s.fin, o, terms, now)
                 else s.fin.(talks := WithRound(s.fin, o, Originator, terms, now)))
  }

  /** Whether a round meets the other side's position. */
  ghost function Meets(s: Market, o: Symbol, side: Side, terms: Terms): bool
    requires o in s.fin.offers
  {
    if side == Lender then Live(RoundsOf(s.fin.talks, o), Originator) == Some(terms) else s.fin.offers[o].terms == terms
  }

  ghost function Between(s: Market, o: Symbol, side: Side, terms: Terms, now: Timestamp): Market
    requires o in s.fin.offers
  {
    if side == Lender then s.(fin := Amended(s.fin, o, terms, now))
    else s.(fin := s.fin.(talks := WithRound(s.fin, o, Originator, terms, now)))
  }

  ghost function SideOf(op: Op): Side { if op.DoAmend? then Lender else Originator }

  /** An amendment or counter-offer that commits is recorded, and settles exactly when it meets the
      other side. */
  lemma ProposalShape(s: Market, op: Op, now: Timestamp)
    requires (op.DoAmend? || op.DoCounter?) && Apply(s, op, now).Ok?
    ensures op.o in s.fin.offers
    ensures var mid, t := Between(s, op.o, SideOf(op), op.terms, now), Apply(s, op, now).value;
            && Recorded(s, mid, op.o, SideOf(op), op.terms, now)
            && (if Meets(s, op.o, SideOf(op), op.terms) then Settled(mid, t, op.o, now) else t == mid)
  {
  }

  // ----- each shape keeps each part -----

  lemma RecordedOnlyAt(s: Market, t: Market, o: Symbol, side: Side, terms: Terms, now: Timestamp)
    requires Recorded(s, t, o, side, terms, now)
    ensures OnlyAt(s.fin, t.fin, o)
  {
  }

  lemma SettledOnlyAt(s: Market, t: Market, o: Symbol, now: Timestamp)
    requires Settled(s, t, o, now)
    ensures OnlyAt(s.fin, t.fin, o)
  {
    hide Announced;
    var f, g := s.fin, t.fin;
    assert g == Funded(f, o, now);
    forall p | p != o ensures Announced(g.closings, p) == Announced(f.closings, p) {
      AnnouncedSnoc(f.closings, Closing(o, Agreed), p);
    }
  }

  lemma RecordedHistory(s: Market, t: Market, o: Symbol, side: Side, terms: Terms, now: Timestamp)
    requires Recorded(s, t, o, side, terms, now) && HistoryOk(s.fin, o, now)
    requires MIN_WINDOW <= s.fin.window <= MAX_WINDOW
    ensures HistoryOk(t.fin, o, now)
    ensures RoundsOf(t.fin.talks, o) == RoundsOf(s.fin.talks, o) + [Round(side, terms, now)]
  {
  }

  lemma RecordedTerms(s: Market, t: Market, created: map<Symbol, Terms>, o: Symbol, side: Side, terms: Terms,
                      now: Timestamp)
    requires Recorded(s, t, o, side, terms, now) && TermsOk(s.fin, created, o)
    ensures o in created && o in t.fin.offers && ValidTerms(t.fin.offers[o].terms)
    ensures t.fin.offers[o].terms == Standing(RoundsOf(t.fin.talks, o), created[o])
    ensures !Meets(s, o, side, terms) ==> TermsOk(t.fin, created, o)
    ensures Meets(s, o, side, terms) ==>
              t.fin.offers[o].terms == terms && Live(RoundsOf(t.fin.talks, o), Originator) == Some(terms)
  {
    var rounds, r := RoundsOf(s.fin.talks, o), Round(side, terms, now);
    LiveSnoc(rounds, r, Lender);
    LiveSnoc(rounds, r, Originator);
    assert RoundsOf(t.fin.talks, o) == rounds + [r];
  }

  lemma RecordedAnnounced(s: Market, t: Market, o: Symbol, side: Side, terms: Terms, now: Timestamp)
    requires Recorded(s, t, o, side, terms, now) && AnnouncedOk(s.fin, o) && HistoryOk(s.fin, o, now)
    ensures AnnouncedOk(t.fin, o)
  {
  }

  lemma SettledKeeps(s: Market, t: Market, o: Symbol, now: Timestamp)
    requires Settled(s, t, o, now) && HistoryOk(s.fin, o, now) && AnnouncedOk(s.fin, o)
    ensures HistoryOk(t.fin, o, now) && AnnouncedOk(t.fin, o)
    ensures RoundsOf(t.fin.talks, o) == RoundsOf(s.fin.talks, o)
    ensures t.fin.offers[o] == s.fin.offers[o].(status := Accepted, fundedAt := now)
  {
    AnnouncedSnoc(s.fin.closings, Closing(o, Agreed), o);
  }

  lemma LeaveOnlyAt(f: Financing, o: Symbol)
    requires o in f.offers
    ensures OnlyAt(f, Leave(f, o), o)
  {
    forall p | p != o ensures Announced(Leave(f, o).closings, p) == Announced(f.closings, p) {
      AnnouncedSnoc(f.closings, Closing(o, Closed), p);
    }
  }

  lemma LeaveKeeps(f: Financing, created: map<Symbol, Terms>, o: Symbol, now: Timestamp)
    requires o in f.offers && f.offers[o].status == Pending
    requires HistoryOk(f, o, now) && TermsOk(f, created, o) && AnnouncedOk(f, o)
    ensures HistoryOk(Leave(f, o), o, now) && TermsOk(Leave(f, o), created, o) && AnnouncedOk(Leave(f, o), o)
  {
    AnnouncedSnoc(f.closings, Closing(o, Closed), o);
  }

  lemma EndedOnlyAt(f: Financing, o: Symbol, outcome: TalkStatus)
    ensures OnlyAt(f, Ended(f, o, outcome), o)
  {
    forall p | p != o ensures Announced(Ended(f, o, outcome).closings, p) == Announced(f.closings, p) {
      AnnouncedSnoc(f.closings, Closing(o, outcome), p);
    }
  }

  lemma EndedKeeps(f: Financing, created: map<Symbol, Terms>, o: Symbol, outcome: TalkStatus, now: Timestamp)
    requires o !in f.talks.outcomes && TalkOf(f, o, now) in {Open, Expired} && outcome in {Expired, Closed}
    requires HistoryOk(f, o, now) && TermsOk(f, created, o) && AnnouncedOk(f, o)
    ensures HistoryOk(Ended(f, o, outcome), o, now) && TermsOk(Ended(f, o, outcome), created, o)
    ensures AnnouncedOk(Ended(f, o, outcome), o)
  {
    AnnouncedSnoc(f.closings, Closing(o, outcome), o);
  }

  /** Whatever a step leaves alone stays in order. */
  lemma OthersKeep(w: World, v: World, o: Symbol, p: Symbol)
    requires OnlyAt(w.market.fin, v.market.fin, o) && p != o && TalkOk(w, p)
    requires w.now == v.now && (p in v.created <==> p in w.created) && (p in w.created ==> v.created[p] == w.created[p])
    ensures TalkOk(v, p)
  {
  }

  // ----- each operation at its own offer -----

  /** A recorded proposal, settled when it meets the other side, leaves its offer in order. */
  lemma ProposedKeeps(s: Market, mid: Market, t: Market, created: map<Symbol, Terms>, o: Symbol, side: Side,
                      terms: Terms, now: Timestamp)
    requires HistoryOk(s.fin, o, now) && TermsOk(s.fin, created, o) && AnnouncedOk(s.fin, o)
    requires MIN_WINDOW <= s.fin.window <= MAX_WINDOW
    requires Recorded(s, mid, o, side, terms, now)
    requires if Meets(s, o, side, terms) then Settled(mid, t, o, now) else t == mid
    ensures HistoryOk(t.fin, o, now) && TermsOk(t.fin, created, o) && AnnouncedOk(t.fin, o)
    ensures OnlyAt(s.fin, t.fin, o)
  {
    RecordedHistory(s, mid, o, side, terms, now);
    RecordedTerms(s, mid, created, o, side, terms, now);
    RecordedAnnounced(s, mid, o, side, terms, now);
    RecordedOnlyAt(s, mid, o, side, terms, now);
    if Meets(s, o, side, terms) {
      hide Recorded, HistoryOk, AnnouncedOk, Meets, TermsOk, Settled, Standing;
      SettledKeeps(mid, t, o, now);
      SettledOnlyAt(mid, t, o, now);
      SettledTerms(mid, t, created, o, now);
      OnlyAtTrans(s.fin, mid.fin, t.fin, o);
    }
  }

  lemma SettledTerms(s: Market, t: Market, created: map<Symbol, Terms>, o: Symbol, now: Timestamp)
    requires Settled(s, t, o, now) && (o in created <==> o in s.fin.offers)
    requires ValidTerms(s.fin.offers[o].terms)
             && s.fin.offers[o].terms == Standing(RoundsOf(s.fin.talks, o), created[o])
    ensures TermsOk(t.fin, created, o)
  {
  }

  lemma OnlyAtTrans(f: Financing, g: Financing, h: Financing, o: Symbol)
    requires OnlyAt(f, g, o) && OnlyAt(g, h, o)
    ensures OnlyAt(f, h, o)
  {
  }

  lemma ProposalKeeps(w: World, op: Op)
    requires (op.DoAmend? || op.DoCounter?) && Apply(w.market, op, w.now).Ok? && TalksOk(w)
    ensures TalkOk(Step(w, op), op.o) && OnlyAt(w.market.fin, Step(w, op).market.fin, op.o)
  {
    var s, t, o, side := w.market, Apply(w.market, op, w.now).value, op.o, SideOf(op);
    ProposalShape(s, op, w.now);
    assert TalkOk(w, o);
    hide Apply, Recorded, Settled, Meets, Between, HistoryOk, TermsOk, AnnouncedOk, OnlyAt;
    ProposedKeeps(s, Between(s, o, side, op.terms, w.now), t, w.created, o, side, op.terms, w.now);
  }

  lemma AcceptShape(s: Market, o: Symbol, who: Address, now: Timestamp)
    requires Accept(s, o, who, now).Ok?
    ensures Settled(s, Accept(s, o, who, now).value, o, now)
  {
  }

  lemma AcceptKeeps(w: World, op: Op)
    requires op.DoAccept? && Apply(w.market, op, w.now).Ok? && TalksOk(w)
    ensures TalkOk(Step(w, op), op.o) && OnlyAt(w.market.fin, Step(w, op).market.fin, op.o)
  {
    AcceptShape(w.market, op.o, op.who, w.now);
    var t := Accept(w.market, op.o, op.who, w.now).value;
    hide Settled, Accept;
    assert TalkOk(w, op.o);
    SettledKeeps(w.market, t, op.o, w.now);
    SettledOnlyAt(w.market, t, op.o, w.now);
  }

  lemma LeavingKeeps(w: World, op: Op)
    requires (op.DoWithdraw? || op.DoReject?) && Apply(w.market, op, w.now).Ok? && TalksOk(w)
    ensures TalkOk(Step(w, op), op.o) && OnlyAt(w.market.fin, Step(w, op).market.fin, op.o)
  {
    assert TalkOk(w, op.o);
    LeaveKeeps(w.market.fin, w.created, op.o, w.now);
    LeaveOnlyAt(w.market.fin, op.o);
    hide TalksOk, HistoryOk, TermsOk, AnnouncedOk, OnlyAt, Leave;
  }

  lemma ClosingKeeps(w: World, op: Op)
    requires op.DoClose? && Apply(w.market, op, w.now).Ok? && TalksOk(w)
    ensures TalkOk(Step(w, op), op.o) && OnlyAt(w.market.fin, Step(w, op).market.fin, op.o)
  {
    var (_, outcome) := CloseTalk(w.market, op.o, op.who, w.now).value;
    assert TalkOk(w, op.o);
    EndedKeeps(w.market.fin, w.created, op.o, outcome, w.now);
    EndedOnlyAt(w.market.fin, op.o, outcome);
  }

  lemma CreatingKeeps(w: World, op: Op)
    requires op.DoCreate? && Apply(w.market, op, w.now).Ok? && TalksOk(w)
    ensures TalkOk(Step(w, op), op.o) && OnlyAt(w.market.fin, Step(w, op).market.fin, op.o)
  {
    assert TalkOk(w, op.o);
  }

  /** A report touches nothing of its offer but the status and what is repaid. */
  lemma ReportShape(f: Financing, o: Symbol, status: OfferStatus, repaid: int)
    requires Report(f, o, status, repaid).Ok?
    ensures var g := Report(f, o, status, repaid).value;
            && o in f.offers && f.offers[o].status in {Accepted, Financed}
            && o in g.offers && g.offers[o].status !in {Pending, Rejected} && g.offers[o].terms == f.offers[o].terms
            && g.offers == f.offers[o := g.offers[o]]
            && g.talks == f.talks && g.closings == f.closings
  {
  }

  lemma ReportKeeps(w: World, op: Op)
    requires op.Callback? && Apply(w.market, op, w.now).Ok? && TalksOk(w)
    ensures TalkOk(Step(w, op), op.o) && OnlyAt(w.market.fin, Step(w, op).market.fin, op.o)
  {
    ReportShape(w.market.fin, op.o, op.status, op.amountRepaid);
    assert TalkOk(w, op.o);
    hide TalksOk, Report, Timed, Announced, Live, ValidTerms;
  }

  lemma QuietKeeps(w: World, op: Op)
    requires (op.DoSetWindow? || op.Elsewhere? || op.Tick?) && TalksOk(w)
    ensures TalksOk(Step(w, op))
  {
    forall o ensures TalkOk(Step(w, op), o) {
      assert TalkOk(w, o);
    }
  }

  lemma StepKeepsTalks(w: World, op: Op)
    requires TalksOk(w)
    ensures TalksOk(Step(w, op))
  {
    if op.DoSetWindow? || op.Elsewhere? || op.Tick? {
      QuietKeeps(w, op);
    } else if Apply(w.market, op, w.now).Ok? {
      WindowStays(w.market, op, w.now);
      OffersStepKeeps(w, op);
      var v := Step(w, op);
      assert v.now == w.now && v.market.fin.window == w.market.fin.window;
      hide TalkOk, OnlyAt, Apply;
      forall p ensures TalkOk(v, p) {
        assert TalkOk(w, p);
        if p != op.o { OthersKeep(w, v, op.o, p); }
      }
    }
  }

  lemma WindowStays(s: Market, op: Op, now: Timestamp)
    requires !op.DoSetWindow? && Apply(s, op, now).Ok?
    ensures Apply(s, op, now).value.fin.window == s.fin.window
  {
  }

  lemma OffersStepKeeps(w: World, op: Op)
    requires !op.DoSetWindow? && !op.Elsewhere? && !op.Tick? && Apply(w.market, op, w.now).Ok? && TalksOk(w)
    ensures TalkOk(Step(w, op), op.o) && OnlyAt(w.market.fin, Step(w, op).market.fin, op.o)
  {
    hide TalksOk, TalkOk, OnlyAt, Apply;
    match op
    case DoCreate(_, _, _, _, _, _) => CreatingKeeps(w, op);
    case DoWithdraw(_, _) => LeavingKeeps(w, op);
    case DoReject(_, _) => LeavingKeeps(w, op);
    case DoAccept(_, _) => AcceptKeeps(w, op);
    case DoAmend(_, _, _, _) => ProposalKeeps(w, op);
    case DoCounter(_, _, _, _) => ProposalKeeps(w, op);
    case DoClose(_, _) => ClosingKeeps(w, op);
    case Callback(_, _, _) => ReportKeeps(w, op);
  }

  /** In every reachable state each negotiation's history is bounded, in order and inside its window;
      each offer's terms are the lender's last word; no pending offer sits on an agreement; and a
      closing has been announced exactly once for each negotiation that is over. */
  lemma {:induction false} RunKeepsTalks(w: World, ops: seq<Op>)
    requires TalksOk(w)
    ensures TalksOk(Run(w, ops))
    decreases |ops|
  {
    if ops != [] {
      StepKeepsTalks(w, ops[0]);
      RunKeepsTalks(Step(w, ops[0]), ops[1..]);
    }
  }

  lemma DeployedSound(reg: Registry.Registry, wallets: map<Address, int>, now: Timestamp)
    ensures TalksOk(World(Market(Empty(), reg, wallets), now, map[]))
  {
  }

  // ----- settlements -----

  /** An offer is funded only by its originator accepting it as it stands, or by a round after which
      both sides' live proposals are the same terms; either way on a pending invoice, before the
      offer expires. Settled terms are the standing ones, and the lender pays exactly their amount. */
  lemma SettlementIsAgreement(w: World, op: Op, o: Symbol)
    requires TalksOk(w) && o in w.market.fin.offers && w.market.fin.offers[o].status == Pending
    requires o in Step(w, op).market.fin.offers && Step(w, op).market.fin.offers[o].status == Accepted
    ensures var s, t := w.market, Step(w, op).market; var offer := t.fin.offers[o];
            && o in w.created
            && offer.terms == Standing(RoundsOf(t.fin.talks, o), w.created[o])
            && offer.invoice == s.fin.offers[o].invoice && offer.lender == s.fin.offers[o].lender
            && offer.invoice in s.reg.invoices && s.reg.invoices[offer.invoice].status == Status.Pending
            && !Stale(s.fin.offers[o], w.now)
            && var originator := s.reg.invoices[offer.invoice].originator;
               && InsuranceSteps.Transfer(s.wallets, offer.lender, originator, offer.terms.amount) == Some(t.wallets)
               && Registry.MarkFinanced(s.reg, offer.invoice, FINANCING, w.now) == Ok(t.reg)
               && (|| op == DoAccept(o, originator)
                   || ((op.DoAmend? || op.DoCounter?) && op.o == o
                       && op.who == (if op.DoAmend? then offer.lender else originator)
                       && TalkOf(s.fin, o, w.now) in {Unopened, Open}
                       && Live(RoundsOf(t.fin.talks, o), Originator) == Some(offer.terms)
                       && offer.lender !in s.reg.blacklist && originator !in s.reg.blacklist))
  {
    StepKeepsTalks(w, op);
    assert TalkOk(Step(w, op), o) && TalkOk(w, o);
    SettlingOps(w, op, o);
    if op.DoAccept? {
      AcceptanceSettles(w.market, o, op.who, w.now);
      hide HistoryOk, AnnouncedOk, TalksOk, Accept, TalkOf;
    } else {
      hide HistoryOk, AnnouncedOk, TalksOk, TalkOf;
      ProposalSettles(w, op);
      ProposalKeepsParties(w, op);
      hide Apply;
    }
  }

  lemma ProposalKeepsParties(w: World, op: Op)
    requires (op.DoAmend? || op.DoCounter?) && Apply(w.market, op, w.now).Ok?
    ensures var s, t := w.market, Step(w, op).market;
            && op.o in s.fin.offers && op.o in t.fin.offers
            && t.fin.offers[op.o].invoice == s.fin.offers[op.o].invoice
               && t.fin.offers[op.o].lender == s.fin.offers[op.o].lender
  {
    ProposalShape(w.market, op, w.now);
    hide Apply, Meets, TalkOf, WithRound, InsuranceSteps.Transfer, Registry.Move, Conclude;
  }

  lemma AcceptanceSettles(s: Market, o: Symbol, who: Address, now: Timestamp)
    requires Accept(s, o, who, now).Ok?
    ensures var t := Accept(s, o, who, now).value;
            && o in s.fin.offers && o in t.fin.offers
            && t.fin.offers[o] == s.fin.offers[o].(status := Accepted, fundedAt := now)
            && !Stale(s.fin.offers[o], now)
            && var offer := s.fin.offers[o];
               && offer.invoice in s.reg.invoices && s.reg.invoices[offer.invoice].status == Status.Pending
               && s.reg.invoices[offer.invoice].originator == who
               && InsuranceSteps.Transfer(s.wallets, offer.lender, who, offer.terms.amount) == Some(t.wallets)
               && Registry.MarkFinanced(s.reg, offer.invoice, FINANCING, now) == Ok(t.reg)
  {
    hide InsuranceSteps.Transfer, Registry.Move, Conclude;
  }

  lemma SettlingOps(w: World, op: Op, o: Symbol)
    requires o in w.market.fin.offers && w.market.fin.offers[o].status == Pending
    requires o in Step(w, op).market.fin.offers && Step(w, op).market.fin.offers[o].status == Accepted
    ensures Apply(w.market, op, w.now).Ok?
    ensures (op.DoAccept? || op.DoAmend? || op.DoCounter?) && op.o == o
  {
    if op.DoAmend? || op.DoCounter? {
      ProposalShape(w.market, op, w.now);
    }
  }

  lemma ProposalSettles(w: World, op: Op)
    requires (op.DoAmend? || op.DoCounter?) && Apply(w.market, op, w.now).Ok? && TalkOk(w, op.o)
    requires op.o in w.market.fin.offers && Step(w, op).market.fin.offers[op.o].status == Accepted
    ensures var s, t, o := w.market, Step(w, op).market, op.o; var offer := t.fin.offers[o];
            && offer.invoice in s.reg.invoices && s.reg.invoices[offer.invoice].status == Status.Pending
            && offer.terms == op.terms && Live(RoundsOf(t.fin.talks, o), Originator) == Some(op.terms)
            && TalkOf(s.fin, o, w.now) in {Unopened, Open} && !Stale(s.fin.offers[o], w.now)
            && var originator := s.reg.invoices[offer.invoice].originator;
               && op.who == (if op.DoAmend? then offer.lender else originator)
               && offer.lender !in s.reg.blacklist && originator !in s.reg.blacklist
               && InsuranceSteps.Transfer(s.wallets, offer.lender, originator, op.terms.amount) == Some(t.wallets)
               && Registry.MarkFinanced(s.reg, offer.invoice, FINANCING, w.now) == Ok(t.reg)
  {
    var s, side := w.market, SideOf(op);
    var mid := Between(s, op.o, side, op.terms, w.now);
    ProposalShape(s, op, w.now);
    RecordedTerms(s, mid, w.created, op.o, side, op.terms, w.now);
    AgreedExecutes(s, op, w.now);
    hide Apply, Recorded, HistoryOk, AnnouncedOk, TalkOf;
  }

  /** What an agreement is checked against before it is settled. */
  lemma AgreedExecutes(s: Market, op: Op, now: Timestamp)
    requires (op.DoAmend? || op.DoCounter?) && Apply(s, op, now).Ok? && op.o in s.fin.offers
             && Meets(s, op.o, SideOf(op), op.terms)
    ensures var offer := s.fin.offers[op.o];
            && offer.invoice in s.reg.invoices
            && var originator := s.reg.invoices[offer.invoice].originator;
               && op.who == (if op.DoAmend? then offer.lender else originator)
               && offer.lender !in s.reg.blacklist && originator !in s.reg.blacklist
    ensures TalkOf(s.fin, op.o, now) in {Unopened, Open}
  {
    hide Settle, WithRound;
  }

  /** A committed amendment or counter-offer settles exactly when, with its round recorded, the two
      sides' live proposals coincide: a superseded proposal counts for nothing. */
  lemma ProposalSettlesIffAgreed(w: World, op: Op)
    requires TalksOk(w) && (op.DoAmend? || op.DoCounter?) && Apply(w.market, op, w.now).Ok?
    ensures op.o in w.created
    ensures var t := Step(w, op).market; var rounds := RoundsOf(t.fin.talks, op.o);
            && op.o in t.fin.offers
            && (t.fin.offers[op.o].status == Accepted
                <==> Live(rounds, Originator) == Some(Standing(rounds, w.created[op.o])))
            && (t.fin.offers[op.o].status != Accepted ==> t.fin.offers[op.o].status == Pending)
  {
    ProposalShape(w.market, op, w.now);
    assert TalkOk(w, op.o);
    StepKeepsTalks(w, op);
    assert TalkOk(Step(w, op), op.o);
    if Step(w, op).market.fin.offers[op.o].status == Accepted {
      ProposalSettles(w, op);
    }
  }

  // ----- histories only grow -----

  /** Ended for good: an outcome is stored, the offer left the table, or the window has passed. */
  ghost predicate Over(f: Financing, o: Symbol, now: Timestamp) {
    o in f.offers && (f.offers[o].status != Pending || TalkOf(f, o, now) !in {Unopened, Open})
  }

  ghost predicate Grows(w: World, v: World, o: Symbol) {
    var f, g := w.market.fin, v.market.fin;
    && RoundsOf(f.talks, o) <= RoundsOf(g.talks, o)
    && (RoundsOf(f.talks, o) != [] ==> GetOr(g.talks.deadlines, o, 0) == GetOr(f.talks.deadlines, o, 0))
    && (Over(f, o, w.now) ==> Over(g, o, v.now) && RoundsOf(g.talks, o) == RoundsOf(f.talks, o))
    && (o in f.talks.outcomes ==> o in g.talks.outcomes && g.talks.outcomes[o] == f.talks.outcomes[o])
  }

  lemma SameGrows(w: World, v: World, o: Symbol, p: Symbol)
    requires OnlyAt(w.market.fin, v.market.fin, o) && p != o && v.now == w.now
    ensures Grows(w, v, p)
  {
  }

  lemma ProposalGrows(w: World, op: Op)
    requires (op.DoAmend? || op.DoCounter?) && Apply(w.market, op, w.now).Ok?
    ensures Grows(w, Step(w, op), op.o)
  {
    ProposalShape(w.market, op, w.now);
  }

  lemma OtherOpsGrow(w: World, op: Op)
    requires !op.DoAmend? && !op.DoCounter? && !op.DoSetWindow? && !op.Elsewhere? && !op.Tick?
    requires Apply(w.market, op, w.now).Ok? && TalkOk(w, op.o)
    ensures Grows(w, Step(w, op), op.o)
  {
    hide Timed, Announced, TermsOk, AnnouncedOk, InsuranceSteps.Transfer, Registry.Move;
    if op.Callback? {
      ReportShape(w.market.fin, op.o, op.status, op.amountRepaid);
      hide Report;
    } else if op.DoAccept? {
      AcceptShape(w.market, op.o, op.who, w.now);
      hide Accept;
    }
  }

  lemma StepGrows(w: World, op: Op, p: Symbol)
    requires TalksOk(w)
    ensures Grows(w, Step(w, op), p)
  {
    if Apply(w.market, op, w.now).Ok? && !op.DoSetWindow? && !op.Elsewhere? && !op.Tick? {
      assert TalkOk(w, op.o);
      OffersStepKeeps(w, op);
      if p != op.o { SameGrows(w, Step(w, op), op.o, p); }
      else if op.DoAmend? || op.DoCounter? { ProposalGrows(w, op); }
      else { OtherOpsGrow(w, op); }
    }
  }

  /** Along every run each history is only appended to, its deadline never moves, and a negotiation
      that is over stays over, with nothing added. */
  lemma {:induction false} RunGrows(w: World, ops: seq<Op>, o: Symbol)
    requires TalksOk(w)
    ensures Grows(w, Run(w, ops), o)
    decreases |ops|
  {
    if ops != [] {
      StepKeepsTalks(w, ops[0]);
      StepGrows(w, ops[0], o);
      RunGrows(Step(w, ops[0]), ops[1..], o);
    }
  }
}
