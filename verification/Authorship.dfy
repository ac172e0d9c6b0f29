/** Who is bound by a settlement. An originator's proposal stays live when the invoice's token moves on:
    the roles agree, the persons need not. */
module Authorship {
  import opened Base
  import opened Negotiation
  import opened FinancingSteps
  import opened RepaymentSteps
  import opened ProtocolRuns
  import opened InvoiceFit
  import Status
  import Registry = RegistrySteps
  import RegistryRuns
  import NegotiationRuns
  import InsuranceSteps

  /** The protocol, with the author of each offer's live originator proposal and everybody who has held
      the invoice since. */
  datatype Signed = Signed(w: World, author: map<Symbol, Address>, hands: map<Symbol, seq<Address>>)

  function Holder(author: Address, hands: seq<Address>): Address { if hands == [] then author else hands[|hands| - 1] }

  function PassedOn(s: Market, hands: map<Symbol, seq<Address>>, id: Symbol, to: Address): map<Symbol, seq<Address>> {
    map o | o in hands :: if o in s.fin.offers && s.fin.offers[o].invoice == id then hands[o] + [to] else hands[o]
  }

  /** A committed transfer of an invoice's token. */
  function HandedTo(w: World, op: Op): Option<(Address, Symbol)> {
    if op.InRegistry? && (op.reg.DoTransfer? || op.reg.DoTransferFrom?)
      && RegistryRuns.Apply(w.p.market.reg, op.reg, w.now).Ok?
    then RegistryRuns.Acquires(op.reg) else None
  }

  /** A committed counter-offer. */
  predicate Counters(w: World, op: Op) {
    op.InFinancing? && op.fin.DoCounter? && NegotiationRuns.Apply(w.p.market, op.fin, w.now).Ok?
  }

  ghost function SignedStep(g: Signed, cfg: Config, op: Op): Signed {
    var v := Step(g.w, cfg, op);
    if Counters(g.w, op) then Signed(v, g.author[op.fin.o := op.fin.who], g.hands[op.fin.o := []])
    else
      match HandedTo(g.w, op)
      case Some((to, id)) => Signed(v, g.author, PassedOn(g.w.p.market, g.hands, id, to))
      case None => Signed(v, g.author, g.hands)
  }

  ghost function SignedRun(g: Signed, calls: seq<Call>): Signed
    decreases |calls|
  {
    if calls == [] then g else SignedRun(SignedStep(g, calls[0].cfg, calls[0].op), calls[1..])
  }

  // ----- the invariant -----

  ghost predicate AuthorOk(s: Market, author: map<Symbol, Address>, hands: map<Symbol, seq<Address>>, o: Symbol) {
    && (o in author <==> Live(RoundsOf(s.fin.talks, o), Originator).Some?)
    && (o in author <==> o in hands)
    && (o in author ==>
          && o in s.fin.offers && s.fin.offers[o].invoice in s.reg.invoices
          && s.reg.invoices[s.fin.offers[o].invoice].originator == Holder(author[o], hands[o]))
  }

  ghost predicate AllAuthors(s: Market, author: map<Symbol, Address>, hands: map<Symbol, seq<Address>>) {
    forall o :: AuthorOk(s, author, hands, o)
  }

  /** Each live proposal's author held the invoice, and whoever took it over since holds it now. */
  ghost predicate SignedOk(g: Signed) {
    RegistryRuns.TokensOk(g.w.p.market.reg) && AllAuthors(g.w.p.market, g.author, g.hands)
  }

  // ----- nothing of this moves -----

  /** Offers keep their invoices and rounds, invoices their originators. */
  ghost predicate SameHands(s: Market, t: Market) {
    && (forall id :: id in s.reg.invoices ==>
          id in t.reg.invoices && t.reg.invoices[id].originator == s.reg.invoices[id].originator)
    && (forall o :: o in s.fin.offers ==> o in t.fin.offers && t.fin.offers[o].invoice == s.fin.offers[o].invoice)
  }

  ghost predicate SameRounds(s: Market, t: Market) {
    forall o :: RoundsOf(t.fin.talks, o) == RoundsOf(s.fin.talks, o)
  }

  lemma SameHandsKeep(s: Market, t: Market, author: map<Symbol, Address>, hands: map<Symbol, seq<Address>>)
    requires AllAuthors(s, author, hands) && SameHands(s, t) && SameRounds(s, t)
    ensures AllAuthors(t, author, hands)
  {
    forall o ensures AuthorOk(t, author, hands, o) {
      assert AuthorOk(s, author, hands, o);
    }
  }

  lemma MoveKeepsHands(s: Registry.Registry, id: Symbol, to: Status.InvoiceStatus, actor: Address, now: Timestamp)
    requires Registry.Move(s, id, to, actor, now).Ok?
    ensures var t := Registry.Move(s, id, to, actor, now).value;
            forall k :: k in s.invoices ==> k in t.invoices && t.invoices[k].originator == s.invoices[k].originator
    ensures RegistryRuns.TokensOk(s) ==> RegistryRuns.TokensOk(Registry.Move(s, id, to, actor, now).value)
  {
    if RegistryRuns.TokensOk(s) {
      forall k ensures RegistryRuns.TokenOk(Registry.Move(s, id, to, actor, now).value, k) {
        assert RegistryRuns.TokenOk(s, id) && RegistryRuns.TokenOk(s, k);
        RegistryRuns.MoveKeepsToken(s, id, to, actor, now, k);
      }
    }
  }

  // ----- registry calls -----

  /** The market after invoice id has gone to another originator. */
  ghost predicate Handed(s: Market, t: Market, to: Address, id: Symbol) {
    && t.fin == s.fin
    && id in t.reg.invoices && t.reg.invoices[id].originator == to
    && (forall k :: k in s.reg.invoices && k != id ==>
          k in t.reg.invoices && t.reg.invoices[k].originator == s.reg.invoices[k].originator)
  }

  lemma HandedKeeps(s: Market, t: Market, author: map<Symbol, Address>, hands: map<Symbol, seq<Address>>, to: Address,
                    id: Symbol)
    requires AllAuthors(s, author, hands) && Handed(s, t, to, id)
    ensures AllAuthors(t, author, PassedOn(s, hands, id, to))
  {
    forall o ensures AuthorOk(t, author, PassedOn(s, hands, id, to), o) {
      assert AuthorOk(s, author, hands, o);
    }
  }

  lemma RegistryMoves(w: World, op: RegistryRuns.Op)
    requires RegistryRuns.TokensOk(w.p.market.reg) && RegistryRuns.Apply(w.p.market.reg, op, w.now).Ok?
    ensures var t := RegistryStep(w, op).p.market;
            && RegistryRuns.TokensOk(t.reg)
            && t.fin == w.p.market.fin
            && (if op.DoTransfer? || op.DoTransferFrom?
                then Handed(w.p.market, t, RegistryRuns.Acquires(op).value.0, RegistryRuns.Acquires(op).value.1)
                else SameHands(w.p.market, t))
  {
    RegistryRuns.StepKeepsTokens(w.p.market.reg, op, w.now);
    if RegistryRuns.Acquires(op).Some? {
      RegistryRuns.AcquiringStep(w.p.market.reg, op, w.now);
      if op.DoRegister? { FreshId(w.p.market.reg, op, w.now); }
    } else {
      RegistryRuns.QuietOnOriginators(w.p.market.reg, op, w.now);
    }
    hide RegistryRuns.Apply, RegistryRuns.TokensOk, Registry.Indexed;
  }

  lemma RegistryKeepsAuthors(g: Signed, cfg: Config, op: Op)
    requires op.InRegistry? && SignedOk(g) && RegistryRuns.Apply(g.w.p.market.reg, op.reg, g.w.now).Ok?
    ensures SignedOk(SignedStep(g, cfg, op))
  {
    hide RegistryRuns.Apply, RegistryRuns.TokensOk, AllAuthors, RegistryStep, Handed, SameHands;
    var s, t := g.w.p.market, RegistryStep(g.w, op.reg).p.market;
    RegistryMoves(g.w, op.reg);
    if op.reg.DoTransfer? || op.reg.DoTransferFrom? {
      HandedKeeps(s, t, g.author, g.hands, RegistryRuns.Acquires(op.reg).value.0,
                  RegistryRuns.Acquires(op.reg).value.1);
    } else {
      SameHandsKeep(s, t, g.author, g.hands);
    }
  }

  lemma FreshId(s: Registry.Registry, op: RegistryRuns.Op, now: Timestamp)
    requires op.DoRegister? && RegistryRuns.Apply(s, op, now).Ok?
    ensures op.id !in s.invoices
  {
  }

  // ----- financing calls -----

  /** Each round lands on its own offer. */
  lemma RoundsMove(s: Market, op: NegotiationRuns.Op, now: Timestamp)
    requires Public(InFinancing(op)) && NegotiationRuns.Apply(s, op, now).Ok?
    ensures var t := NegotiationRuns.Apply(s, op, now).value;
            if op.DoAmend? || op.DoCounter? then
              forall o :: RoundsOf(t.fin.talks, o) == RoundsOf(s.fin.talks, o)
                            + if o == op.o then [Round(NegotiationRuns.SideOf(op), op.terms, now)] else []
            else SameRounds(s, t)
  {
    if op.DoAmend? || op.DoCounter? {
      ProposalRounds(s, op, now);
    } else {
      OtherRounds(s, op, now);
    }
  }

  lemma OtherRounds(s: Market, op: NegotiationRuns.Op, now: Timestamp)
    requires Public(InFinancing(op)) && !op.DoAmend? && !op.DoCounter? && NegotiationRuns.Apply(s, op, now).Ok?
    ensures SameRounds(s, NegotiationRuns.Apply(s, op, now).value)
  {
    hide InsuranceSteps.Transfer, Registry.Move, TalkOf;
  }

  lemma ProposalRounds(s: Market, op: NegotiationRuns.Op, now: Timestamp)
    requires (op.DoAmend? || op.DoCounter?) && NegotiationRuns.Apply(s, op, now).Ok?
    ensures var t := NegotiationRuns.Apply(s, op, now).value;
            forall o :: RoundsOf(t.fin.talks, o) == RoundsOf(s.fin.talks, o)
                          + if o == op.o then [Round(NegotiationRuns.SideOf(op), op.terms, now)] else []
  {
    NegotiationRuns.ProposalShape(s, op, now);
    var t, side := NegotiationRuns.Apply(s, op, now).value, NegotiationRuns.SideOf(op);
    var mid := NegotiationRuns.Between(s, op.o, side, op.terms, now);
    hide NegotiationRuns.Apply, NegotiationRuns.Meets, NegotiationRuns.Settled, NegotiationRuns.Recorded,
         NegotiationRuns.SideOf, NegotiationRuns.Between;
    RecordedRounds(s, mid, op.o, side, op.terms, now);
    if NegotiationRuns.Meets(s, op.o, side, op.terms) {
      SettledRounds(mid, t, op.o, now);
    }
  }

  lemma RecordedRounds(s: Market, mid: Market, o: Symbol, side: Side, terms: Terms, now: Timestamp)
    requires NegotiationRuns.Recorded(s, mid, o, side, terms, now)
    ensures forall p :: RoundsOf(mid.fin.talks, p)
                        == RoundsOf(s.fin.talks, p) + if p == o then [Round(side, terms, now)] else []
  {
    hide TalkOf;
  }

  lemma SettledRounds(s: Market, t: Market, o: Symbol, now: Timestamp)
    requires NegotiationRuns.Settled(s, t, o, now)
    ensures SameRounds(s, t)
  {
    hide InsuranceSteps.Transfer, Registry.Move;
  }

  /** What a financing call does to originators: nothing. */
  lemma FinancingKeepsHands(w: World, op: NegotiationRuns.Op)
    requires Public(InFinancing(op)) && ValidOffers(w.p.market.fin) && NegotiationRuns.Apply(w.p.market, op, w.now).Ok?
    ensures var t := NegotiationRuns.Apply(w.p.market, op, w.now).value;
            && SameHands(w.p.market, t)
            && (RegistryRuns.TokensOk(w.p.market.reg) ==> RegistryRuns.TokensOk(t.reg))
  {
    var s, t := w.p.market, NegotiationRuns.Apply(w.p.market, op, w.now).value;
    FinancingShape(s, op, w.now);
    FinancingAmounts(s, op, w.now);
    hide NegotiationRuns.Apply, RegistryRuns.TokensOk, Registry.Move;
    if FundedBy(s, t, op).Some? {
      var o := FundedBy(s, t, op).value;
      MoveKeepsHands(s.reg, s.fin.offers[o].invoice, Status.Financed, FINANCING, w.now);
    }
  }

  lemma CounterIsByOriginator(s: Market, op: NegotiationRuns.Op, now: Timestamp)
    requires op.DoCounter? && NegotiationRuns.Apply(s, op, now).Ok?
    ensures op.o in s.fin.offers && s.fin.offers[op.o].invoice in s.reg.invoices
    ensures s.reg.invoices[s.fin.offers[op.o].invoice].originator == op.who
  {
    hide Execute, WithRound, Negotiable;
  }

  /** A round by its offer's originator, or anybody's round or none at all, keeps the authors in order. */
  lemma RoundsKeepAuthors(s: Market, t: Market, author: map<Symbol, Address>, hands: map<Symbol, seq<Address>>,
                          o: Symbol, side: Side, terms: Terms, now: Timestamp, who: Address)
    requires AllAuthors(s, author, hands) && SameHands(s, t)
    requires forall p :: RoundsOf(t.fin.talks, p)
                         == RoundsOf(s.fin.talks, p) + if p == o then [Round(side, terms, now)] else []
    requires side == Originator ==>
               o in s.fin.offers && s.fin.offers[o].invoice in s.reg.invoices
                 && s.reg.invoices[s.fin.offers[o].invoice].originator == who
    ensures side == Originator ==> AllAuthors(t, author[o := who], hands[o := []])
    ensures side == Lender ==> AllAuthors(t, author, hands)
  {
    NegotiationRuns.LiveSnoc(RoundsOf(s.fin.talks, o), Round(side, terms, now), Originator);
    hide Live;
    if side == Originator {
      var author', hands' := author[o := who], hands[o := []];
      forall p ensures AuthorOk(t, author', hands', p) {
        assert AuthorOk(s, author, hands, p);
        assert RoundsOf(s.fin.talks, p) + [] == RoundsOf(s.fin.talks, p);
      }
    } else {
      forall p ensures AuthorOk(t, author, hands, p) {
        assert AuthorOk(s, author, hands, p);
        assert RoundsOf(s.fin.talks, p) + [] == RoundsOf(s.fin.talks, p);
      }
    }
  }

  lemma SignedFinancing(g: Signed, cfg: Config, op: Op)
    requires op.InFinancing? && NegotiationRuns.Apply(g.w.p.market, op.fin, g.w.now).Ok?
    ensures var v := SignedStep(g, cfg, op);
            && v.w.p.market == NegotiationRuns.Apply(g.w.p.market, op.fin, g.w.now).value
            && v.author == (if op.fin.DoCounter? then g.author[op.fin.o := op.fin.who] else g.author)
            && v.hands == (if op.fin.DoCounter? then g.hands[op.fin.o := []] else g.hands)
  {
    hide NegotiationRuns.Apply, RegistryRuns.Apply, FundedBy, InsuranceRuns.Apply, RepayStep, ReclaimStep, PassedOn;
  }

  lemma FinancingKeepsAuthors(g: Signed, cfg: Config, op: Op)
    requires op.InFinancing? && Public(op) && SignedOk(g) && ValidOffers(g.w.p.market.fin)
    requires NegotiationRuns.Apply(g.w.p.market, op.fin, g.w.now).Ok?
    ensures SignedOk(SignedStep(g, cfg, op))
  {
    hide Public, Step, SignedStep, Counters, HandedTo, PassedOn, ValidOffers, AllAuthors, SameHands,
         NegotiationRuns.Apply, RegistryRuns.TokensOk, RoundsOf;
    SignedFinancing(g, cfg, op);
    var s, t, f := g.w.p.market, NegotiationRuns.Apply(g.w.p.market, op.fin, g.w.now).value, op.fin;
    FinancingKeepsHands(g.w, f);
    RoundsMove(s, f, g.w.now);
    if f.DoCounter? { CounterIsByOriginator(s, f, g.w.now); }
    if f.DoCounter? {
      RoundsKeepAuthors(s, t, g.author, g.hands, f.o, Originator, f.terms, g.w.now, f.who);
    } else if f.DoAmend? {
      RoundsKeepAuthors(s, t, g.author, g.hands, f.o, Lender, f.terms, g.w.now, 0);
    } else {
      SameHandsKeep(s, t, g.author, g.hands);
    }
  }

  // ----- every step -----

  lemma RepaidKeepsHands(s: Registry.Registry, id: Symbol, full: bool, now: Timestamp)
    requires Registry.MarkRepaid(s, id, REPAYMENT, full, now).Ok?
    ensures var t := Registry.MarkRepaid(s, id, REPAYMENT, full, now).value;
            && (forall k :: k in s.invoices ==> k in t.invoices && t.invoices[k].originator == s.invoices[k].originator)
            && (RegistryRuns.TokensOk(s) ==> RegistryRuns.TokensOk(t))
  {
    hide Registry.Move, RegistryRuns.TokensOk;
    MoveKeepsHands(s, id, if full then Status.Repaid else Status.Financed, REPAYMENT, now);
  }

  lemma ReportKeepsRounds(f: Financing, o: Symbol, repaid: int, full: bool)
    requires o in f.offers
    ensures var g := Reported(f, o, repaid, full);
            g.talks == f.talks && forall p :: p in f.offers ==>
                p in g.offers && g.offers[p].invoice == f.offers[p].invoice
  {
  }

  lemma RepayKeepsHands(w: World, cfg: Config, invoice: Symbol, o: Symbol, payer: Address, amount: int)
    ensures var t := RepayStep(w, cfg, invoice, o, payer, amount).p.market;
            && SameHands(w.p.market, t) && SameRounds(w.p.market, t)
            && (RegistryRuns.TokensOk(w.p.market.reg) ==> RegistryRuns.TokensOk(t.reg))
  {
    hide Repay, Recorded, Remaining, Registry.MarkRepaid, RegistryRuns.TokensOk, Reported, Payable;
    if Repay(w.p, cfg, invoice, o, payer, amount, w.now).Ok? {
      RepayShape(w.p, cfg, invoice, o, payer, amount, w.now);
      var offer, pays := w.p.market.fin.offers[o], PaysOf(w.p, invoice);
      var p := Recorded(offer, pays, payer, amount, w.now);
      var full := Remaining(offer, pays) - p.principal <= 0;
      RepaidKeepsHands(w.p.market.reg, invoice, full, w.now);
      ReportKeepsRounds(w.p.market.fin, o, offer.amountRepaid + p.principal, full);
    }
  }

  lemma ReclaimKeepsHands(w: World, cfg: Config, invoice: Symbol, o: Symbol, lender: Address)
    ensures var t := ReclaimStep(w, cfg, invoice, o, lender).p.market;
            && SameHands(w.p.market, t) && SameRounds(w.p.market, t)
            && (RegistryRuns.TokensOk(w.p.market.reg) ==> RegistryRuns.TokensOk(t.reg))
  {
    if Reclaim(w.p, cfg, invoice, o, lender, w.now).Ok? {
      ReclaimShape(w.p, cfg, invoice, o, lender, w.now);
      assert Registry.MarkDefaulted(w.p.market.reg, invoice, REPAYMENT, w.now).Ok?;
      hide Reclaim, Registry.Move, RegistryRuns.TokensOk;
      MoveKeepsHands(w.p.market.reg, invoice, Status.Defaulted, REPAYMENT, w.now);
    }
  }

  lemma StepKeepsSigned(g: Signed, cfg: Config, op: Op)
    requires Public(op) && Inv(g.w) && SignedOk(g)
    ensures SignedOk(SignedStep(g, cfg, op))
  {
    assert ValidOffers(g.w.p.market.fin) by { InvGivesValidOffers(g.w); }
    hide Inv, RegistryRuns.TokensOk, AllAuthors, SameHands, SameRounds;
    match op
    case InRegistry(r) => if RegistryRuns.Apply(g.w.p.market.reg, r, g.w.now).Ok? { RegistryKeepsAuthors(g, cfg, op); }
    case InFinancing(f) => if NegotiationRuns.Apply(g.w.p.market, f, g.w.now).Ok? { FinancingKeepsAuthors(g, cfg, op); }
    case DoRepay(i, o, a, amount) =>
      RepayKeepsHands(g.w, cfg, i, o, a, amount);
      SameHandsKeep(g.w.p.market, RepayStep(g.w, cfg, i, o, a, amount).p.market, g.author, g.hands);
    case DoReclaim(i, o, a) =>
      ReclaimKeepsHands(g.w, cfg, i, o, a);
      SameHandsKeep(g.w.p.market, ReclaimStep(g.w, cfg, i, o, a).p.market, g.author, g.hands);
    case _ =>
  }

  lemma {:induction false} RunKeepsSigned(g: Signed, calls: seq<Call>)
    requires AllPublic(calls) && Inv(g.w) && SignedOk(g)
    ensures Inv(SignedRun(g, calls).w) && SignedOk(SignedRun(g, calls))
    decreases |calls|
  {
    if calls != [] {
      var cfg, op := calls[0].cfg, calls[0].op;
      StepKeeps(g.w, cfg, op);
      StepKeepsSigned(g, cfg, op);
      assert SignedStep(g, cfg, op).w == Step(g.w, cfg, op);
      hide Inv, SignedOk, SignedStep;
      RunKeepsSigned(SignedStep(g, cfg, op), calls[1..]);
    }
  }

  lemma DeployedSigned(blacklist: set<Address>, wallets: map<Address, int>, staking: map<Address, int>, now: Timestamp)
    ensures var g := Signed(Deployed(blacklist, wallets, staking, now), map[], map[]); Inv(g.w) && SignedOk(g)
  {
    DeployedSound(blacklist, wallets, staking, now);
  }

  // ----- who is bound -----

  /** When an amendment settles an offer, the originator it binds, and who is paid, is the author of the
      proposal it meets if and only if the invoice has not changed hands since that proposal, or has come
      back to its author. */
  lemma BoundByOwnProposalIff(blacklist: set<Address>, wallets: map<Address, int>, staking: map<Address, int>,
                              now: Timestamp, calls: seq<Call>, op: NegotiationRuns.Op)
    requires AllPublic(calls) && op.DoAmend?
    requires var g := SignedRun(Signed(Deployed(blacklist, wallets, staking, now), map[], map[]), calls);
             Settles(g.w, op)
    ensures var g := SignedRun(Signed(Deployed(blacklist, wallets, staking, now), map[], map[]), calls);
            var s := g.w.p.market; var offer := s.fin.offers[op.o];
            && offer.invoice in s.reg.invoices && op.o in g.author && op.o in g.hands
            && (g.author[op.o] == s.reg.invoices[offer.invoice].originator
                <==> g.hands[op.o] == [] || g.hands[op.o][|g.hands[op.o]| - 1] == g.author[op.o])
  {
    var start := Signed(Deployed(blacklist, wallets, staking, now), map[], map[]);
    DeployedSigned(blacklist, wallets, staking, now);
    RunKeepsSigned(start, calls);
    var g := SignedRun(start, calls);
    hide SignedRun, Inv;
    AmendMeetsAuthor(g, op);
  }

  /** An amendment that funds its offer. */
  ghost predicate Settles(w: World, op: NegotiationRuns.Op) {
    && op.DoAmend? && NegotiationRuns.Apply(w.p.market, op, w.now).Ok?
    && op.o in w.p.market.fin.offers && NegotiationRuns.Meets(w.p.market, op.o, Lender, op.terms)
  }

  lemma AmendMeetsAuthor(g: Signed, op: NegotiationRuns.Op)
    requires SignedOk(g) && Settles(g.w, op)
    ensures var s := g.w.p.market; var offer := s.fin.offers[op.o];
            && offer.invoice in s.reg.invoices && op.o in g.author && op.o in g.hands
            && s.reg.invoices[offer.invoice].originator == Holder(g.author[op.o], g.hands[op.o])
  {
    assert AuthorOk(g.w.p.market, g.author, g.hands, op.o);
    hide NegotiationRuns.Apply, RegistryRuns.TokensOk, AllAuthors;
  }

  /** An amendment that meets a live counter-offer and that nothing stands in the way of. */
  ghost predicate Settleable(s: Market, o: Symbol, expected: nat, terms: Terms, now: Timestamp) {
    && o in s.fin.offers && s.fin.offers[o].invoice in s.reg.invoices
    && Negotiable(s.fin, o, expected, now).Ok? && Live(RoundsOf(s.fin.talks, o), Originator) == Some(terms)
       && ValidTerms(terms)
    && var offer, inv := s.fin.offers[o], s.reg.invoices[s.fin.offers[o].invoice];
       && inv.status == Status.Pending && !Stale(offer, now)
       && offer.lender !in s.reg.blacklist && inv.originator !in s.reg.blacklist
       && GetOr(s.wallets, offer.lender, 0) >= terms.amount
  }

  /** It commits, funds the offer, and pays whoever is the originator by then. */
  lemma AmendmentPaysOriginator(s: Market, o: Symbol, expected: nat, terms: Terms, now: Timestamp)
    requires Settleable(s, o, expected, terms, now)
    ensures var offer := s.fin.offers[o];
            var r := Amend(s, o, offer.lender, expected, terms, now);
            && r.Ok? && o in r.value.fin.offers && r.value.fin.offers[o].status == Accepted
            && Some(r.value.wallets)
               == InsuranceSteps.Transfer(s.wallets, offer.lender, s.reg.invoices[offer.invoice].originator,
                                          terms.amount)
  {
    hide Live, WithRound, Conclude, TalkOf;
  }

  /** What a transfer by the author of the live proposal leaves. */
  lemma TransferHands(g: Signed, cfg: Config, from: Address, to: Address, o: Symbol)
    requires SignedOk(g) && o in g.author && o in g.hands && g.author[o] == from && g.hands[o] == []
    requires o in g.w.p.market.fin.offers
    requires Registry.Transfer(g.w.p.market.reg, from, to, Registry.TokenOf(g.w.p.market.fin.offers[o].invoice)).Ok?
    ensures var offer, s := g.w.p.market.fin.offers[o], g.w.p.market;
            var h := SignedStep(g, cfg, InRegistry(RegistryRuns.DoTransfer(from, to, Registry.TokenOf(offer.invoice))));
            var t := h.w.p.market;
            && t.fin == s.fin && t.wallets == s.wallets && h.w.now == g.w.now
            && o in h.author && h.author[o] == from && o in h.hands && h.hands[o] == [to]
            && offer.invoice in s.reg.invoices && offer.invoice in t.reg.invoices
            && t.reg.invoices[offer.invoice] == s.reg.invoices[offer.invoice].(originator := to)
            && t.reg.blacklist == s.reg.blacklist && to !in s.reg.blacklist
  {
    var id := g.w.p.market.fin.offers[o].invoice;
    assert AuthorOk(g.w.p.market, g.author, g.hands, o);
    assert RegistryRuns.TokenOk(g.w.p.market.reg, id);
    hide RegistryRuns.TokensOk, AllAuthors, Live, SignedStep, SignedOk, Registry.Transfer, PassedOn;
    TokenMoves(g.w.p.market.reg, from, to, id);
    SignedTransfer(g, cfg, from, to, id);
    HandsGrow(g.w.p.market, g.hands, o, to);
  }

  lemma TokenMoves(s: Registry.Registry, from: Address, to: Address, id: Symbol)
    requires RegistryRuns.TokenOk(s, id) && Registry.Transfer(s, from, to, Registry.TokenOf(id)).Ok?
    ensures var t := Registry.Transfer(s, from, to, Registry.TokenOf(id)).value;
            && id in s.invoices && id in t.invoices && t.invoices[id] == s.invoices[id].(originator := to)
            && t.blacklist == s.blacklist && to !in s.blacklist
  {
  }

  lemma SignedTransfer(g: Signed, cfg: Config, from: Address, to: Address, id: Symbol)
    requires Registry.Transfer(g.w.p.market.reg, from, to, Registry.TokenOf(id)).Ok?
    ensures var h := SignedStep(g, cfg, InRegistry(RegistryRuns.DoTransfer(from, to, Registry.TokenOf(id))));
            && h.w.p.market
               == g.w.p.market.(reg := Registry.Transfer(g.w.p.market.reg, from, to, Registry.TokenOf(id)).value)
            && h.w.now == g.w.now && h.author == g.author && h.hands == PassedOn(g.w.p.market, g.hands, id, to)
  {
    hide Registry.Transfer, PassedOn, RepayStep, ReclaimStep, FinancingStep, InsuranceStep, NegotiationRuns.Apply;
  }

  lemma HandsGrow(s: Market, hands: map<Symbol, seq<Address>>, o: Symbol, to: Address)
    requires o in hands && o in s.fin.offers
    ensures o in PassedOn(s, hands, s.fin.offers[o].invoice, to)
    ensures PassedOn(s, hands, s.fin.offers[o].invoice, to)[o] == hands[o] + [to]
  {
  }

  /** A transfer between a counter-offer and the amendment that meets it binds the new originator to
      terms it never proposed: the amendment commits, and the lender's money goes to the new originator on
      the old one's word. */
  lemma TransferBindsNewOriginator(g: Signed, cfg: Config, from: Address, to: Address, o: Symbol, expected: nat,
                                   terms: Terms)
    requires SignedOk(g) && o in g.author && o in g.hands && g.author[o] == from && g.hands[o] == [] && from != to
    requires Settleable(g.w.p.market, o, expected, terms, g.w.now)
    requires Registry.Transfer(g.w.p.market.reg, from, to, Registry.TokenOf(g.w.p.market.fin.offers[o].invoice)).Ok?
    ensures var offer := g.w.p.market.fin.offers[o];
            var amend := NegotiationRuns.DoAmend(o, offer.lender, expected, terms);
            var h := SignedStep(g, cfg, InRegistry(RegistryRuns.DoTransfer(from, to, Registry.TokenOf(offer.invoice))));
            var t := Step(h.w, cfg, InFinancing(amend)).p.market;
            && o in h.author && h.author[o] == from && o in h.hands && h.hands[o] == [to] && Settles(h.w, amend)
            && offer.invoice in h.w.p.market.reg.invoices && h.w.p.market.reg.invoices[offer.invoice].originator == to
            && o in t.fin.offers && t.fin.offers[o].status == Accepted
            && Some(t.wallets) == InsuranceSteps.Transfer(g.w.p.market.wallets, offer.lender, to, terms.amount)
  {
    var offer := g.w.p.market.fin.offers[o];
    var amend := NegotiationRuns.DoAmend(o, offer.lender, expected, terms);
    var move := InRegistry(RegistryRuns.DoTransfer(from, to, Registry.TokenOf(offer.invoice)));
    TransferHands(g, cfg, from, to, o);
    hide SignedOk, Registry.Transfer, SignedStep, Live, Negotiable, InsuranceSteps.Transfer;
    var h := SignedStep(g, cfg, move);
    assert Settleable(h.w.p.market, o, expected, terms, h.w.now);
    AmendmentPaysOriginator(h.w.p.market, o, expected, terms, h.w.now);
    hide Settleable, Amend;
    AmendCommits(h.w, cfg, amend);
  }

  lemma AmendCommits(w: World, cfg: Config, op: NegotiationRuns.Op)
    requires op.DoAmend? && Amend(w.p.market, op.o, op.who, op.expected, op.terms, w.now).Ok?
    ensures NegotiationRuns.Apply(w.p.market, op, w.now).Ok?
    ensures Step(w, cfg, InFinancing(op)).p.market
            == Amend(w.p.market, op.o, op.who, op.expected, op.terms, w.now).value
  {
    hide Amend, FundedBy;
  }

  // ----- a run that binds somebody else -----

  const FIRST: Terms := Terms(5_000_000, 500, 86_400)
  const COUNTERED: Terms := Terms(4_000_000, 400, 86_400)

  function Opening(): Op { InRegistry(RegistryRuns.DoRegister(5, 1, 10_000_000, 0, 1_000)) }

  function Offering(): Op { InFinancing(NegotiationRuns.DoCreate(7, 5, 2, FIRST, 0, 0)) }

  function Countering(): Op { InFinancing(NegotiationRuns.DoCounter(7, 1, 0, COUNTERED)) }

  function Passing(): Op { InRegistry(RegistryRuns.DoTransfer(1, 4, Registry.TokenOf(5))) }

  function Meeting(): NegotiationRuns.Op { NegotiationRuns.DoAmend(7, 2, 1, COUNTERED) }

  ghost function Start(): Signed { Signed(Deployed({}, map[2 := 5_000_000], map[], 0), map[], map[]) }

  /** One pending invoice of originator 1. */
  ghost predicate Opened(g: Signed) {
    && g.w.now == 0 && g.w.p.market.fin == Empty() && g.w.p.market.wallets == map[2 := 5_000_000]
    && g.w.p.market.reg.invoices == map[5 := Registry.Invoice(1, 10_000_000, 0, 1_000, Status.Pending)]
    && g.w.p.market.reg.blacklist == {}
    && g.author == map[] && g.hands == map[]
  }

  /** And an offer on it by lender 2, with these rounds. */
  ghost predicate Offered(g: Signed, rounds: seq<Round>, authors: map<Symbol, Address>) {
    && g.w.now == 0 && g.w.p.market.wallets == map[2 := 5_000_000]
    && g.w.p.market.reg.invoices == map[5 := Registry.Invoice(1, 10_000_000, 0, 1_000, Status.Pending)]
    && g.w.p.market.reg.blacklist == {}
    && 7 in g.w.p.market.fin.offers && g.w.p.market.fin.offers[7] == Offer(5, 2, FIRST, 0, 0, OfferStatus.Pending, 0, 0)
    && RoundsOf(g.w.p.market.fin.talks, 7) == rounds && g.w.p.market.fin.talks.outcomes == map[]
    && g.author == authors && g.hands.Keys == authors.Keys && (7 in g.hands ==> g.hands[7] == [])
  }

  lemma Opens(cfg: Config)
    ensures Opened(SignedStep(Start(), cfg, Opening()))
  {
    hide RepayStep, ReclaimStep, InsuranceStep;
  }

  lemma Offers(g: Signed, cfg: Config)
    requires Opened(g)
    ensures Offered(SignedStep(g, cfg, Offering()), [], map[])
  {
    hide RepayStep, ReclaimStep, InsuranceStep;
  }

  lemma Countered(g: Signed, cfg: Config)
    requires Offered(g, [], map[])
    ensures Offered(SignedStep(g, cfg, Countering()), [Round(Originator, COUNTERED, 0)], map[7 := 1])
  {
    hide RepayStep, ReclaimStep, InsuranceStep;
  }

  lemma CounteredIsSettleable(g: Signed)
    requires Offered(g, [Round(Originator, COUNTERED, 0)], map[7 := 1])
    ensures Settleable(g.w.p.market, 7, 1, COUNTERED, g.w.now)
  {
  }

  lemma OwnerMayTransfer(s: Registry.Registry, from: Address, to: Address, id: Symbol)
    requires RegistryRuns.TokenOk(s, id) && id in s.invoices && s.invoices[id].status == Status.Pending
    requires s.invoices[id].originator == from && from != to && s.blacklist == {}
    ensures Registry.Transfer(s, from, to, Registry.TokenOf(id)).Ok?
  {
  }

  lemma SignedRunCons(g: Signed, c: Call, rest: seq<Call>)
    ensures SignedRun(g, [c] + rest) == SignedRun(SignedStep(g, c.cfg, c.op), rest)
  {
    hide SignedStep;
    assert ([c] + rest)[1..] == rest;
  }

  lemma SignedRunThree(g: Signed, a: Call, b: Call, c: Call)
    ensures SignedRun(g, [a, b, c]) == SignedStep(SignedStep(SignedStep(g, a.cfg, a.op), b.cfg, b.op), c.cfg, c.op)
  {
    hide SignedStep;
    assert [a, b, c] == [a] + [b, c] && [b, c] == [b] + [c] && [c] == [c] + [];
    SignedRunCons(g, a, [b, c]);
    SignedRunCons(SignedStep(g, a.cfg, a.op), b, [c]);
    SignedRunCons(SignedStep(SignedStep(g, a.cfg, a.op), b.cfg, b.op), c, []);
  }

  lemma SignedRunFour(g: Signed, a: Call, b: Call, c: Call, d: Call)
    ensures SignedRun(g, [a, b, c, d])
            == SignedStep(SignedStep(SignedStep(SignedStep(g, a.cfg, a.op), b.cfg, b.op), c.cfg, c.op), d.cfg, d.op)
  {
    hide SignedStep;
    assert [a, b, c, d] == [a] + [b, c, d];
    SignedRunCons(g, a, [b, c, d]);
    SignedRunThree(SignedStep(g, a.cfg, a.op), b, c, d);
  }

  ghost function Passed(cfg: Config): seq<Call> {
    [Call(cfg, Opening()), Call(cfg, Offering()), Call(cfg, Countering()), Call(cfg, Passing())]
  }

  /** A run from deployment: originator 1 registers an invoice, lender 2 offers on it, 1 counters, and
      passes the token on to 4; the amendment that meets 1's proposal then settles, and 4 is paid. */
  lemma SomeoneElseIsBound(cfg: Config)
    ensures AllPublic(Passed(cfg))
    ensures var g := SignedRun(Start(), Passed(cfg)); var t := Step(g.w, cfg, InFinancing(Meeting())).p.market;
            && Settles(g.w, Meeting())
            && 7 in g.author && g.author[7] == 1 && 7 in g.hands && g.hands[7] == [4]
            && 5 in g.w.p.market.reg.invoices && g.w.p.market.reg.invoices[5].originator == 4
            && 7 in t.fin.offers && t.fin.offers[7].status == Accepted
            && GetOr(t.wallets, 4, 0) == 4_000_000 && GetOr(t.wallets, 1, 0) == 0
  {
    hide SignedStep, SignedRun, Step, SignedOk, Offered, Opened, Settleable, Registry.Transfer, Settles;
    SignedRunFour(Start(), Call(cfg, Opening()), Call(cfg, Offering()), Call(cfg, Countering()), Call(cfg, Passing()));
    var g1 := SignedStep(Start(), cfg, Opening());
    var g2 := SignedStep(g1, cfg, Offering());
    var g3 := SignedStep(g2, cfg, Countering());
    Opens(cfg);
    Offers(g1, cfg);
    Countered(g2, cfg);
    CounteredIsSettleable(g3);
    StillSigned(cfg, g3);
    BoundFrom(g3, cfg);
  }

  lemma StillSigned(cfg: Config, g3: Signed)
    requires g3 == SignedStep(SignedStep(SignedStep(Start(), cfg, Opening()), cfg, Offering()), cfg, Countering())
    ensures SignedOk(g3)
  {
    var calls := [Call(cfg, Opening()), Call(cfg, Offering()), Call(cfg, Countering())];
    hide SignedStep, SignedRun, SignedOk, Inv;
    SignedRunThree(Start(), Call(cfg, Opening()), Call(cfg, Offering()), Call(cfg, Countering()));
    DeployedSigned({}, map[2 := 5_000_000], map[], 0);
    RunKeepsSigned(Start(), calls);
  }

  lemma BoundFrom(g: Signed, cfg: Config)
    requires SignedOk(g) && Offered(g, [Round(Originator, COUNTERED, 0)], map[7 := 1])
             && Settleable(g.w.p.market, 7, 1, COUNTERED, g.w.now)
    ensures var h := SignedStep(g, cfg, Passing()); var t := Step(h.w, cfg, InFinancing(Meeting())).p.market;
            && Settles(h.w, Meeting())
            && 7 in h.author && h.author[7] == 1 && 7 in h.hands && h.hands[7] == [4]
            && 5 in h.w.p.market.reg.invoices && h.w.p.market.reg.invoices[5].originator == 4
            && 7 in t.fin.offers && t.fin.offers[7].status == Accepted
            && GetOr(t.wallets, 4, 0) == 4_000_000 && GetOr(t.wallets, 1, 0) == 0
  {
    assert RegistryRuns.TokenOk(g.w.p.market.reg, 5) by { HasToken(g, 5); }
    OfferedFacts(g);
    hide *;
    OwnerMayTransfer(g.w.p.market.reg, 1, 4, 5);
    PassingAndMeeting();
    TransferBindsNewOriginator(g, cfg, 1, 4, 7, 1, COUNTERED);
    LenderPays();
  }

  lemma HasToken(g: Signed, id: Symbol)
    requires SignedOk(g)
    ensures RegistryRuns.TokenOk(g.w.p.market.reg, id)
  {
    hide AllAuthors;
  }

  lemma PassingAndMeeting()
    ensures Passing() == InRegistry(RegistryRuns.DoTransfer(1, 4, Registry.TokenOf(5)))
    ensures Meeting() == NegotiationRuns.DoAmend(7, 2, 1, COUNTERED)
    ensures COUNTERED.amount == 4_000_000
  {
  }

  lemma OfferedFacts(g: Signed)
    requires Offered(g, [Round(Originator, COUNTERED, 0)], map[7 := 1])
    ensures 7 in g.author && 7 in g.hands && g.author[7] == 1 && g.hands[7] == []
    ensures 7 in g.w.p.market.fin.offers
    ensures g.w.p.market.fin.offers[7].invoice == 5 && g.w.p.market.fin.offers[7].lender == 2
    ensures g.w.p.market.wallets == map[2 := 5_000_000]
    ensures 5 in g.w.p.market.reg.invoices && g.w.p.market.reg.invoices[5].originator == 1
    ensures g.w.p.market.reg.invoices[5].status == Status.Pending && g.w.p.market.reg.blacklist == {}
  {
  }

  lemma LenderPays()
    ensures var n := InsuranceSteps.Transfer(map[2 := 5_000_000], 2, 4, 4_000_000);
            n.Some? && GetOr(n.value, 4, 0) == 4_000_000 && GetOr(n.value, 1, 0) == 0
  {
  }
}
