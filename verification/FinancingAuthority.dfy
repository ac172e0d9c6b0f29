/** Who may do what to an offer and its negotiation, and when. */
module FinancingAuthority {
  import opened Base
  import opened Negotiation
  import opened FinancingSteps
  import Status
  import Registry = RegistrySteps
  import InsuranceSteps
  import InsuranceRuns
  import Runs = NegotiationRuns

  // ----- rounds are addressed -----

  ghost function SideOf(op: Runs.Op): Side { if op.DoAmend? then Lender else Originator }

  ghost predicate Proposes(op: Runs.Op) { op.DoAmend? || op.DoCounter? }

  /** A committed amendment or counter-offer is exactly the round it was addressed to: it was made knowing
      the whole history before it. */
  lemma ProposalIsAddressed(s: Market, op: Runs.Op, now: Timestamp)
    requires Proposes(op) && Runs.Apply(s, op, now).Ok?
    ensures var before, after := RoundsOf(s.fin.talks, op.o), RoundsOf(Runs.Apply(s, op, now).value.fin.talks, op.o);
            && |after| == op.expected + 1
            && after[op.expected] == Round(SideOf(op), op.terms, now)
            && after[..op.expected] == before
  {
    Runs.ProposalShape(s, op, now);
    var side := Runs.SideOf(op);
    var mid, t := Runs.Between(s, op.o, side, op.terms, now), Runs.Apply(s, op, now).value;
    assert |RoundsOf(s.fin.talks, op.o)| == op.expected by { Expected(s, op, now); }
    hide Runs.Apply, Runs.Meets, Runs.Settled;
    RoundIsWritten(s, mid, op.o, side, op.terms, now);
    if Runs.Meets(s, op.o, side, op.terms) {
      RoundsStay(mid, t, op.o, now);
    }
  }

  lemma Expected(s: Market, op: Runs.Op, now: Timestamp)
    requires Proposes(op) && Runs.Apply(s, op, now).Ok?
    ensures |RoundsOf(s.fin.talks, op.o)| == op.expected
  {
    hide Execute, TalkOf, Live, WithRound;
  }

  lemma RoundIsWritten(s: Market, t: Market, o: Symbol, side: Side, terms: Terms, now: Timestamp)
    requires Runs.Recorded(s, t, o, side, terms, now)
    ensures RoundsOf(t.fin.talks, o) == RoundsOf(s.fin.talks, o) + [Round(side, terms, now)]
  {
    hide TalkOf;
  }

  lemma RoundsStay(s: Market, t: Market, o: Symbol, now: Timestamp)
    requires Runs.Settled(s, t, o, now)
    ensures RoundsOf(t.fin.talks, o) == RoundsOf(s.fin.talks, o)
  {
    hide InsuranceSteps.Transfer, Registry.Move;
  }

  /** Of two proposals on one offer that commit in a run, whatever happens in between, the later one is
      addressed to a later round: no version of an offer is ever answered twice, and what was superseded
      binds nobody. */
  lemma NoVersionIsAnsweredTwice(w: Runs.World, first: Runs.Op, between: seq<Runs.Op>, second: Runs.Op)
    requires Runs.TalksOk(w) && Proposes(first) && Proposes(second) && first.o == second.o
    requires Runs.Apply(w.market, first, w.now).Ok?
    requires var v := Runs.Run(Runs.Step(w, first), between); Runs.Apply(v.market, second, v.now).Ok?
    ensures first.expected < second.expected
    ensures var v := Runs.Step(Runs.Run(Runs.Step(w, first), between), second);
            var rounds := RoundsOf(v.market.fin.talks, first.o);
            && second.expected < |rounds|
            && rounds[first.expected] == Round(SideOf(first), first.terms, w.now)
  {
    hide Runs.Apply, Runs.TalksOk, Runs.Run;
    var w1 := Runs.Step(w, first);
    var v := Runs.Run(w1, between);
    ProposalIsAddressed(w.market, first, w.now);
    Runs.StepKeepsTalks(w, first);
    Runs.RunGrows(w1, between, first.o);
    ProposalIsAddressed(v.market, second, v.now);
  }

  // ----- who may call, and when -----

  /** Terms a side may propose: at most a hundred per cent a year, for a day to a year. */
  ghost predicate Proposable(t: Terms) { t.amount > 0 && 1 <= t.rate <= 10_000 && 86_400 <= t.duration <= 31_536_000 }

  /** The invoice of a known offer is known and pending. */
  ghost predicate OnPendingInvoice(s: Market, o: Symbol) {
    && o in s.fin.offers && s.fin.offers[o].invoice in s.reg.invoices
    && s.reg.invoices[s.fin.offers[o].invoice].status == Status.Pending
  }

  ghost predicate IsLender(s: Market, o: Symbol, who: Address) { o in s.fin.offers && s.fin.offers[o].lender == who }

  ghost predicate IsOriginator(s: Market, o: Symbol, who: Address) {
    && o in s.fin.offers && s.fin.offers[o].invoice in s.reg.invoices
    && s.reg.invoices[s.fin.offers[o].invoice].originator == who
  }

  ghost predicate OnTheTable(s: Market, o: Symbol) { o in s.fin.offers && s.fin.offers[o].status == Pending }

  ghost predicate Unexpired(s: Market, o: Symbol, now: Timestamp) {
    o in s.fin.offers && (s.fin.offers[o].expiresAt == 0 || now < s.fin.offers[o].expiresAt)
  }

  /** The negotiation can take another round. */
  ghost predicate TakesRounds(s: Market, o: Symbol, now: Timestamp) {
    var rounds := RoundsOf(s.fin.talks, o);
    && o !in s.fin.talks.outcomes && |rounds| < 20
    && (rounds != [] ==> now <= GetOr(s.fin.talks.deadlines, o, 0))
  }

  /** Money enough for a settlement on these terms. */
  ghost predicate Fundable(s: Market, o: Symbol, amount: int) {
    o in s.fin.offers && 0 <= amount <= GetOr(s.wallets, s.fin.offers[o].lender, 0)
  }

  /** A new offer: a lender in good standing, on somebody else's pending invoice, within its amount. */
  lemma CreateCommitsIff(s: Market, o: Symbol, invoice: Symbol, lender: Party, terms: Terms, currency: Symbol,
                         expiresAt: Timestamp)
    ensures var r := Create(s, o, invoice, lender, terms, currency, expiresAt);
            && (r.Ok? <==>
                  && lender !in s.reg.blacklist && Proposable(terms) && o !in s.fin.offers
                  && invoice in s.reg.invoices && s.reg.invoices[invoice].status == Status.Pending
                  && s.reg.invoices[invoice].originator != lender && terms.amount <= s.reg.invoices[invoice].amount)
            && (r.Ok? ==>
                  && r.value.fin.offers
                     == s.fin.offers[o := Offer(invoice, lender, terms, currency, expiresAt, Pending, 0, 0)]
                  && r.value.reg == s.reg && r.value.wallets == s.wallets && r.value.fin.talks == s.fin.talks)
  {
  }

  /** A pending offer can be withdrawn by its lender and rejected by its originator, and is then off the
      table, with everything else as it was. */
  lemma LeavingCommitsIff(s: Market, o: Symbol, who: Address)
    ensures var r := Withdraw(s, o, who);
            && (r.Ok? <==> OnTheTable(s, o) && IsLender(s, o, who))
            && (r.Ok? ==> OffTheTable(s, r.value, o))
    ensures var r := Reject(s, o, who);
            && (r.Ok? <==> OnTheTable(s, o) && IsOriginator(s, o, who))
            && (r.Ok? ==> OffTheTable(s, r.value, o))
  {
  }

  ghost predicate OffTheTable(s: Market, t: Market, o: Symbol) {
    && o in s.fin.offers && t.fin.offers == s.fin.offers[o := s.fin.offers[o].(status := Rejected)]
    && t.reg == s.reg && t.wallets == s.wallets && t.fin.talks == s.fin.talks && t.fin.stats == s.fin.stats
    && Ends(s, t, o, RoundsOf(s.fin.talks, o), Closed)
  }

  /** What a settlement on the terms of an offer does, whichever call it comes from. */
  ghost predicate FundedOn(s: Market, t: Market, o: Symbol, terms: Terms, now: Timestamp) {
    && o in s.fin.offers && s.fin.offers[o].invoice in s.reg.invoices
    && t.fin.offers == s.fin.offers[o := s.fin.offers[o].(terms := terms, status := Accepted, fundedAt := now)]
    && t.reg.invoices == s.reg.invoices[s.fin.offers[o].invoice :=
                                          s.reg.invoices[s.fin.offers[o].invoice].(status := Status.Financed)]
    && var (lender, originator) := (s.fin.offers[o].lender, s.reg.invoices[s.fin.offers[o].invoice].originator);
       forall a :: GetOr(t.wallets, a, 0) == GetOr(s.wallets, a, 0)
                     + (if a == originator then terms.amount else 0) - (if a == lender then terms.amount else 0)
  }

  /** A negotiation that ends with an outcome is announced with it, once; one without rounds never was. */
  ghost predicate Ends(s: Market, t: Market, o: Symbol, rounds: seq<Round>, outcome: TalkStatus) {
    t.fin.closings
    == if rounds == [] || o in s.fin.talks.outcomes then s.fin.closings else s.fin.closings + [Closing(o, outcome)]
  }

  /** A settlement closes its negotiation as agreed. */
  ghost predicate Agrees(s: Market, t: Market, o: Symbol, rounds: seq<Round>) {
    && Ends(s, t, o, rounds, Agreed)
    && t.fin.talks.outcomes
       == if rounds == [] || o in s.fin.talks.outcomes then s.fin.talks.outcomes
          else s.fin.talks.outcomes[o := Agreed]
  }

  lemma SettleIff(s: Market, o: Symbol, now: Timestamp)
    requires OnPendingInvoice(s, o)
    ensures Settle(s, o, now).Ok? <==> Fundable(s, o, s.fin.offers[o].terms.amount)
    ensures Settle(s, o, now).Ok? ==>
              && FundedOn(s, Settle(s, o, now).value, o, s.fin.offers[o].terms, now)
              && Agrees(s, Settle(s, o, now).value, o, RoundsOf(s.fin.talks, o))
              && Settle(s, o, now).value.fin.talks.rounds == s.fin.talks.rounds
  {
  }

  /** A pending offer is accepted by the originator, before it expires, on a pending invoice, when the lender
      can pay; it is then funded as it stands. */
  lemma AcceptCommitsIff(s: Market, o: Symbol, who: Address, now: Timestamp)
    ensures var r := Accept(s, o, who, now);
            && (r.Ok? <==>
                  && OnTheTable(s, o) && IsOriginator(s, o, who) && OnPendingInvoice(s, o) && Unexpired(s, o, now)
                  && Fundable(s, o, s.fin.offers[o].terms.amount))
            && (r.Ok? ==>
                  && FundedOn(s, r.value, o, s.fin.offers[o].terms, now)
                  && Agrees(s, r.value, o, RoundsOf(s.fin.talks, o)))
  {
    if OnPendingInvoice(s, o) { SettleIff(s, o, now); }
    hide Settle, FundedOn, Agrees;
  }

  /** A proposal can settle. */
  ghost predicate Settleable(s: Market, o: Symbol, amount: int, now: Timestamp) {
    && OnPendingInvoice(s, o) && Unexpired(s, o, now) && Fundable(s, o, amount)
    && s.fin.offers[o].lender !in s.reg.blacklist
    && s.reg.invoices[s.fin.offers[o].invoice].originator !in s.reg.blacklist
  }

  /** The last word of a side: it proposed these terms in a round after which it made no other. */
  ghost predicate StandsBy(rounds: seq<Round>, side: Side, t: Terms) {
    exists i: nat :: LastAt(rounds, side, t, i)
  }

  lemma ExecuteIff(s: Market, o: Symbol, now: Timestamp)
    requires o in s.fin.offers
    ensures Execute(s, o, now).Ok? <==> Settleable(s, o, s.fin.offers[o].terms.amount, now)
    ensures Execute(s, o, now).Ok? ==>
              && FundedOn(s, Execute(s, o, now).value, o, s.fin.offers[o].terms, now)
              && Agrees(s, Execute(s, o, now).value, o, RoundsOf(s.fin.talks, o))
              && Execute(s, o, now).value.fin.talks.rounds == s.fin.talks.rounds
  {
    if OnPendingInvoice(s, o) { SettleIff(s, o, now); }
    hide Settle, FundedOn, Agrees;
  }

  /** Only final outcomes are stored, as on every run. */
  ghost predicate ProperOutcomes(f: Financing) {
    forall o :: o in f.talks.outcomes ==> f.talks.outcomes[o] in {Expired, Closed, Agreed}
  }

  lemma OutcomesAreProper(w: Runs.World)
    requires Runs.TalksOk(w)
    ensures ProperOutcomes(w.market.fin)
  {
    forall o | o in w.market.fin.talks.outcomes
      ensures w.market.fin.talks.outcomes[o] in {Expired, Closed, Agreed}
    {
      assert Runs.TalkOk(w, o);
    }
  }

  lemma NegotiableIff(s: Market, o: Symbol, expected: nat, now: Timestamp)
    requires o in s.fin.offers && ProperOutcomes(s.fin)
    ensures Negotiable(s.fin, o, expected, now).Ok?
       <==> OnTheTable(s, o) && TakesRounds(s, o, now) && |RoundsOf(s.fin.talks, o)| == expected
    ensures Negotiable(s.fin, o, expected, now).Ok? ==>
              Negotiable(s.fin, o, expected, now).value == RoundsOf(s.fin.talks, o)
  {
  }

  lemma StandsByIsLive(rounds: seq<Round>, side: Side, t: Terms)
    ensures StandsBy(rounds, side, t) <==> Live(rounds, side) == Some(t)
  {
    LiveIsLatest(rounds, side, t);
    if StandsBy(rounds, side, t) {
      var i: nat :| LastAt(rounds, side, t, i);
    }
    if Live(rounds, side) == Some(t) {
      var i :| LastAt(rounds, side, t, i);
      assert StandsBy(rounds, side, t);
    }
  }

  /** An amendment is the lender's, in good standing, knowing the whole history, while the negotiation runs.
      It rewrites the terms; and when the originator stands by them already, it settles, or reverts if it
      cannot. */
  lemma AmendCommitsIff(s: Market, o: Symbol, who: Address, expected: nat, terms: Terms, now: Timestamp)
    requires ProperOutcomes(s.fin)
    ensures var r := Amend(s, o, who, expected, terms, now);
            var rounds := RoundsOf(s.fin.talks, o); var met := StandsBy(rounds, Originator, terms);
            && (r.Ok? <==>
                  && who !in s.reg.blacklist && Proposable(terms) && IsLender(s, o, who)
                  && OnTheTable(s, o) && TakesRounds(s, o, now) && |rounds| == expected
                  && (met ==> Settleable(s, o, terms.amount, now)))
            && (r.Ok? && met ==>
                  FundedOn(s, r.value, o, terms, now) && Agrees(s, r.value, o, rounds + [Round(Lender, terms, now)]))
            && (r.Ok? && !met ==>
                  && r.value.fin.offers == s.fin.offers[o := s.fin.offers[o].(terms := terms)]
                  && r.value.reg == s.reg && r.value.wallets == s.wallets)
            && (r.Ok? ==> RoundsOf(r.value.fin.talks, o) == rounds + [Round(Lender, terms, now)])
  {
    var rounds := RoundsOf(s.fin.talks, o);
    StandsByIsLive(rounds, Originator, terms);
    hide StandsBy, Live;
    if o in s.fin.offers {
      NegotiableIff(s, o, expected, now);
      var t := Market(Amended(s.fin, o, terms, now), s.reg, s.wallets);
      ExecuteIff(t, o, now);
      hide Negotiable, Execute;
    }
  }

  /** A counter-offer is the originator's, in good standing, knowing the whole history, while the negotiation
      runs. It leaves the offer as it is; and when it names the standing terms, it settles, or reverts if it
      cannot. */
  lemma CounterCommitsIff(s: Market, o: Symbol, who: Address, expected: nat, terms: Terms, now: Timestamp)
    requires ProperOutcomes(s.fin)
    ensures var r := Counter(s, o, who, expected, terms, now);
            var rounds := RoundsOf(s.fin.talks, o);
            && (r.Ok? <==>
                  && who !in s.reg.blacklist && Proposable(terms) && IsOriginator(s, o, who)
                  && OnTheTable(s, o) && TakesRounds(s, o, now) && |rounds| == expected
                  && (terms == s.fin.offers[o].terms ==> Settleable(s, o, terms.amount, now)))
            && (r.Ok? && terms == s.fin.offers[o].terms ==>
                  && FundedOn(s, r.value, o, terms, now)
                  && Agrees(s, r.value, o, rounds + [Round(Originator, terms, now)]))
            && (r.Ok? && terms != s.fin.offers[o].terms ==>
                  r.value.fin.offers == s.fin.offers && r.value.reg == s.reg && r.value.wallets == s.wallets)
            && (r.Ok? ==> RoundsOf(r.value.fin.talks, o) == rounds + [Round(Originator, terms, now)])
  {
    var rounds := RoundsOf(s.fin.talks, o);
    if o in s.fin.offers {
      NegotiableIff(s, o, expected, now);
      var t := s.(fin := s.fin.(talks := WithRound(s.fin, o, Originator, terms, now)));
      ExecuteIff(t, o, now);
      hide Negotiable, Execute;
    }
  }

  /** A negotiation under way is closed by either side; one past its deadline is recorded as expired by
      anybody; either only once. */
  lemma CloseCommitsIff(s: Market, o: Symbol, who: Address, now: Timestamp)
    ensures var r := CloseTalk(s, o, who, now); var late := now > GetOr(s.fin.talks.deadlines, o, 0);
            && (r.Ok? <==>
                  && OnTheTable(s, o) && RoundsOf(s.fin.talks, o) != [] && o !in s.fin.talks.outcomes
                  && (late || IsLender(s, o, who) || IsOriginator(s, o, who)))
            && (r.Ok? ==>
                  && r.value.1 == (if late then Expired else Closed)
                  && Ends(s, r.value.0, o, RoundsOf(s.fin.talks, o), r.value.1)
                  && r.value.0.fin.talks == s.fin.talks.(outcomes := s.fin.talks.outcomes[o := r.value.1])
                  && r.value.0.fin.offers == s.fin.offers && r.value.0.reg == s.reg && r.value.0.wallets == s.wallets)
  {
  }

  /** The window for negotiations is an hour to thirty days, three at first, and runs from the opening
      round. */
  lemma WindowRunsFromOpening(s: Market, op: Runs.Op, window: nat, now: Timestamp)
    ensures Empty().window == 259_200
    ensures SetWindow(s.fin, window).Ok? <==> 3_600 <= window <= 2_592_000
    ensures SetWindow(s.fin, window).Ok? ==> SetWindow(s.fin, window).value == s.fin.(window := window)
    ensures Proposes(op) && Runs.Apply(s, op, now).Ok? ==>
              var t := Runs.Apply(s, op, now).value.fin;
              if RoundsOf(s.fin.talks, op.o) == [] then
                op.o in t.talks.deadlines && t.talks.deadlines[op.o] == SaturatingAdd(now, s.fin.window)
              else t.talks.deadlines == s.fin.talks.deadlines
  {
    if Proposes(op) && Runs.Apply(s, op, now).Ok? {
      Runs.ProposalShape(s, op, now);
      hide Runs.Apply, Runs.Meets, TalkOf, Registry.Move, InsuranceSteps.Transfer;
    }
  }

  /** The account that signs a call. */
  ghost function Caller(op: Runs.Op): Option<Address> {
    match op
    case DoCreate(_, _, lender, _, _, _) => Some(lender)
    case DoWithdraw(_, who) => Some(who)
    case DoReject(_, who) => Some(who)
    case DoAccept(_, who) => Some(who)
    case DoAmend(_, who, _, _) => Some(who)
    case DoCounter(_, who, _, _) => Some(who)
    case DoClose(_, who) => Some(who)
    case _ => None
  }

  ghost predicate FromOutside(op: Runs.Op) { !op.Callback? && !op.Elsewhere? && !op.Tick? }

  ghost predicate ByOriginator(s: Market, op: Runs.Op, o: Symbol) {
    Caller(op).Some? && IsOriginator(s, o, Caller(op).value)
  }

  /** Why an offer may change from a to b in a call: pending, and to terms its lender proposes; off the table
      by either side; or funded, unexpired and on a pending invoice, by its originator or by its lender
      meeting what the originator stands by. */
  ghost predicate HasReason(s: Market, op: Runs.Op, o: Symbol, a: Offer, b: Offer, now: Timestamp) {
    && b.invoice == a.invoice && b.lender == a.lender && b.currency == a.currency && b.expiresAt == a.expiresAt
    && b.amountRepaid == a.amountRepaid
    && (b != a ==> a.status == Pending)
    && (b.terms != a.terms ==> Caller(op) == Some(a.lender) && Proposable(b.terms))
    && (b.status != a.status ==>
          || (b.status == Rejected && (Caller(op) == Some(a.lender) || ByOriginator(s, op, o)))
          || (b.status == Accepted && b.fundedAt == now && OnPendingInvoice(s, o) && Unexpired(s, o, now)
              && (|| ByOriginator(s, op, o)
                  || (Caller(op) == Some(a.lender) && StandsBy(RoundsOf(s.fin.talks, o), Originator, b.terms)))))
    && (b.status == a.status ==> b.fundedAt == a.fundedAt)
  }

  /** Why a call about an offer cannot go through in the present state: the offer is off the table, or its
      negotiation over or full, or its invoice not pending. */
  ghost predicate TooLate(s: Market, op: Runs.Op, now: Timestamp) {
    && Addressed(op).Some?
    && (|| !OnTheTable(s, Addressed(op).value)
        || (Proposes(op) && !TakesRounds(s, Addressed(op).value, now))
        || (op.DoClose? && op.o in s.fin.talks.outcomes)
        || !OnPendingInvoice(s, Addressed(op).value))
  }

  /** The offer a call is about. */
  ghost function Addressed(op: Runs.Op): Option<Symbol> {
    match op
    case DoWithdraw(o, _) => Some(o)
    case DoReject(o, _) => Some(o)
    case DoAccept(o, _) => Some(o)
    case DoAmend(o, _, _, _) => Some(o)
    case DoCounter(o, _, _, _) => Some(o)
    case DoClose(o, _) => Some(o)
    case _ => None
  }

  /** A refused call is told why, truthfully. A trap stands for the assertions without a code: the terms or
      the invoice of a new offer, and the token transfer. */
  lemma RefusalsTell(s: Market, op: Runs.Op, now: Timestamp)
    requires FromOutside(op) && ProperOutcomes(s.fin) && Runs.Apply(s, op, now).Err?
    ensures match Runs.Apply(s, op, now).error
            case NotFound =>
              || (op.DoCreate? && op.invoice !in s.reg.invoices)
              || (Addressed(op).Some? && Addressed(op).value !in s.fin.offers)
              || (Addressed(op).Some? && s.fin.offers[Addressed(op).value].invoice !in s.reg.invoices)
              || (op.DoClose? && RoundsOf(s.fin.talks, op.o) == [])
            case Unauthorized =>
              && Addressed(op).Some? && Caller(op).Some?
              && (op.DoWithdraw? || op.DoAmend? || op.DoClose? ==> !IsLender(s, op.o, op.who))
              && (op.DoReject? || op.DoAccept? || op.DoCounter? || op.DoClose? ==> !IsOriginator(s, op.o, op.who))
            case InvalidTransition => TooLate(s, op, now)
            case InvalidInput =>
              || (op.DoSetWindow? && !(3_600 <= op.window <= 2_592_000))
              || (Proposes(op) && (!Proposable(op.terms) || |RoundsOf(s.fin.talks, op.o)| != op.expected))
            case OfferExpired => Addressed(op).Some? && !Unexpired(s, Addressed(op).value, now)
            case Blacklisted =>
              || (Caller(op).Some? && Caller(op).value in s.reg.blacklist)
              || (Proposes(op) && op.o in s.fin.offers
                  && (|| s.fin.offers[op.o].lender in s.reg.blacklist
                      || (s.fin.offers[op.o].invoice in s.reg.invoices
                          && s.reg.invoices[s.fin.offers[op.o].invoice].originator in s.reg.blacklist)))
            case AlreadyExists => op.DoCreate? && op.o in s.fin.offers
            case Trap =>
              || (op.DoCreate?
                  && (|| !Proposable(op.terms)
                      || (op.invoice in s.reg.invoices
                          && (|| s.reg.invoices[op.invoice].status != Status.Pending
                              || s.reg.invoices[op.invoice].originator == op.lender
                              || op.terms.amount > s.reg.invoices[op.invoice].amount))))
              || ((op.DoAccept? || Proposes(op)) && op.o in s.fin.offers
                  && !Fundable(s, op.o, if op.DoAccept? then s.fin.offers[op.o].terms.amount else op.terms.amount))
            case _ => false
  {
    hide Live, WithRound, Conclude, Leave, Ended, Registry.Move, InsuranceSteps.Transfer;
    if op.DoAccept? {
      if OnPendingInvoice(s, op.o) { SettleError(s, op.o, now); }
      hide Settle;
    } else if Proposes(op) && op.o in s.fin.offers {
      NegotiableError(s, op.o, op.expected, now);
      ExecuteError(Runs.Between(s, op.o, Runs.SideOf(op), op.terms, now), op.o, now);
      hide Negotiable, Execute, TakesRounds;
    }
  }

  lemma NegotiableError(s: Market, o: Symbol, expected: nat, now: Timestamp)
    requires o in s.fin.offers && ProperOutcomes(s.fin)
    ensures Negotiable(s.fin, o, expected, now).Err? ==>
              match Negotiable(s.fin, o, expected, now).error
              case InvalidTransition => !OnTheTable(s, o) || !TakesRounds(s, o, now)
              case InvalidInput => |RoundsOf(s.fin.talks, o)| != expected
              case _ => false
  {
  }

  lemma ExecuteError(s: Market, o: Symbol, now: Timestamp)
    requires o in s.fin.offers
    ensures Execute(s, o, now).Err? ==>
              match Execute(s, o, now).error
              case NotFound => s.fin.offers[o].invoice !in s.reg.invoices
              case InvalidTransition => !OnPendingInvoice(s, o)
              case OfferExpired => !Unexpired(s, o, now)
              case Blacklisted =>
                && s.fin.offers[o].invoice in s.reg.invoices
                && (|| s.fin.offers[o].lender in s.reg.blacklist
                    || s.reg.invoices[s.fin.offers[o].invoice].originator in s.reg.blacklist)
              case Trap => !Fundable(s, o, s.fin.offers[o].terms.amount)
              case _ => false
  {
    if OnPendingInvoice(s, o) { SettleError(s, o, now); }
    hide Settle;
  }

  lemma SettleError(s: Market, o: Symbol, now: Timestamp)
    requires OnPendingInvoice(s, o)
    ensures Settle(s, o, now).Err? ==>
              Settle(s, o, now) == Err(Trap) && !Fundable(s, o, s.fin.offers[o].terms.amount)
  {
  }

  /** A new offer is its caller's own, pending, within somebody else's pending invoice. */
  ghost predicate IsProper(s: Market, op: Runs.Op, b: Offer) {
    && Caller(op) == Some(b.lender) && b.lender !in s.reg.blacklist && Proposable(b.terms)
    && b.status == Pending && b.fundedAt == 0 && b.amountRepaid == 0
    && b.invoice in s.reg.invoices && s.reg.invoices[b.invoice].status == Status.Pending
    && s.reg.invoices[b.invoice].originator != b.lender && b.terms.amount <= s.reg.invoices[b.invoice].amount
  }

  /** Whatever a call from outside changes about an offer, it changes for a reason, and a new offer is
      proper. */
  lemma OffersChangeForAReason(s: Market, op: Runs.Op, now: Timestamp, o: Symbol)
    requires FromOutside(op) && ProperOutcomes(s.fin) && Runs.Apply(s, op, now).Ok?
    ensures var t := Runs.Apply(s, op, now).value;
            && (o in s.fin.offers ==>
                  o in t.fin.offers && HasReason(s, op, o, s.fin.offers[o], t.fin.offers[o], now))
            && (o !in s.fin.offers && o in t.fin.offers ==> IsProper(s, op, t.fin.offers[o]))
  {
    hide Create, Withdraw, Reject, Accept, Amend, Counter, CloseTalk, SetWindow, Live, StandsBy, Fundable, Settleable;
    match op
    case DoCreate(p, i, l, x, c, e) => CreateCommitsIff(s, p, i, l, x, c, e);
    case DoWithdraw(p, who) => LeavingCommitsIff(s, p, who);
    case DoReject(p, who) => LeavingCommitsIff(s, p, who);
    case DoAccept(p, who) => AcceptCommitsIff(s, p, who, now);
    case DoAmend(p, who, n, x) => AmendCommitsIff(s, p, who, n, x, now); SettleableMeans(s, p, x.amount, now);
    case DoCounter(p, who, n, x) => CounterCommitsIff(s, p, who, n, x, now); SettleableMeans(s, p, x.amount, now);
    case DoClose(p, who) => CloseCommitsIff(s, p, who, now);
    case DoSetWindow(n) => WindowRunsFromOpening(s, op, n, now);
  }

  lemma SettleableMeans(s: Market, o: Symbol, amount: int, now: Timestamp)
    ensures Settleable(s, o, amount, now) ==> OnPendingInvoice(s, o) && Unexpired(s, o, now)
  {
  }
}
