/** The six contracts together: runs of every entry point, and what holds of each invoice's life. */
module ProtocolRuns {
  import opened Base
  import opened Loans
  import opened Negotiation
  import opened FinancingSteps
  import opened RepaymentSteps
  import Status
  import Registry = RegistrySteps
  import RegistryRuns
  import NegotiationRuns
  import LenderStatistics
  import InsuranceSteps
  import InsuranceRuns
  import TierPools
  import Reputation

  datatype Op =
    | InRegistry(reg: RegistryRuns.Op)
    | InFinancing(fin: NegotiationRuns.Op)
    | InInsurance(ins: InsuranceRuns.Op)
    | InReputation(originator: Address, favourable: bool)
    | DoRepay(invoice: Symbol, o: Symbol, payer: Address, amount: int)
    | DoReclaim(invoice: Symbol, o: Symbol, lender: Party)
    | Tick(secs: nat)

  /** What outsiders can call: the system transitions are the other contracts' own, and payouts,
      reservations and claims are for the repayment contract alone, which only ever asks for payouts. */
  predicate Public(op: Op) {
    match op
    case InRegistry(r) => !r.DoMarkFinanced? && !r.DoMarkDefaulted? && !r.Tick?
    case InFinancing(f) => !f.Callback? && !f.Elsewhere? && !f.Tick?
    case InInsurance(i) =>
      i.Donate? || i.DoStake? || i.DoUnstake? || i.DoSetYieldRate? || i.DoStakeTier? || i.DoUnstakeTier?
    case _ => true
  }

  /** A payout made for an invoice. */
  datatype Claim = Claim(offer: Symbol, amount: int)

  /** What went through the insurance pool besides payouts: donations, yield paid, the largest request
      for each tier reservation, and the principal staked less the principal withdrawn. */
  datatype Fund = Fund(donated: int, yieldPaid: int, largest: map<TierPools.TierKey, int>, staked: int)

  /** The protocol in time, with the history of each invoice: the offers funded on it, the outcomes
      reported for it, the insurance paid for it, and how often it went back to Pending. */
  datatype World = World(
    p: Protocol,
    now: Timestamp,
    created: map<Symbol, Terms>,
    funded: map<Symbol, seq<Symbol>>,
    outcomes: map<Symbol, seq<nat>>,
    claims: map<Symbol, seq<Claim>>,
    reopened: map<Symbol, nat>,
    fund: Fund)

  function Noted<T>(m: map<Symbol, seq<T>>, id: Symbol, x: T): map<Symbol, seq<T>> { m[id := GetOr(m, id, []) + [x]] }

  function StatusOf(r: Registry.Registry, id: Symbol): Option<Status.InvoiceStatus> {
    if id in r.invoices then Some(r.invoices[id].status) else None
  }

  /** The offer a financing step funds, if it funds one. */
  function FundedBy(s: Market, t: Market, op: NegotiationRuns.Op): Option<Symbol> {
    if (op.DoAccept? || op.DoAmend? || op.DoCounter?) && op.o in s.fin.offers && op.o in t.fin.offers
       && s.fin.offers[op.o].status == Pending && t.fin.offers[op.o].status == Accepted
    then Some(op.o) else None
  }

  function RegistryStep(w: World, op: RegistryRuns.Op): World {
    match RegistryRuns.Apply(w.p.market.reg, op, w.now)
    case Err(_) => w
    case Ok(reg) =>
      var c := RegistryRuns.ChangeOf(op);
      w.(p := w.p.(market := w.p.market.(reg := reg)),
         reopened := if c.Some? && c.value.to == Status.Pending
                     then w.reopened[c.value.id := GetOr(w.reopened, c.value.id, 0) + 1]
                     else w.reopened)
  }

  function FinancingStep(w: World, op: NegotiationRuns.Op): World {
    match NegotiationRuns.Apply(w.p.market, op, w.now)
    case Err(_) => w
    case Ok(t) =>
      var o := FundedBy(w.p.market, t, op);
      w.(p := w.p.(market := t),
         created := if op.DoCreate? then w.created[op.o := op.terms] else w.created,
         funded := if o.Some? then Noted(w.funded, t.fin.offers[o.value].invoice, o.value) else w.funded)
  }

  function RepayStep(w: World, cfg: Config, invoice: Symbol, o: Symbol, payer: Address, amount: int): World {
    match Repay(w.p, cfg, invoice, o, payer, amount, w.now)
    case Err(_) => w
    case Ok(s) =>
      w.(p := s,
         outcomes := if cfg.rated && StatusOf(s.market.reg, invoice) == Some(Status.Repaid)
                     then Noted(w.outcomes, invoice, Reputation.OUTCOME_REPAID) else w.outcomes)
  }

  ghost function ReclaimStep(w: World, cfg: Config, invoice: Symbol, o: Symbol, lender: Address): World {
    match Reclaim(w.p, cfg, invoice, o, lender, w.now)
    case Err(_) => w
    case Ok((s, payout)) =>
      w.(p := s,
         outcomes := if cfg.rated then Noted(w.outcomes, invoice, Reputation.OUTCOME_DEFAULTED) else w.outcomes,
         claims := if cfg.insured then Noted(w.claims, invoice, Claim(o, payout)) else w.claims)
  }

  /** The insurance contract's own view of the protocol. */
  ghost function Insuring(w: World): InsuranceRuns.World {
    InsuranceRuns.World(w.p.ins, w.now, w.fund.donated, w.fund.yieldPaid, w.fund.largest)
  }

  ghost function InsuranceStep(w: World, op: InsuranceRuns.Op): World {
    match InsuranceRuns.Apply(w.p.ins, op, w.now)
    case Err(_) => w
    case Ok(_) =>
      var n := InsuranceRuns.Step(Insuring(w), op);
      w.(p := w.p.(ins := n.ins),
         fund := Fund(n.donated, n.yieldPaid, n.largest, w.fund.staked + InsuranceRuns.Staked(op)))
  }

  ghost function Step(w: World, cfg: Config, op: Op): World {
    match op
    case InRegistry(r) => RegistryStep(w, r)
    case InFinancing(f) => FinancingStep(w, f)
    case InInsurance(i) => InsuranceStep(w, i)
    case InReputation(a, f) =>
      w.(p := w.p.(rep := w.p.rep[a := Reputation.WithDispute(Reputation.RecordOf(w.p.rep, a), f, w.now)]))
    case DoRepay(i, o, a, amount) => RepayStep(w, cfg, i, o, a, amount)
    case DoReclaim(i, o, a) => ReclaimStep(w, cfg, i, o, a)
    case Tick(secs) => w.(now := SaturatingAdd(w.now, secs))
  }

  /** An operation under the configuration in force when it is called. */
  datatype Call = Call(cfg: Config, op: Op)

  ghost function Run(w: World, calls: seq<Call>): World
    decreases |calls|
  {
    if calls == [] then w else Run(Step(w, calls[0].cfg, calls[0].op), calls[1..])
  }

  ghost predicate AllPublic(calls: seq<Call>) { forall i :: 0 <= i < |calls| ==> Public(calls[i].op) }

  // ----- the shapes of a step -----

  /** A registry call by outsiders: each invoice keeps its status or takes an allowed edge. */
  lemma RegistryShape(s: Registry.Registry, op: RegistryRuns.Op, now: Timestamp, id: Symbol)
    requires RegistryRuns.Apply(s, op, now).Ok?
    ensures var s' := RegistryRuns.Apply(s, op, now).value;
            var c := RegistryRuns.ChangeOf(op);
            && (id in s.invoices ==> id in s'.invoices)
            && (id in s.invoices && c.Some? && c.value.id == id ==>
                  Status.Allowed(s.invoices[id].status, c.value.to) && s'.invoices[id].status == c.value.to)
            && (id in s.invoices && (c.None? || c.value.id != id) ==> s'.invoices[id].status == s.invoices[id].status)
            && (id !in s.invoices && id in s'.invoices ==> s'.invoices[id].status == Status.Pending)
            && (c.Some? ==> c.value.id in s.invoices)
  {
    if RegistryRuns.ChangeOf(op).Some? {
      RegistryRuns.ChangesMove(s, op, now);
    } else {
      RegistryRuns.QuietOnStatuses(s, op, now, id);
    }
  }

  /** Offers that stay as they are, change while pending, or leave the table. */
  ghost predicate QuietOffers(s: Market, t: Market) {
    && t.reg == s.reg
    && (forall o :: o in s.fin.offers ==>
          && o in t.fin.offers
          && (|| t.fin.offers[o] == s.fin.offers[o]
              || (s.fin.offers[o].status == Pending && t.fin.offers[o].status in {Pending, Rejected}
                  && t.fin.offers[o].invoice == s.fin.offers[o].invoice && ValidTerms(t.fin.offers[o].terms)
                  && t.fin.offers[o].amountRepaid == s.fin.offers[o].amountRepaid)))
    && (forall o :: o in t.fin.offers && o !in s.fin.offers ==>
          && t.fin.offers[o].status == Pending && ValidTerms(t.fin.offers[o].terms)
          && t.fin.offers[o].invoice in s.reg.invoices && t.fin.offers[o].amountRepaid == 0)
  }

  ghost predicate FundsOffer(s: Market, t: Market, o: Symbol, now: Timestamp) {
    && o in s.fin.offers && s.fin.offers[o].status == Pending
    && s.fin.offers[o].invoice in s.reg.invoices
    && s.reg.invoices[s.fin.offers[o].invoice].status == Status.Pending
    && Registry.MarkFinanced(s.reg, s.fin.offers[o].invoice, FINANCING, now) == Ok(t.reg)
    && o in t.fin.offers && t.fin.offers == s.fin.offers[o := t.fin.offers[o]]
    && t.fin.offers[o].status == Accepted && t.fin.offers[o].invoice == s.fin.offers[o].invoice
    && t.fin.offers[o].amountRepaid == s.fin.offers[o].amountRepaid
    && t.fin.offers[o].fundedAt == now && ValidTerms(t.fin.offers[o].terms)
  }

  ghost predicate ValidOffers(f: Financing) {
    forall o :: o in f.offers ==> ValidTerms(f.offers[o].terms)
  }

  /** A financing step either leaves the registry alone and only touches pending offers, or funds one. */
  lemma FinancingShape(s: Market, op: NegotiationRuns.Op, now: Timestamp)
    requires Public(InFinancing(op)) && NegotiationRuns.Apply(s, op, now).Ok? && ValidOffers(s.fin)
    ensures var t := NegotiationRuns.Apply(s, op, now).value;
            match FundedBy(s, t, op)
            case None => QuietOffers(s, t)
            case Some(o) => FundsOffer(s, t, o, now)
  {
    hide Amend, Counter, TalkOf, InsuranceSteps.Transfer, Registry.Move;
    if op.DoAmend? || op.DoCounter? {
      ProposalShape(s, op, now);
    } else if op.DoAccept? {
      AcceptanceShape(s, op.o, op.who, now);
    }
  }

  lemma AcceptanceShape(s: Market, o: Symbol, who: Address, now: Timestamp)
    requires Accept(s, o, who, now).Ok? && ValidOffers(s.fin)
    ensures FundedBy(s, Accept(s, o, who, now).value, NegotiationRuns.DoAccept(o, who)) == Some(o)
    ensures FundsOffer(s, Accept(s, o, who, now).value, o, now)
  {
    NegotiationRuns.AcceptShape(s, o, who, now);
    hide Accept, InsuranceSteps.Transfer, Registry.Move;
  }

  lemma ProposalShape(s: Market, op: NegotiationRuns.Op, now: Timestamp)
    requires (op.DoAmend? || op.DoCounter?) && NegotiationRuns.Apply(s, op, now).Ok? && ValidOffers(s.fin)
    ensures var t := NegotiationRuns.Apply(s, op, now).value;
            match FundedBy(s, t, op)
            case None => QuietOffers(s, t)
            case Some(o) => FundsOffer(s, t, o, now)
  {
    hide NegotiationRuns.Apply, NegotiationRuns.Meets, NegotiationRuns.SideOf, WithRound, TalkOf,
         InsuranceSteps.Transfer, Registry.Move, Conclude;
    NegotiationRuns.ProposalShape(s, op, now);
    var side := NegotiationRuns.SideOf(op);
    var mid := NegotiationRuns.Between(s, op.o, side, op.terms, now);
    assert mid.fin.offers == s.fin.offers[op.o := mid.fin.offers[op.o]];
  }

  // ----- at most one outcome and one payout, on every run -----

  /** An invoice's outcome has been reported at most once, only once it is settled, and only as what
      it is; its insurance has been paid at most once, only on default, and never beyond what the
      loan still owes, which can no longer change. */
  ghost predicate OnceOk(w: World, id: Symbol) {
    var outcomes, claims, st := GetOr(w.outcomes, id, []), GetOr(w.claims, id, []), StatusOf(w.p.market.reg, id);
    && |outcomes| <= 1
    && (|outcomes| == 1 ==>
          || (outcomes[0] == Reputation.OUTCOME_REPAID && st == Some(Status.Repaid))
          || (outcomes[0] == Reputation.OUTCOME_DEFAULTED && st == Some(Status.Defaulted)))
    && |claims| <= 1
    && (|claims| == 1 ==> st == Some(Status.Defaulted) && ClaimOk(w.p.market.fin, id, claims[0]))
  }

  ghost predicate ClaimOk(f: Financing, id: Symbol, c: Claim) {
    && c.offer in f.offers && f.offers[c.offer].invoice == id && f.offers[c.offer].status == Defaulted
    && 0 <= c.amount <= Exposure(f.offers[c.offer])
  }

  lemma ReclaimShape(s: Protocol, cfg: Config, invoice: Symbol, o: Symbol, lender: Address, now: Timestamp)
    requires Reclaim(s, cfg, invoice, o, lender, now).Ok?
    ensures var (t, payout) := Reclaim(s, cfg, invoice, o, lender, now).value;
            && Reclaimable(s, invoice, o, lender, now).Ok?
            && invoice in s.market.reg.invoices && s.market.reg.invoices[invoice].status == Status.Overdue
            && o in s.market.fin.offers && s.market.fin.offers[o].invoice == invoice
               && s.market.fin.offers[o].lender == lender
            && s.market.fin.offers[o].status in {Accepted, Financed}
            && Registry.MarkDefaulted(s.market.reg, invoice, REPAYMENT, now).Ok?
            && t.market.reg == Registry.MarkDefaulted(s.market.reg, invoice, REPAYMENT, now).value
            && t.market.fin
               == s.market.fin.(offers := s.market.fin.offers[o := s.market.fin.offers[o].(status := Defaulted)])
            && t.pays == s.pays && t.market.wallets == s.market.wallets
            && (cfg.insured ==> 0 <= payout <= Exposure(s.market.fin.offers[o]))
  {
    if cfg.insured {
      InsuranceRuns.PayoutWithinPool(s.ins, true, lender, Exposure(s.market.fin.offers[o]));
    }
  }

  lemma StepKeepsOnce(w: World, cfg: Config, op: Op, id: Symbol)
    requires Public(op) && OnceOk(w, id) && ValidOffers(w.p.market.fin)
    ensures OnceOk(Step(w, cfg, op), id)
  {
    hide FinancingStep, RepayStep, ReclaimStep, InsuranceSteps.PayOut, InsuranceRuns.Apply;
    match op
    case InRegistry(r) =>
      if RegistryRuns.Apply(w.p.market.reg, r, w.now).Ok? { RegistryShape(w.p.market.reg, r, w.now, id); }
    case InFinancing(f) => FinancingKeepsOnce(w, f, id);
    case DoRepay(i, o, a, amount) => RepayKeepsOnce(w, cfg, i, o, a, amount, id);
    case DoReclaim(i, o, a) => ReclaimKeepsOnce(w, cfg, i, o, a, id);
    case _ =>
  }

  lemma FinancingKeepsOnce(w: World, op: NegotiationRuns.Op, id: Symbol)
    requires Public(InFinancing(op)) && OnceOk(w, id) && ValidOffers(w.p.market.fin)
    ensures OnceOk(FinancingStep(w, op), id)
  {
    hide NegotiationRuns.Apply, Exposure, ValidTerms;
    if NegotiationRuns.Apply(w.p.market, op, w.now).Ok? {
      FinancingShape(w.p.market, op, w.now);
    }
  }

  lemma RepayShape(s: Protocol, cfg: Config, invoice: Symbol, o: Symbol, payer: Address, amount: int, now: Timestamp)
    requires Repay(s, cfg, invoice, o, payer, amount, now).Ok?
    ensures var t := Repay(s, cfg, invoice, o, payer, amount, now).value;
            && Payable(s, invoice, o, payer).Ok?
            && invoice in s.market.reg.invoices && s.market.reg.invoices[invoice].status == Status.Financed
            && s.market.reg.invoices[invoice].originator == payer
            && o in s.market.fin.offers && s.market.fin.offers[o].invoice == invoice
            && s.market.fin.offers[o].status in {Accepted, Financed} && now >= s.market.fin.offers[o].fundedAt
            && var offer, pays := s.market.fin.offers[o], PaysOf(s, invoice);
               var p := Recorded(offer, pays, payer, amount, now);
               var full := Remaining(offer, pays) - p.principal <= 0;
               && Remaining(offer, pays) > 0 && p.principal >= 0
               && t.market.fin == Reported(s.market.fin, o, offer.amountRepaid + p.principal, full)
               && Registry.MarkRepaid(s.market.reg, invoice, REPAYMENT, full, now) == Ok(t.market.reg)
               && t.pays == s.pays[invoice := pays + [p]]
               && t.ins == s.ins
  {
    hide Interest, Penalty, Remaining, MinPartial, Paid;
  }

  lemma RepayKeepsOnce(w: World, cfg: Config, invoice: Symbol, o: Symbol, payer: Address, amount: int, id: Symbol)
    requires OnceOk(w, id)
    ensures OnceOk(RepayStep(w, cfg, invoice, o, payer, amount), id)
  {
    hide Repay, Recorded, Remaining, Exposure, Payable;
    if Repay(w.p, cfg, invoice, o, payer, amount, w.now).Ok? {
      RepayShape(w.p, cfg, invoice, o, payer, amount, w.now);
    }
  }

  /** Defaulting an offer does not change what it owes, nor any claim on another offer. */
  lemma ClaimsStand(f: Financing, o: Symbol, id: Symbol, c: Claim)
    requires o in f.offers
    ensures var g := f.(offers := f.offers[o := f.offers[o].(status := Defaulted)]);
            && Exposure(g.offers[o]) == Exposure(f.offers[o])
            && (ClaimOk(f, id, c) ==> ClaimOk(g, id, c))
            && (f.offers[o].invoice == id && c.offer == o && 0 <= c.amount <= Exposure(f.offers[o]) ==>
                  ClaimOk(g, id, c))
  {
  }

  lemma DefaultedStatus(s: Registry.Registry, invoice: Symbol, now: Timestamp, id: Symbol)
    requires Registry.MarkDefaulted(s, invoice, REPAYMENT, now).Ok?
    ensures StatusOf(Registry.MarkDefaulted(s, invoice, REPAYMENT, now).value, id)
            == if id == invoice then Some(Status.Defaulted) else StatusOf(s, id)
    ensures StatusOf(s, invoice) !in {Some(Status.Repaid), Some(Status.Defaulted)}
  {
  }

  lemma ReclaimKeepsOnce(w: World, cfg: Config, invoice: Symbol, o: Symbol, lender: Address, id: Symbol)
    requires OnceOk(w, id)
    ensures OnceOk(ReclaimStep(w, cfg, invoice, o, lender), id)
  {
    hide Reclaim, ReclaimStep, OnceOk;
    if Reclaim(w.p, cfg, invoice, o, lender, w.now).Ok? {
      if id == invoice {
        ReclaimedOnce(w, cfg, invoice, o, lender);
      } else {
        ReclaimedElsewhere(w, cfg, invoice, o, lender, id);
      }
    } else {
      NothingReclaimed(w, cfg, invoice, o, lender);
    }
  }

  lemma NothingReclaimed(w: World, cfg: Config, invoice: Symbol, o: Symbol, lender: Address)
    requires Reclaim(w.p, cfg, invoice, o, lender, w.now).Err?
    ensures ReclaimStep(w, cfg, invoice, o, lender) == w
  {
    hide Reclaim;
  }

  lemma ReclaimedOnce(w: World, cfg: Config, invoice: Symbol, o: Symbol, lender: Address)
    requires Reclaim(w.p, cfg, invoice, o, lender, w.now).Ok? && OnceOk(w, invoice)
    ensures OnceOk(ReclaimStep(w, cfg, invoice, o, lender), invoice)
  {
    hide Reclaim, Reclaimable, Exposure, ClaimOk, Registry.MarkDefaulted;
    ReclaimShape(w.p, cfg, invoice, o, lender, w.now);
    DefaultedStatus(w.p.market.reg, invoice, w.now, invoice);
    ClaimsStand(w.p.market.fin, o, invoice, Claim(o, Reclaim(w.p, cfg, invoice, o, lender, w.now).value.1));
    hide Registry.Move, StatusOf;
  }

  lemma ReclaimedElsewhere(w: World, cfg: Config, invoice: Symbol, o: Symbol, lender: Address, id: Symbol)
    requires Reclaim(w.p, cfg, invoice, o, lender, w.now).Ok? && OnceOk(w, id) && id != invoice
    ensures OnceOk(ReclaimStep(w, cfg, invoice, o, lender), id)
  {
    hide Reclaim, Reclaimable, Exposure, ClaimOk, Registry.MarkDefaulted;
    ReclaimShape(w.p, cfg, invoice, o, lender, w.now);
    DefaultedStatus(w.p.market.reg, invoice, w.now, id);
    hide Registry.Move, StatusOf;
    if GetOr(w.claims, id, []) != [] {
      ClaimsStand(w.p.market.fin, o, id, GetOr(w.claims, id, [])[0]);
    }
  }

  // ----- how often an invoice can be financed -----

  /** Each funded offer used up one time the invoice was pending. */
  ghost predicate FundedOk(w: World, id: Symbol) {
    var st := StatusOf(w.p.market.reg, id);
    |GetOr(w.funded, id, [])| <= GetOr(w.reopened, id, 0) + (if st.None? || st.value == Status.Pending then 0 else 1)
  }

  lemma StepKeepsFunded(w: World, cfg: Config, op: Op, id: Symbol)
    requires Public(op) && FundedOk(w, id) && ValidOffers(w.p.market.fin)
    ensures FundedOk(Step(w, cfg, op), id)
  {
    hide FinancingStep, RepayStep, ReclaimStep, InsuranceSteps.PayOut, InsuranceRuns.Apply;
    match op
    case InRegistry(r) =>
      if RegistryRuns.Apply(w.p.market.reg, r, w.now).Ok? { RegistryShape(w.p.market.reg, r, w.now, id); }
    case InFinancing(f) => FinancingKeepsFunded(w, f, id);
    case DoRepay(i, o, a, amount) => RepayKeepsFunded(w, cfg, i, o, a, amount, id);
    case DoReclaim(i, o, a) => ReclaimKeepsFunded(w, cfg, i, o, a, id);
    case _ =>
  }

  lemma FinancingKeepsFunded(w: World, op: NegotiationRuns.Op, id: Symbol)
    requires Public(InFinancing(op)) && FundedOk(w, id) && ValidOffers(w.p.market.fin)
    ensures FundedOk(FinancingStep(w, op), id)
  {
    hide NegotiationRuns.Apply, ValidTerms;
    if NegotiationRuns.Apply(w.p.market, op, w.now).Ok? {
      FinancingShape(w.p.market, op, w.now);
    }
  }

  lemma RepayKeepsFunded(w: World, cfg: Config, invoice: Symbol, o: Symbol, payer: Address, amount: int, id: Symbol)
    requires FundedOk(w, id)
    ensures FundedOk(RepayStep(w, cfg, invoice, o, payer, amount), id)
  {
    hide Repay, Recorded, Remaining, Payable;
    if Repay(w.p, cfg, invoice, o, payer, amount, w.now).Ok? {
      RepayShape(w.p, cfg, invoice, o, payer, amount, w.now);
    }
  }

  lemma ReclaimKeepsFunded(w: World, cfg: Config, invoice: Symbol, o: Symbol, lender: Address, id: Symbol)
    requires FundedOk(w, id)
    ensures FundedOk(ReclaimStep(w, cfg, invoice, o, lender), id)
  {
    hide Reclaim, Reclaimable, Exposure;
    if Reclaim(w.p, cfg, invoice, o, lender, w.now).Ok? {
      ReclaimShape(w.p, cfg, invoice, o, lender, w.now);
    }
  }

  // ----- every protocol run is a run of the financing contract among others -----

  function Negotiating(w: World): NegotiationRuns.World { NegotiationRuns.World(w.p.market, w.now, w.created) }

  /** What the financing contract sees of a step: its own operation, or a callback and changes made
      elsewhere. */
  ghost function Seen(w: World, cfg: Config, op: Op): seq<NegotiationRuns.Op> {
    var v := Step(w, cfg, op);
    var elsewhere := NegotiationRuns.Elsewhere(v.p.market.reg, v.p.market.wallets);
    match op
    case InFinancing(f) => [f]
    case Tick(secs) => [NegotiationRuns.Tick(secs)]
    case DoRepay(i, o, a, amount) =>
      if v == w || o !in v.p.market.fin.offers then []
      else [NegotiationRuns.Callback(o, v.p.market.fin.offers[o].status, v.p.market.fin.offers[o].amountRepaid),
            elsewhere]
    case DoReclaim(_, o, _) => if v == w then [] else [NegotiationRuns.Callback(o, Defaulted, 0), elsewhere]
    case _ => [elsewhere]
  }

  /** The callbacks after a payment, as one report on the funded offer. */
  lemma RepayReports(w: World, cfg: Config, invoice: Symbol, o: Symbol, payer: Address, amount: int)
    requires Repay(w.p, cfg, invoice, o, payer, amount, w.now).Ok?
    ensures var t := Repay(w.p, cfg, invoice, o, payer, amount, w.now).value.market.fin;
            && o in t.offers
            && NegotiationRuns.Report(w.p.market.fin, o, t.offers[o].status, t.offers[o].amountRepaid) == Ok(t)
  {
    hide Repay, Recorded, Remaining, Payable;
    RepayShape(w.p, cfg, invoice, o, payer, amount, w.now);
  }

  lemma ReportThenElsewhere(n: NegotiationRuns.World, o: Symbol, status: OfferStatus, repaid: int, t: Market)
    requires NegotiationRuns.Report(n.market.fin, o, status, repaid) == Ok(t.fin)
    ensures NegotiationRuns.Run(n,
                                [NegotiationRuns.Callback(o, status, repaid),
                                 NegotiationRuns.Elsewhere(t.reg, t.wallets)])
            == NegotiationRuns.World(t, n.now, n.created)
  {
    hide NegotiationRuns.Report;
    RunTwo(n, [NegotiationRuns.Callback(o, status, repaid), NegotiationRuns.Elsewhere(t.reg, t.wallets)]);
    hide NegotiationRuns.Run;
  }

  lemma RepaySeen(w: World, cfg: Config, op: Op)
    requires op.DoRepay?
    ensures Negotiating(Step(w, cfg, op)) == NegotiationRuns.Run(Negotiating(w), Seen(w, cfg, op))
  {
    hide Repay, NegotiationRuns.Report, NegotiationRuns.Run;
    var r := Repay(w.p, cfg, op.invoice, op.o, op.payer, op.amount, w.now);
    if r.Ok? {
      RepayReports(w, cfg, op.invoice, op.o, op.payer, op.amount);
      var t := r.value.market;
      ReportThenElsewhere(Negotiating(w), op.o, t.fin.offers[op.o].status, t.fin.offers[op.o].amountRepaid, t);
      if Step(w, cfg, op) == w { NothingSeen(Negotiating(w)); }
    } else {
      NothingSeen(Negotiating(w));
    }
  }

  lemma NothingSeen(n: NegotiationRuns.World)
    ensures NegotiationRuns.Run(n, []) == n
  {
  }

  lemma ReclaimReports(w: World, cfg: Config, invoice: Symbol, o: Symbol, lender: Address)
    requires Reclaim(w.p, cfg, invoice, o, lender, w.now).Ok?
    ensures NegotiationRuns.Report(w.p.market.fin, o, Defaulted, 0)
            == Ok(Reclaim(w.p, cfg, invoice, o, lender, w.now).value.0.market.fin)
  {
    hide Reclaim, Reclaimable, Exposure;
    ReclaimShape(w.p, cfg, invoice, o, lender, w.now);
  }

  lemma ReclaimSeen(w: World, cfg: Config, op: Op)
    requires op.DoReclaim?
    ensures Negotiating(Step(w, cfg, op)) == NegotiationRuns.Run(Negotiating(w), Seen(w, cfg, op))
  {
    hide Reclaim, NegotiationRuns.Report, NegotiationRuns.Run;
    var r := Reclaim(w.p, cfg, op.invoice, op.o, op.lender, w.now);
    if r.Ok? {
      ReclaimReports(w, cfg, op.invoice, op.o, op.lender);
      var t := r.value.0.market;
      ReportThenElsewhere(Negotiating(w), op.o, Defaulted, 0, t);
      if Step(w, cfg, op) == w { NothingSeen(Negotiating(w)); }
    } else {
      NothingSeen(Negotiating(w));
    }
  }

  lemma RunTwo(n: NegotiationRuns.World, ops: seq<NegotiationRuns.Op>)
    requires |ops| == 2
    ensures NegotiationRuns.Run(n, ops) == NegotiationRuns.Step(NegotiationRuns.Step(n, ops[0]), ops[1])
  {
    assert ops[1..] == [ops[1]];
    RunOne(NegotiationRuns.Step(n, ops[0]), ops[1]);
  }

  lemma RunOne(n: NegotiationRuns.World, op: NegotiationRuns.Op)
    ensures NegotiationRuns.Run(n, [op]) == NegotiationRuns.Step(n, op)
  {
    assert [op][1..] == [];
  }

  /** The financing contract inside the protocol behaves as it does on its own, so everything proved
      of its runs holds in the protocol. */
  lemma StepIsSeen(w: World, cfg: Config, op: Op)
    requires Public(op)
    ensures Negotiating(Step(w, cfg, op)) == NegotiationRuns.Run(Negotiating(w), Seen(w, cfg, op))
  {
    hide NegotiationRuns.Run, NegotiationRuns.Apply, Repay, Reclaim, RegistryRuns.Apply, InsuranceRuns.Apply;
    match op
    case DoRepay(_, _, _, _) => RepaySeen(w, cfg, op);
    case DoReclaim(_, _, _) => ReclaimSeen(w, cfg, op);
    case InFinancing(f) => FinancingSeen(w, f);
    case Tick(secs) => RunOne(Negotiating(w), NegotiationRuns.Tick(secs)); PlainSeen(Negotiating(w), w.p.market, secs);
    case _ =>
      RunOne(Negotiating(w), Seen(w, cfg, op)[0]);
      PlainSeen(Negotiating(w), Step(w, cfg, op).p.market, 0);
  }

  lemma FinancingSeen(w: World, op: NegotiationRuns.Op)
    ensures Public(InFinancing(op)) ==> Negotiating(FinancingStep(w, op)) == NegotiationRuns.Run(Negotiating(w), [op])
  {
    RunOne(Negotiating(w), op);
    hide NegotiationRuns.Apply, NegotiationRuns.Run;
  }

  /** Steps that only move time, or what lies outside the financing contract. */
  lemma PlainSeen(n: NegotiationRuns.World, t: Market, secs: nat)
    ensures NegotiationRuns.Step(n, NegotiationRuns.Tick(secs)) == n.(now := SaturatingAdd(n.now, secs))
    ensures t.fin == n.market.fin ==>
              NegotiationRuns.Step(n, NegotiationRuns.Elsewhere(t.reg, t.wallets)) == n.(market := t)
  {
  }

  // ----- the invariant of all runs -----

  ghost predicate Inv(w: World) {
    && NegotiationRuns.TalksOk(Negotiating(w))
    && LenderStatistics.AllStatsOk(w.p.market.fin)
    && (forall id :: OnceOk(w, id) && FundedOk(w, id))
  }

  lemma TalksGiveValidOffers(n: NegotiationRuns.World)
    requires NegotiationRuns.TalksOk(n)
    ensures ValidOffers(n.market.fin)
  {
    forall o | o in n.market.fin.offers ensures ValidTerms(n.market.fin.offers[o].terms) {
      assert NegotiationRuns.TalkOk(n, o);
    }
  }

  lemma StepKeeps(w: World, cfg: Config, op: Op)
    requires Public(op) && Inv(w)
    ensures Inv(Step(w, cfg, op))
  {
    hide NegotiationRuns.TalksOk, LenderStatistics.AllStatsOk, OnceOk, FundedOk, Step;
    StepIsSeen(w, cfg, op);
    NegotiationRuns.RunKeepsTalks(Negotiating(w), Seen(w, cfg, op));
    LenderStatistics.RunKeepsStats(Negotiating(w), Seen(w, cfg, op));
    TalksGiveValidOffers(Negotiating(w));
    forall id ensures OnceOk(Step(w, cfg, op), id) && FundedOk(Step(w, cfg, op), id) {
      StepKeepsOnce(w, cfg, op, id);
      StepKeepsFunded(w, cfg, op, id);
    }
  }

  /** On every run, disputes and direct status edits included: each invoice has at most one reported
      outcome and one insurance payout, the payout within what the loan still owes; an invoice is
      financed at most once more than it went back to Pending; and all that holds of the financing
      contract on its own still does. */
  lemma {:induction false} RunKeeps(w: World, calls: seq<Call>)
    requires AllPublic(calls) && Inv(w)
    ensures Inv(Run(w, calls))
    decreases |calls|
  {
    if calls != [] {
      StepKeeps(w, calls[0].cfg, calls[0].op);
      RunKeeps(Step(w, calls[0].cfg, calls[0].op), calls[1..]);
    }
  }

  function Deployed(blacklist: set<Address>, wallets: map<Address, int>, staking: map<Address, int>,
                    now: Timestamp): World {
    World(
      Protocol(Market(Empty(), Registry.Empty(blacklist), wallets), map[], InsuranceSteps.Empty(staking), map[]),
      now, map[], map[], map[], map[], map[], Fund(GetOr(staking, InsuranceSteps.POOL, 0), 0, map[], 0))
  }

  lemma DeployedSound(blacklist: set<Address>, wallets: map<Address, int>, staking: map<Address, int>, now: Timestamp)
    ensures Inv(Deployed(blacklist, wallets, staking, now))
    ensures InStep(Deployed(blacklist, wallets, staking, now))
  {
    NegotiationRuns.DeployedSound(Registry.Empty(blacklist), wallets, now);
    LenderStatistics.DeployedStats();
  }

  /** From deployment, on every run whatsoever: one reputation outcome and one insurance payout per
      invoice at most, the payout on a default and never beyond principal and flat yield less what is
      recorded as repaid; and no more fundings than times the invoice was pending. */
  lemma OneOutcomeOnePayout(blacklist: set<Address>, wallets: map<Address, int>, staking: map<Address, int>,
                            now: Timestamp, calls: seq<Call>, id: Symbol)
    requires AllPublic(calls)
    ensures var w := Run(Deployed(blacklist, wallets, staking, now), calls); var claims := GetOr(w.claims, id, []);
            && |GetOr(w.outcomes, id, [])| <= 1
            && |claims| <= 1
            && |GetOr(w.funded, id, [])| <= GetOr(w.reopened, id, 0) + 1
            && (claims != [] ==>
                  && StatusOf(w.p.market.reg, id) == Some(Status.Defaulted)
                  && claims[0].offer in w.p.market.fin.offers
                  && var offer := w.p.market.fin.offers[claims[0].offer];
                     && offer.invoice == id
                     && 0 <= claims[0].amount
                        <= Max(offer.terms.amount
                               + FlatYield(offer.terms.amount, offer.terms.rate) - offer.amountRepaid, 0))
  {
    hide Run, Step, FlatYield, Deployed, NegotiationRuns.TalksOk, LenderStatistics.AllStatsOk;
    var start := Deployed(blacklist, wallets, staking, now);
    DeployedSound(blacklist, wallets, staking, now);
    RunKeeps(start, calls);
    assert OnceOk(Run(start, calls), id) && FundedOk(Run(start, calls), id);
  }

  // ----- lockstep -----

  /** Whether a direct status change leaves the loan alone: it cancels, marks overdue, or keeps a
      financed invoice Financed. Any other change must come from the contracts themselves. */
  predicate Orderly(r: Registry.Registry, op: Op) {
    match op
    case InRegistry(x) =>
      (match RegistryRuns.ChangeOf(x)
       case None => true
       case Some(c) =>
         || c.to == Status.Cancelled || c.to == Status.Overdue
         || (c.to == Status.Financed && StatusOf(r, c.id) == Some(Status.Financed)))
    case _ => true
  }

  /** Only a change that commits can do harm. */
  predicate StaysOrderly(w: World, op: Op) {
    op.InRegistry? && RegistryRuns.Apply(w.p.market.reg, op.reg, w.now).Ok? ==> Orderly(w.p.market.reg, op)
  }

  ghost predicate Repayments(offer: Offer, pays: seq<Payment>) {
    offer.amountRepaid == Principal(pays) && forall i :: 0 <= i < |pays| ==> pays[i].principal >= 0
  }

  /** An invoice, its payments, and the one offer funded on it, in step with each other. */
  ghost predicate InStepAt(w: World, id: Symbol) {
    var funded, pays, st, f := GetOr(w.funded, id, []), PaysOf(w.p, id), StatusOf(w.p.market.reg, id), w.p.market.fin;
    if st.None? || st.value == Status.Pending || st.value == Status.Cancelled then funded == [] && pays == []
    else
      && |funded| == 1 && funded[0] in f.offers
      && var offer := f.offers[funded[0]];
         && offer.invoice == id && Repayments(offer, pays) && offer.fundedAt <= w.now
         && match st.value
            case Repaid => offer.status == Repaid && Principal(pays) >= offer.terms.amount
            case Defaulted => offer.status == Defaulted && Principal(Counted(pays)) < offer.terms.amount
            case Disputed => false
            case _ => offer.status in {Accepted, Financed} && Principal(Counted(pays)) < offer.terms.amount
  }

  /** An offer not funded is pending or rejected, with nothing repaid on it. */
  ghost predicate OfferInStep(w: World, o: Symbol) {
    o in w.p.market.fin.offers ==>
      var offer := w.p.market.fin.offers[o];
      && offer.invoice in w.p.market.reg.invoices
      && (offer.status in {Pending, Rejected} <==> o !in GetOr(w.funded, offer.invoice, []))
      && (offer.status in {Pending, Rejected} ==> offer.amountRepaid == 0)
  }

  ghost predicate InStep(w: World) {
    (forall id :: InStepAt(w, id)) && (forall o :: OfferInStep(w, o))
  }

  lemma RegistryKeepsStep(w: World, op: RegistryRuns.Op)
    requires Public(InRegistry(op)) && StaysOrderly(w, InRegistry(op)) && InStep(w)
    ensures InStep(RegistryStep(w, op))
  {
    var v := RegistryStep(w, op);
    if RegistryRuns.Apply(w.p.market.reg, op, w.now).Ok? {
      hide Principal, Counted;
      forall id ensures InStepAt(v, id) {
        assert InStepAt(w, id);
        RegistryShape(w.p.market.reg, op, w.now, id);
      }
      forall o ensures OfferInStep(v, o) {
        assert OfferInStep(w, o);
        if o in w.p.market.fin.offers {
          RegistryShape(w.p.market.reg, op, w.now, w.p.market.fin.offers[o].invoice);
        }
      }
    }
  }

  lemma FinancingKeepsStep(w: World, op: NegotiationRuns.Op)
    requires Public(InFinancing(op)) && InStep(w) && ValidOffers(w.p.market.fin)
    ensures InStep(FinancingStep(w, op))
  {
    if NegotiationRuns.Apply(w.p.market, op, w.now).Ok? {
      FinancingShape(w.p.market, op, w.now);
      var t := NegotiationRuns.Apply(w.p.market, op, w.now).value;
      match FundedBy(w.p.market, t, op)
      case None => QuietKeepsStep(w, FinancingStep(w, op), t);
      case Some(o) => FundingKeepsStep(w, FinancingStep(w, op), t, o);
    }
  }

  lemma QuietKeepsStep(w: World, v: World, t: Market)
    requires InStep(w) && QuietOffers(w.p.market, t)
    requires v.p == w.p.(market := t) && v.funded == w.funded && v.now == w.now
    ensures InStep(v)
  {
    hide Principal, Counted, ValidTerms;
    forall id ensures InStepAt(v, id) {
      assert InStepAt(w, id);
      var funded := GetOr(w.funded, id, []);
      if funded != [] { assert OfferInStep(w, funded[0]); }
    }
    forall o ensures OfferInStep(v, o) {
      assert OfferInStep(w, o);
      if o in t.fin.offers && o !in w.p.market.fin.offers { NotFundedYet(w, o, t.fin.offers[o].invoice); }
    }
  }

  /** Only known offers have been funded. */
  lemma NotFundedYet(w: World, o: Symbol, id: Symbol)
    requires InStep(w) && o !in w.p.market.fin.offers
    ensures o !in GetOr(w.funded, id, [])
  {
    assert InStepAt(w, id);
  }

  lemma FundingKeepsStep(w: World, v: World, t: Market, o: Symbol)
    requires InStep(w) && FundsOffer(w.p.market, t, o, w.now)
    requires v.p == w.p.(market := t) && v.funded == Noted(w.funded, t.fin.offers[o].invoice, o) && v.now == w.now
    ensures InStep(v)
  {
    var invoice := t.fin.offers[o].invoice;
    assert InStepAt(w, invoice) && OfferInStep(w, o);
    assert GetOr(v.funded, invoice, []) == [o];
    forall id ensures InStepAt(v, id) {
      assert InStepAt(w, id);
      if id != invoice { FundingElsewhere(w, v, t, o, id); }
    }
    forall p ensures OfferInStep(v, p) {
      assert OfferInStep(w, p);
    }
  }

  lemma FundingElsewhere(w: World, v: World, t: Market, o: Symbol, id: Symbol)
    requires InStepAt(w, id) && FundsOffer(w.p.market, t, o, w.now) && id != t.fin.offers[o].invoice
    requires v.p == w.p.(market := t) && v.funded == Noted(w.funded, t.fin.offers[o].invoice, o) && v.now == w.now
    ensures InStepAt(v, id)
  {
    hide Principal, Counted, ValidTerms;
  }

  lemma {:induction false} PrincipalPrefix(pays: seq<Payment>, n: nat)
    requires n <= |pays| && forall i :: 0 <= i < |pays| ==> pays[i].principal >= 0
    ensures 0 <= Principal(pays[..n]) <= Principal(pays)
  {
    if n < |pays| {
      var m := |pays| - 1;
      assert pays == pays[..m] + [pays[m]];
      PrincipalPrefix(pays[..m], n);
      assert pays[..m][..n] == pays[..n];
      PrincipalSnoc(pays[..m], pays[m]);
    } else {
      assert pays[..n] == pays;
      if pays != [] {
        var m := |pays| - 1;
        PrincipalPrefix(pays[..m], 0);
      }
    }
  }

  lemma CountedGrows(pays: seq<Payment>, p: Payment)
    ensures Counted(pays + [p]) == if |pays| < MAX_PAYMENTS then pays + [p] else Counted(pays)
    ensures |pays| < MAX_PAYMENTS ==> Counted(pays) == pays
    ensures |Counted(pays)| <= |pays| && Counted(pays) == pays[..|Counted(pays)|]
  {
  }

  /** The counted principal after one more payment, when the loan is found repaid or not. */
  lemma PaymentCounts(offer: Offer, pays: seq<Payment>, p: Payment)
    requires Remaining(offer, pays) > 0 && p.principal >= 0 && forall i :: 0 <= i < |pays| ==> pays[i].principal >= 0
    ensures Principal(pays + [p]) == Principal(pays) + p.principal
    ensures Remaining(offer, pays) - p.principal <= 0 ==> Principal(pays + [p]) >= offer.terms.amount
    ensures Remaining(offer, pays) - p.principal > 0 ==> Principal(Counted(pays + [p])) < offer.terms.amount
  {
    hide Principal, Counted;
    PrincipalSnoc(pays, p);
    CountedGrows(pays, p);
    PrincipalPrefix(pays, |Counted(pays)|);
  }

  ghost predicate RepaidWorld(w: World, v: World, invoice: Symbol, o: Symbol, pays: seq<Payment>, p: Payment,
                              full: bool) {
    && v.now == w.now && v.funded == w.funded
    && o in w.p.market.fin.offers && pays == PaysOf(w.p, invoice)
    && v.p.market.fin == Reported(w.p.market.fin, o, w.p.market.fin.offers[o].amountRepaid + p.principal, full)
    && Registry.MarkRepaid(w.p.market.reg, invoice, REPAYMENT, full, w.now) == Ok(v.p.market.reg)
    && v.p.pays == w.p.pays[invoice := pays + [p]]
  }

  lemma RepaidInStep(w: World, v: World, invoice: Symbol, o: Symbol, pays: seq<Payment>, p: Payment, full: bool)
    requires RepaidWorld(w, v, invoice, o, pays, p, full) && InStepAt(w, invoice) && OfferInStep(w, o)
    requires w.p.market.fin.offers[o].invoice == invoice && w.p.market.fin.offers[o].status in {Accepted, Financed}
    requires p.principal >= 0 && Principal(pays + [p]) == Principal(pays) + p.principal
    requires full ==> Principal(pays + [p]) >= w.p.market.fin.offers[o].terms.amount
    requires !full ==> Principal(Counted(pays + [p])) < w.p.market.fin.offers[o].terms.amount
    ensures InStepAt(v, invoice)
  {
    hide Principal, Counted;
    assert GetOr(w.funded, invoice, []) == [o];
    assert PaysOf(v.p, invoice) == pays + [p];
  }

  lemma RepaidElsewhere(w: World, v: World, invoice: Symbol, o: Symbol, id: Symbol, full: bool, pays: seq<Payment>,
                        p: Payment)
    requires RepaidWorld(w, v, invoice, o, pays, p, full) && InStepAt(w, id) && id != invoice
    requires w.p.market.fin.offers[o].invoice == invoice
    ensures InStepAt(v, id)
  {
    hide Principal, Counted;
  }

  lemma RepaidOffers(w: World, v: World, invoice: Symbol, o: Symbol, q: Symbol, full: bool, pays: seq<Payment>,
                     p: Payment)
    requires RepaidWorld(w, v, invoice, o, pays, p, full) && OfferInStep(w, q) && OfferInStep(w, o)
    requires w.p.market.fin.offers[o].status in {Accepted, Financed}
    ensures OfferInStep(v, q)
  {
    hide Principal, Counted;
  }

  lemma RepayIsRepaidWorld(w: World, cfg: Config, invoice: Symbol, o: Symbol, payer: Address, amount: int)
    requires Repay(w.p, cfg, invoice, o, payer, amount, w.now).Ok?
    ensures o in w.p.market.fin.offers && w.now >= w.p.market.fin.offers[o].fundedAt
    ensures var offer, pays := w.p.market.fin.offers[o], PaysOf(w.p, invoice);
            var p := Recorded(offer, pays, payer, amount, w.now);
            && offer.invoice == invoice && offer.status in {Accepted, Financed}
            && Remaining(offer, pays) > 0 && p.principal >= 0
            && RepaidWorld(w, RepayStep(w, cfg, invoice, o, payer, amount), invoice, o, pays, p,
                           Remaining(offer, pays) - p.principal <= 0)
  {
    hide Repay, Recorded, Remaining, Payable;
    RepayShape(w.p, cfg, invoice, o, payer, amount, w.now);
  }

  lemma PaidPrincipal(w: World, id: Symbol)
    requires InStepAt(w, id)
    ensures forall i :: 0 <= i < |PaysOf(w.p, id)| ==> PaysOf(w.p, id)[i].principal >= 0
  {
    hide Principal, Counted;
  }

  lemma RepayKeepsStep(w: World, cfg: Config, invoice: Symbol, o: Symbol, payer: Address, amount: int)
    requires InStep(w)
    ensures InStep(RepayStep(w, cfg, invoice, o, payer, amount))
  {
    hide Repay, RepaidWorld, RepayStep, Recorded, Remaining, Principal, Counted;
    if Repay(w.p, cfg, invoice, o, payer, amount, w.now).Ok? {
      RepayIsRepaidWorld(w, cfg, invoice, o, payer, amount);
      var v, offer, pays := RepayStep(w, cfg, invoice, o, payer, amount), w.p.market.fin.offers[o],
          PaysOf(w.p, invoice);
      var p := Recorded(offer, pays, payer, amount, w.now);
      var full := Remaining(offer, pays) - p.principal <= 0;
      assert InStepAt(w, invoice) && OfferInStep(w, o);
      PaidPrincipal(w, invoice);
      hide OfferInStep, InStepAt;
      PaymentCounts(offer, pays, p);
      RepaidInStep(w, v, invoice, o, pays, p, full);
      forall id ensures InStepAt(v, id) {
        assert InStepAt(w, id);
        if id != invoice { RepaidElsewhere(w, v, invoice, o, id, full, pays, p); }
      }
      forall q ensures OfferInStep(v, q) {
        assert OfferInStep(w, q);
        RepaidOffers(w, v, invoice, o, q, full, pays, p);
      }
    } else {
      Refused(w, cfg, invoice, o, payer, amount);
    }
  }

  lemma Refused(w: World, cfg: Config, invoice: Symbol, o: Symbol, payer: Address, amount: int)
    requires Repay(w.p, cfg, invoice, o, payer, amount, w.now).Err?
    ensures RepayStep(w, cfg, invoice, o, payer, amount) == w
  {
    hide Repay;
  }

  lemma ReclaimKeepsStep(w: World, cfg: Config, invoice: Symbol, o: Symbol, lender: Address)
    requires InStep(w)
    ensures InStep(ReclaimStep(w, cfg, invoice, o, lender))
  {
    hide Reclaim, Reclaimable, Exposure, Principal, Counted;
    if Reclaim(w.p, cfg, invoice, o, lender, w.now).Ok? {
      var v := ReclaimStep(w, cfg, invoice, o, lender);
      ReclaimShape(w.p, cfg, invoice, o, lender, w.now);
      assert InStepAt(w, invoice) && OfferInStep(w, o);
      assert GetOr(w.funded, invoice, []) == [o];
      forall id ensures InStepAt(v, id) {
        assert InStepAt(w, id);
        if id != invoice { DefaultedElsewhere(w, v, invoice, o, id); }
      }
      forall q ensures OfferInStep(v, q) {
        assert OfferInStep(w, q);
      }
    }
  }

  lemma DefaultedElsewhere(w: World, v: World, invoice: Symbol, o: Symbol, id: Symbol)
    requires InStepAt(w, id) && id != invoice && o in w.p.market.fin.offers
             && w.p.market.fin.offers[o].invoice == invoice
    requires v.now == w.now && v.funded == w.funded && v.p.pays == w.p.pays
    requires v.p.market.fin
             == w.p.market.fin.(offers := w.p.market.fin.offers[o := w.p.market.fin.offers[o].(status := Defaulted)])
    requires Registry.MarkDefaulted(w.p.market.reg, invoice, REPAYMENT, w.now) == Ok(v.p.market.reg)
    ensures InStepAt(v, id)
  {
    hide Principal, Counted;
  }

  lemma StepKeepsStep(w: World, cfg: Config, op: Op)
    requires Public(op) && StaysOrderly(w, op) && InStep(w) && ValidOffers(w.p.market.fin)
    ensures InStep(Step(w, cfg, op))
  {
    hide InStep, RegistryStep, FinancingStep, RepayStep, ReclaimStep, InsuranceRuns.Apply;
    match op
    case InRegistry(r) => RegistryKeepsStep(w, r);
    case InFinancing(f) => FinancingKeepsStep(w, f);
    case DoRepay(i, o, a, amount) => RepayKeepsStep(w, cfg, i, o, a, amount);
    case DoReclaim(i, o, a) => ReclaimKeepsStep(w, cfg, i, o, a);
    case Tick(_) => TickKeepsStep(w, Step(w, cfg, op));
    case _ => TickKeepsStep(w, Step(w, cfg, op));
  }

  lemma TickKeepsStep(w: World, v: World)
    requires InStep(w) && v.funded == w.funded && v.p.market == w.p.market && v.p.pays == w.p.pays && v.now >= w.now
    ensures InStep(v)
  {
    hide Principal, Counted;
    forall id ensures InStepAt(v, id) { assert InStepAt(w, id); }
    forall o ensures OfferInStep(v, o) { assert OfferInStep(w, o); }
  }

  /** From lockstep, a committed direct status change keeps its invoice in step with its loan if and
      only if it is orderly: every other edge of the state machine breaks it. */
  lemma ChangeKeepsStepIff(w: World, op: RegistryRuns.Op)
    requires Public(InRegistry(op)) && InStep(w) && RegistryRuns.ChangeOf(op).Some?
    requires RegistryRuns.Apply(w.p.market.reg, op, w.now).Ok?
    ensures InStepAt(RegistryStep(w, op), RegistryRuns.ChangeOf(op).value.id)
            <==> Orderly(w.p.market.reg, InRegistry(op))
  {
    hide Principal, Counted;
    var c := RegistryRuns.ChangeOf(op).value;
    RegistryShape(w.p.market.reg, op, w.now, c.id);
    assert InStepAt(w, c.id);
  }

  /** Any step from lockstep stays in lockstep if and only if it is not a disorderly direct change. */
  lemma StepKeepsStepIff(w: World, cfg: Config, op: Op)
    requires Public(op) && InStep(w) && ValidOffers(w.p.market.fin)
    ensures InStep(Step(w, cfg, op)) <==> StaysOrderly(w, op)
  {
    if StaysOrderly(w, op) {
      StepKeepsStep(w, cfg, op);
    } else {
      ChangeKeepsStepIff(w, op.reg);
    }
  }

  /** Lockstep before and after every call of a run. */
  ghost predicate AlwaysInStep(w: World, calls: seq<Call>)
    decreases |calls|
  {
    InStep(w) && (calls != [] ==> AlwaysInStep(Step(w, calls[0].cfg, calls[0].op), calls[1..]))
  }

  /** No call of a run is a disorderly change at the time it commits. */
  ghost predicate OrderlyRun(w: World, calls: seq<Call>)
    decreases |calls|
  {
    calls != [] ==> StaysOrderly(w, calls[0].op) && OrderlyRun(Step(w, calls[0].cfg, calls[0].op), calls[1..])
  }

  /** A run stays in lockstep throughout if and only if its direct status changes are orderly. Then each
      invoice has at most one offer ever funded, and the two move together: running while Financed or
      Overdue, repaid together, defaulted together; what the offer counts as repaid is what the payment
      history adds up to. */
  lemma {:induction false} RunKeepsStep(w: World, calls: seq<Call>)
    requires AllPublic(calls) && Inv(w) && InStep(w)
    ensures AlwaysInStep(w, calls) <==> OrderlyRun(w, calls)
    ensures OrderlyRun(w, calls) ==> Inv(Run(w, calls)) && InStep(Run(w, calls))
    decreases |calls|
  {
    hide InStep, Inv, Step, StaysOrderly;
    if calls != [] {
      var cfg, op := calls[0].cfg, calls[0].op;
      assert ValidOffers(w.p.market.fin) by { InvGivesValidOffers(w); }
      StepKeeps(w, cfg, op);
      StepKeepsStepIff(w, cfg, op);
      if StaysOrderly(w, op) {
        RunKeepsStep(Step(w, cfg, op), calls[1..]);
      }
    }
  }

  lemma InvGivesValidOffers(w: World)
    requires Inv(w)
    ensures ValidOffers(w.p.market.fin)
  {
    TalksGiveValidOffers(Negotiating(w));
  }

  // ----- consequences -----

  /** What InStep says of a funded offer: repaid and defaulted exactly when its invoice is, its repaid
      amount the sum of the recorded principal, and no other offer was ever funded on the invoice. */
  lemma Lockstep(w: World, o: Symbol)
    requires InStep(w) && o in w.p.market.fin.offers && w.p.market.fin.offers[o].status !in {Pending, Rejected}
    ensures var offer := w.p.market.fin.offers[o]; var st := StatusOf(w.p.market.reg, offer.invoice);
            && GetOr(w.funded, offer.invoice, []) == [o]
            && (offer.status in {Accepted, Financed} <==> st in {Some(Status.Financed), Some(Status.Overdue)})
            && (offer.status == Repaid <==> st == Some(Status.Repaid))
            && (offer.status == Defaulted <==> st == Some(Status.Defaulted))
            && offer.amountRepaid == Principal(PaysOf(w.p, offer.invoice))
            && (offer.status == Repaid ==> offer.amountRepaid >= offer.terms.amount)
            && (offer.status != Repaid ==> Principal(Counted(PaysOf(w.p, offer.invoice))) < offer.terms.amount)
            && (offer.status != Repaid && |PaysOf(w.p, offer.invoice)| <= MAX_PAYMENTS ==>
                  offer.amountRepaid < offer.terms.amount)
            && (forall p | p in w.p.market.fin.offers && p != o && w.p.market.fin.offers[p].invoice == offer.invoice ::
                  w.p.market.fin.offers[p].status in {Pending, Rejected})
  {
    hide Principal;
    var id := w.p.market.fin.offers[o].invoice;
    assert OfferInStep(w, o) && InStepAt(w, id);
    forall p | p in w.p.market.fin.offers && p != o && w.p.market.fin.offers[p].invoice == id
      ensures w.p.market.fin.offers[p].status in {Pending, Rejected}
    {
      assert OfferInStep(w, p);
    }
  }

  /** A claim paid for a default in lockstep is at most the principal and flat yield less the principal
      the borrower has repaid. */
  lemma ClaimWithinLoss(w: World, id: Symbol)
    requires Inv(w) && InStep(w) && GetOr(w.claims, id, []) != []
    ensures var c := GetOr(w.claims, id, [])[0];
            && |GetOr(w.claims, id, [])| == 1 && c.offer in w.p.market.fin.offers
            && var t := w.p.market.fin.offers[c.offer].terms;
               0 <= c.amount <= Max(t.amount + FlatYield(t.amount, t.rate) - Principal(PaysOf(w.p, id)), 0)
  {
    hide Principal, FlatYield;
    assert OnceOk(w, id);
    var c := GetOr(w.claims, id, [])[0];
    Lockstep(w, c.offer);
  }

  lemma YieldNonNegative(amount: int, rate: nat)
    requires amount > 0
    ensures FlatYield(amount, rate) >= 0
  {
    assert amount * rate >= 0;
  }

  /** In lockstep a reclaim that passes its own guards has something to claim unless the records past
      the thousandth, which nobody adds up, have repaid the whole of principal and flat yield. */
  lemma SomethingToClaim(w: World, invoice: Symbol, o: Symbol, lender: Party)
    requires Inv(w) && InStep(w) && Reclaimable(w.p, invoice, o, lender, w.now).Ok?
    ensures |PaysOf(w.p, invoice)| <= MAX_PAYMENTS ==> Exposure(w.p.market.fin.offers[o]) > 0
    ensures var t := w.p.market.fin.offers[o].terms;
            Exposure(w.p.market.fin.offers[o]) > 0
            <==> Principal(PaysOf(w.p, invoice)) < t.amount + FlatYield(t.amount, t.rate)
  {
    hide Principal, FlatYield, Counted;
    TalksGiveValidOffers(Negotiating(w));
    Lockstep(w, o);
    var offer := w.p.market.fin.offers[o];
    YieldNonNegative(offer.terms.amount, offer.terms.rate);
  }

  /** A reclaim that passes its own guards goes through exactly when there is no insurance, or there is
      something to claim and the pool holds the tokens it is to pay. It then pays the lender the smaller
      of its exposure and the pool, and offer, invoice and the originator's record default together. */
  lemma ReclaimGoesThrough(w: World, cfg: Config, invoice: Symbol, o: Symbol, lender: Party)
    requires Reclaimable(w.p, invoice, o, lender, w.now).Ok?
    ensures var exposure, pool := Exposure(w.p.market.fin.offers[o]), w.p.ins.flat.book.total;
            var r := Reclaim(w.p, cfg, invoice, o, lender, w.now);
            && (r.Ok? <==>
                  || !cfg.insured
                  || (exposure > 0 && (pool <= 0 || InsuranceRuns.Held(w.p.ins) >= Min(exposure, pool))))
            && (r.Ok? ==> WrittenOff(w.p, r.value.0, cfg, invoice, o, w.now))
            && (r.Ok? ==> r.value.1 == if cfg.insured then Max(Min(exposure, pool), 0) else 0)
            && (r.Ok? ==> GetOr(r.value.0.ins.wallets, lender, 0) == GetOr(w.p.ins.wallets, lender, 0) + r.value.1)
  {
    hide Exposure, Reputation.WithOutcome, WrittenOff;
    var offer := w.p.market.fin.offers[o];
    assert Registry.MarkDefaulted(w.p.market.reg, invoice, REPAYMENT, w.now).Ok?;
    hide Registry.Move;
    if Reclaim(w.p, cfg, invoice, o, lender, w.now).Ok? {
      ReclaimDefaults(w.p, cfg, invoice, o, lender, w.now);
      if cfg.insured {
        InsuranceRuns.PayoutWithinPool(w.p.ins, true, lender, Exposure(offer));
      }
    }
  }

  /** A default moves one offer, one invoice and one reputation record, and no payment. */
  ghost predicate WrittenOff(s: Protocol, t: Protocol, cfg: Config, invoice: Symbol, o: Symbol, now: Timestamp)
  {
    && invoice in s.market.reg.invoices && o in s.market.fin.offers
    && t.market.fin
       == s.market.fin.(offers := s.market.fin.offers[o := s.market.fin.offers[o].(status := OfferStatus.Defaulted)])
    && t.market.wallets == s.market.wallets && t.pays == s.pays
    && t.market.reg.invoices
       == s.market.reg.invoices[invoice := s.market.reg.invoices[invoice].(status := Status.Defaulted)]
    && var originator := s.market.reg.invoices[invoice].originator;
       (forall a :: Reputation.RecordOf(t.rep, a)
          == if cfg.rated && a == originator
             then Reputation.WithOutcome(Reputation.RecordOf(s.rep, a), Reputation.OUTCOME_DEFAULTED, now)
             else Reputation.RecordOf(s.rep, a))
  }

  lemma ReclaimDefaults(s: Protocol, cfg: Config, invoice: Symbol, o: Symbol, lender: Address, now: Timestamp)
    requires Reclaim(s, cfg, invoice, o, lender, now).Ok?
    ensures WrittenOff(s, Reclaim(s, cfg, invoice, o, lender, now).value.0, cfg, invoice, o, now)
  {
    ReclaimShape(s, cfg, invoice, o, lender, now);
    hide Exposure, Reputation.WithOutcome, InsuranceSteps.PayOut;
  }

  /** A payment moves its own loan and the two wallets it is paid between and its fee's, and records an
      outcome exactly when it closes the loan: every other offer, invoice, history and record stays. */
  lemma PaymentMovesOnlyItsLoan(s: Protocol, cfg: Config, invoice: Symbol, o: Symbol, payer: Address, amount: int,
                                now: Timestamp)
    requires Repay(s, cfg, invoice, o, payer, amount, now).Ok?
    ensures var t := Repay(s, cfg, invoice, o, payer, amount, now).value;
            && o in s.market.fin.offers && o in t.market.fin.offers
            && (forall p :: p != o ==> (p in t.market.fin.offers <==> p in s.market.fin.offers))
            && (forall p :: p in s.market.fin.offers && p != o ==> t.market.fin.offers[p] == s.market.fin.offers[p])
            && t.market.fin.offers[o].terms == s.market.fin.offers[o].terms
            && (forall i :: i != invoice ==>
                  StatusOf(t.market.reg, i) == StatusOf(s.market.reg, i) && PaysOf(t, i) == PaysOf(s, i))
            && t.ins == s.ins && t.market.fin.talks == s.market.fin.talks
            && Paid(s.market.wallets, cfg, payer, s.market.fin.offers[o].lender, amount) == Some(t.market.wallets)
            && (forall a :: Reputation.RecordOf(t.rep, a)
                  == if cfg.rated && a == payer && t.market.fin.offers[o].status == Repaid
                     then Reputation.WithOutcome(Reputation.RecordOf(s.rep, a), Reputation.OUTCOME_REPAID, now)
                     else Reputation.RecordOf(s.rep, a))
  {
    RepayShape(s, cfg, invoice, o, payer, amount, now);
    hide AmountError, Remaining, Interest, Reputation.WithOutcome, InsuranceSteps.Transfer;
  }

  /** Nothing about the invoice has moved: its status, payments, fundings, outcomes and claims. */
  ghost predicate SameLife(w: World, v: World, id: Symbol) {
    && StatusOf(v.p.market.reg, id) == StatusOf(w.p.market.reg, id)
    && PaysOf(v.p, id) == PaysOf(w.p, id)
    && GetOr(v.funded, id, []) == GetOr(w.funded, id, [])
    && GetOr(v.outcomes, id, []) == GetOr(w.outcomes, id, [])
    && GetOr(v.claims, id, []) == GetOr(w.claims, id, [])
  }

  ghost predicate IsSettled(w: World, id: Symbol) {
    id in w.p.market.reg.invoices && Status.Terminal(w.p.market.reg.invoices[id].status)
  }

  /** A settled invoice stays as it is on every later run, and takes neither payments nor a reclaim. */
  lemma {:induction false} SettledForGood(w: World, calls: seq<Call>, id: Symbol)
    requires AllPublic(calls) && Inv(w) && IsSettled(w, id)
    ensures var v := Run(w, calls);
            && SameLife(w, v, id)
            && (forall cfg, o, payer, amount :: Repay(v.p, cfg, id, o, payer, amount, v.now).Err?)
            && (forall cfg, o, lender :: Reclaim(v.p, cfg, id, o, lender, v.now).Err?)
    decreases |calls|
  {
    if calls != [] {
      StepKeeps(w, calls[0].cfg, calls[0].op);
      SettledStep(w, calls[0].cfg, calls[0].op, id);
      SettledForGood(Step(w, calls[0].cfg, calls[0].op), calls[1..], id);
    }
  }

  lemma SettledStep(w: World, cfg: Config, op: Op, id: Symbol)
    requires Public(op) && Inv(w) && IsSettled(w, id)
    ensures SameLife(w, Step(w, cfg, op), id)
  {
    hide Inv, FinancingStep, RepayStep, ReclaimStep, RegistryStep, InsuranceStep, IsSettled, SameLife;
    InvGivesValidOffers(w);
    match op
    case InRegistry(r) => SettledUnderRegistry(w, r, id);
    case InFinancing(f) => SettledUnderFinancing(w, f, id);
    case DoRepay(i, o, a, amount) => SettledUnderRepay(w, cfg, i, o, a, amount, id);
    case DoReclaim(i, o, a) => SettledUnderReclaim(w, cfg, i, o, a, id);
    case _ => SettledUnderOthers(w, cfg, op, id);
  }

  lemma SettledUnderOthers(w: World, cfg: Config, op: Op, id: Symbol)
    requires (op.InInsurance? || op.InReputation? || op.Tick?) && IsSettled(w, id)
    ensures SameLife(w, Step(w, cfg, op), id)
  {
    hide InsuranceRuns.Apply, Reputation.WithDispute;
  }

  lemma SettledUnderRegistry(w: World, op: RegistryRuns.Op, id: Symbol)
    requires IsSettled(w, id)
    ensures SameLife(w, RegistryStep(w, op), id)
  {
    hide RegistryRuns.Apply;
    if RegistryRuns.Apply(w.p.market.reg, op, w.now).Ok? { RegistryShape(w.p.market.reg, op, w.now, id); }
  }

  lemma SettledUnderFinancing(w: World, op: NegotiationRuns.Op, id: Symbol)
    requires Public(InFinancing(op)) && ValidOffers(w.p.market.fin) && IsSettled(w, id)
    ensures SameLife(w, FinancingStep(w, op), id)
  {
    hide NegotiationRuns.Apply, ValidTerms;
    if NegotiationRuns.Apply(w.p.market, op, w.now).Ok? {
      FinancingShape(w.p.market, op, w.now);
    }
  }

  lemma SettledUnderRepay(w: World, cfg: Config, invoice: Symbol, o: Symbol, payer: Address, amount: int, id: Symbol)
    requires IsSettled(w, id)
    ensures SameLife(w, RepayStep(w, cfg, invoice, o, payer, amount), id)
  {
    hide Repay, Recorded, Remaining, Payable;
    if Repay(w.p, cfg, invoice, o, payer, amount, w.now).Ok? {
      RepayShape(w.p, cfg, invoice, o, payer, amount, w.now);
    }
  }

  lemma SettledUnderReclaim(w: World, cfg: Config, invoice: Symbol, o: Symbol, lender: Address, id: Symbol)
    requires IsSettled(w, id)
    ensures SameLife(w, ReclaimStep(w, cfg, invoice, o, lender), id)
  {
    hide Reclaim, Reclaimable, Exposure;
    if Reclaim(w.p, cfg, invoice, o, lender, w.now).Ok? {
      ReclaimShape(w.p, cfg, invoice, o, lender, w.now);
    }
  }

  // ----- what disputes and direct edits can do -----

  /** Without a way back to Pending an invoice is financed at most once on any run, disputes and direct
      edits included. */
  lemma FinancedOnceUnlessReopened(w: World, id: Symbol)
    requires Inv(w) && GetOr(w.reopened, id, 0) == 0
    ensures |GetOr(w.funded, id, [])| <= 1
  {
    assert FundedOk(w, id);
  }

  /** A dispute decided back to Pending lets another offer be funded while the first still runs: from
      any state with a financed invoice, a second pending offer on it and a lender who can pay. */
  lemma DisputeAllowsSecondFunding(w: World, cfg: Config, id: Symbol, second: Symbol, admin: Address)
    requires id in w.p.market.reg.invoices && w.p.market.reg.invoices[id].status == Status.Financed
    requires second in w.p.market.fin.offers
    requires var offer := w.p.market.fin.offers[second];
             && offer.invoice == id && offer.status == Pending && !Stale(offer, w.now) && offer.terms.amount >= 0
             && GetOr(w.p.market.wallets, offer.lender, 0) >= offer.terms.amount
    ensures var originator := w.p.market.reg.invoices[id].originator;
            var v := Run(w, [Call(cfg, InRegistry(RegistryRuns.DoRaiseDispute(id, originator))),
                             Call(cfg, InRegistry(RegistryRuns.DoResolveDispute(id, admin, Status.Pending))),
                             Call(cfg, InFinancing(NegotiationRuns.DoAccept(second, originator)))]);
            && GetOr(v.funded, id, []) == GetOr(w.funded, id, []) + [second]
            && (forall o :: o in w.p.market.fin.offers && o != second ==>
                  o in v.p.market.fin.offers && v.p.market.fin.offers[o] == w.p.market.fin.offers[o])
            && second in v.p.market.fin.offers && v.p.market.fin.offers[second].status == Accepted
  {
    hide Run, RegistryStep, FinancingStep, InsuranceSteps.Transfer, FundedBy;
    var originator := w.p.market.reg.invoices[id].originator;
    var raise := InRegistry(RegistryRuns.DoRaiseDispute(id, originator));
    var resolve := InRegistry(RegistryRuns.DoResolveDispute(id, admin, Status.Pending));
    var accept := InFinancing(NegotiationRuns.DoAccept(second, originator));
    var w1 := Step(w, cfg, raise);
    var w2 := Step(w1, cfg, resolve);
    var v := Step(w2, cfg, accept);
    RunThree(w, cfg, raise, resolve, accept);
    Reopens(w, cfg, id, originator, admin);
    AcceptIsFunded(w2, second, originator);
  }

  lemma AcceptIsFunded(w: World, o: Symbol, originator: Address)
    requires o in w.p.market.fin.offers && w.p.market.fin.offers[o].invoice in w.p.market.reg.invoices
    requires var offer := w.p.market.fin.offers[o]; var inv := w.p.market.reg.invoices[offer.invoice];
             && offer.status == Pending && !Stale(offer, w.now) && offer.terms.amount >= 0
             && inv.status == Status.Pending && inv.originator == originator
             && GetOr(w.p.market.wallets, offer.lender, 0) >= offer.terms.amount
    ensures var v := FinancingStep(w, NegotiationRuns.DoAccept(o, originator));
            && v.funded == Noted(w.funded, w.p.market.fin.offers[o].invoice, o)
            && v.p.market.fin.offers
               == w.p.market.fin.offers[o := w.p.market.fin.offers[o].(status := Accepted, fundedAt := w.now)]
  {
    hide Conclude;
  }

  lemma RunThree(w: World, cfg: Config, a: Op, b: Op, c: Op)
    ensures Run(w, [Call(cfg, a), Call(cfg, b), Call(cfg, c)]) == Step(Step(Step(w, cfg, a), cfg, b), cfg, c)
  {
    hide Step;
    RunTwoCalls(Step(w, cfg, a), cfg, b, c);
    assert [Call(cfg, a), Call(cfg, b), Call(cfg, c)][1..] == [Call(cfg, b), Call(cfg, c)];
  }

  lemma RunTwoCalls(w: World, cfg: Config, a: Op, b: Op)
    ensures Run(w, [Call(cfg, a), Call(cfg, b)]) == Step(Step(w, cfg, a), cfg, b)
  {
    hide Step;
    var w1 := Step(w, cfg, a);
    assert [Call(cfg, a), Call(cfg, b)][1..] == [Call(cfg, b)] && [Call(cfg, b)][1..] == [];
    assert Run(w1, [Call(cfg, b)]) == Run(Step(w1, cfg, b), []);
  }

  lemma Reopens(w: World, cfg: Config, id: Symbol, originator: Address, admin: Address)
    requires id in w.p.market.reg.invoices && w.p.market.reg.invoices[id].status == Status.Financed
    requires w.p.market.reg.invoices[id].originator == originator
    ensures var v := Step(Step(w, cfg, InRegistry(RegistryRuns.DoRaiseDispute(id, originator))), cfg,
                          InRegistry(RegistryRuns.DoResolveDispute(id, admin, Status.Pending)));
            && v.p.market.fin == w.p.market.fin && v.p.market.wallets == w.p.market.wallets
            && v.funded == w.funded && v.now == w.now
            && id in v.p.market.reg.invoices
               && v.p.market.reg.invoices[id] == w.p.market.reg.invoices[id].(status := Status.Pending)
  {
  }

  /** Anyone may mark a financed invoice repaid without paying: the offer stays as it is, and from then
      on the loan can be neither repaid nor reclaimed, on any run. */
  lemma DirectRepaidStrandsTheLoan(w: World, cfg: Config, id: Symbol, anyone: Address, calls: seq<Call>)
    requires Inv(w) && AllPublic(calls) && id in w.p.market.reg.invoices
             && w.p.market.reg.invoices[id].status == Status.Financed
    ensures var w1 := Step(w, cfg, InRegistry(RegistryRuns.DoMarkRepaid(id, anyone, true)));
            var v := Run(w1, calls);
            && w1.p.market.fin == w.p.market.fin && w1.p.market.wallets == w.p.market.wallets
            && StatusOf(v.p.market.reg, id) == Some(Status.Repaid)
            && (forall c, o, payer, amount :: Repay(v.p, c, id, o, payer, amount, v.now).Err?)
            && (forall c, o, lender :: Reclaim(v.p, c, id, o, lender, v.now).Err?)
  {
    hide Inv, Step, Repay, Reclaim, Registry.Move, Registry.MarkRepaid;
    var op := InRegistry(RegistryRuns.DoMarkRepaid(id, anyone, true));
    MarkedRepaid(w, cfg, id, anyone);
    StepKeeps(w, cfg, op);
    SettledForGood(Step(w, cfg, op), calls, id);
  }

  lemma MarkedRepaid(w: World, cfg: Config, id: Symbol, anyone: Address)
    requires id in w.p.market.reg.invoices && w.p.market.reg.invoices[id].status == Status.Financed
    ensures var w1 := Step(w, cfg, InRegistry(RegistryRuns.DoMarkRepaid(id, anyone, true)));
            && w1.p.market.fin == w.p.market.fin && w1.p.market.wallets == w.p.market.wallets
            && id in w1.p.market.reg.invoices && w1.p.market.reg.invoices[id].status == Status.Repaid
  {
    hide FinancingStep, RepayStep, ReclaimStep, InsuranceStep;
  }

  /** The originator of an overdue invoice may declare it defaulted itself: no run from there lets the
      lender reclaim, pays any insurance for it, or records the default. */
  lemma DirectDefaultStrandsTheLender(w: World, cfg: Config, id: Symbol, calls: seq<Call>)
    requires Inv(w) && AllPublic(calls) && id in w.p.market.reg.invoices
             && w.p.market.reg.invoices[id].status == Status.Overdue
    ensures var originator := w.p.market.reg.invoices[id].originator;
            var w1 := Step(w, cfg, InRegistry(RegistryRuns.DoUpdateStatus(id, originator, Status.Defaulted)));
            var v := Run(w1, calls);
            && w1.p == w.p.(market := w.p.market.(reg := w1.p.market.reg))
            && StatusOf(v.p.market.reg, id) == Some(Status.Defaulted)
            && (forall c, o, lender :: Reclaim(v.p, c, id, o, lender, v.now).Err?)
            && GetOr(v.claims, id, []) == [] && GetOr(v.outcomes, id, []) == []
  {
    assert OnceOk(w, id);
    hide Inv, Step, Repay, Reclaim, Registry.Move;
    var originator := w.p.market.reg.invoices[id].originator;
    var op := InRegistry(RegistryRuns.DoUpdateStatus(id, originator, Status.Defaulted));
    DeclaredDefaulted(w, cfg, id);
    StepKeeps(w, cfg, op);
    SettledForGood(Step(w, cfg, op), calls, id);
  }

  lemma DeclaredDefaulted(w: World, cfg: Config, id: Symbol)
    requires id in w.p.market.reg.invoices && w.p.market.reg.invoices[id].status == Status.Overdue && OnceOk(w, id)
    ensures var originator := w.p.market.reg.invoices[id].originator;
            var w1 := Step(w, cfg, InRegistry(RegistryRuns.DoUpdateStatus(id, originator, Status.Defaulted)));
            && w1.p == w.p.(market := w.p.market.(reg := w1.p.market.reg))
            && id in w1.p.market.reg.invoices && w1.p.market.reg.invoices[id].status == Status.Defaulted
            && GetOr(w1.claims, id, []) == [] && GetOr(w1.outcomes, id, []) == []
  {
    hide FinancingStep, RepayStep, ReclaimStep, InsuranceStep;
  }
}
