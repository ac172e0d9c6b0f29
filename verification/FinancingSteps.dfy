/** The financing contract's entry points as atomic steps over its offers and negotiations, the
    registry it calls, and the settlement token's balances. */
module FinancingSteps {
  import opened Base
  import opened Negotiation
  import Status
  import Registry = RegistrySteps
  import InsuranceSteps

  /** Named as the actor of the transitions this contract asks for. */
  const FINANCING: Address := 2

  /** A lender signs its offers, which the insurance pool's own address never does. */
  type Party = InsuranceSteps.Party

  datatype OfferStatus = Pending | Accepted | Rejected | Financed | Repaid | Defaulted

  datatype Offer = Offer(
    invoice: Symbol,
    lender: Party,
    terms: Terms,
    currency: Symbol,
    expiresAt: Timestamp,
    status: OfferStatus,
    fundedAt: Timestamp,
    amountRepaid: int)

  /** Agreed is the outcome of a negotiation whose offer was settled. */
  datatype TalkStatus = Unopened | Open | Expired | Closed | Agreed

  datatype LenderStats = LenderStats(offered: int, pending: nat, accepted: int, repaid: nat)

  const NO_STATS: LenderStats := LenderStats(0, 0, 0, 0)

  datatype Closing = Closing(offer: Symbol, outcome: TalkStatus)

  /** Each negotiation's rounds, its frozen deadline, and its outcome once one is stored. */
  datatype Talks = Talks(rounds: map<Symbol, seq<Round>>, deadlines: map<Symbol, Timestamp>,
                         outcomes: map<Symbol, TalkStatus>)

  /** `closings` are the announcements that a negotiation is over. */
  datatype Financing = Financing(
    offers: map<Symbol, Offer>,
    talks: Talks,
    stats: map<Address, LenderStats>,
    window: nat,
    closings: seq<Closing>)

  datatype Market = Market(fin: Financing, reg: Registry.Registry, wallets: map<Address, int>)

  function RoundsOf(t: Talks, o: Symbol): seq<Round> { GetOr(t.rounds, o, []) }

  function StatsOf(f: Financing, a: Address): LenderStats { GetOr(f.stats, a, NO_STATS) }

  function InvoiceOf(s: Market, offer: Offer): Result<Registry.Invoice> {
    if offer.invoice in s.reg.invoices then Ok(s.reg.invoices[offer.invoice]) else Err(NotFound)
  }

  predicate Stale(offer: Offer, now: Timestamp) { offer.expiresAt != 0 && now >= offer.expiresAt }

  /** Expiry is read off the deadline; nothing has to be called for it to take effect. */
  function TalkOf(f: Financing, o: Symbol, now: Timestamp): TalkStatus {
    if o in f.talks.outcomes then f.talks.outcomes[o]
    else if RoundsOf(f.talks, o) == [] then Unopened
    else if o !in f.offers || f.offers[o].status != Pending then Closed
    else if now > GetOr(f.talks.deadlines, o, 0) then Expired
    else Open
  }

  // ----- offers -----

  function Create(s: Market, o: Symbol, invoice: Symbol, lender: Party, terms: Terms, currency: Symbol,
                  expiresAt: Timestamp)
    : Result<Market>
  {
    if lender in s.reg.blacklist then Err(Blacklisted)
    else if !ValidTerms(terms) then Err(Trap)
    else if invoice !in s.reg.invoices then Err(NotFound)
    else
      var inv := s.reg.invoices[invoice];
      if inv.status != Status.Pending || lender == inv.originator || terms.amount > inv.amount then Err(Trap)
      else if o in s.fin.offers then Err(AlreadyExists)
      else
        var st := StatsOf(s.fin, lender);
        Ok(s.(fin := s.fin.(
                offers := s.fin.offers[o := Offer(invoice, lender, terms, currency, expiresAt, Pending, 0, 0)],
                stats := s.fin.stats[lender := st.(offered := st.offered + terms.amount, pending := st.pending + 1)])))
  }

  /** An offer that leaves the table takes its running negotiation with it; no outcome is stored. */
  function Leave(f: Financing, o: Symbol): Financing
    requires o in f.offers
  {
    f.(offers := f.offers[o := f.offers[o].(status := Rejected)],
       closings := if RoundsOf(f.talks, o) == [] || o in f.talks.outcomes then f.closings
                   else f.closings + [Closing(o, Closed)])
  }

  function Withdraw(s: Market, o: Symbol, lender: Address): Result<Market> {
    if o !in s.fin.offers then Err(NotFound)
    else if s.fin.offers[o].lender != lender then Err(Unauthorized)
    else if s.fin.offers[o].status != Pending then Err(InvalidTransition)
    else Ok(s.(fin := Leave(s.fin, o)))
  }

  function Reject(s: Market, o: Symbol, originator: Address): Result<Market> {
    if o !in s.fin.offers then Err(NotFound)
    else if s.fin.offers[o].status != Pending then Err(InvalidTransition)
    else
      match InvoiceOf(s, s.fin.offers[o])
      case Err(e) => Err(e)
      case Ok(inv) => if inv.originator != originator then Err(Unauthorized) else Ok(s.(fin := Leave(s.fin, o)))
  }

  // ----- settlement -----

  /** Settlement closes a negotiation still running, whichever route led here. */
  function Conclude(f: Financing, o: Symbol): Financing {
    if RoundsOf(f.talks, o) == [] || o in f.talks.outcomes then f
    else f.(talks := f.talks.(outcomes := f.talks.outcomes[o := Agreed]), closings := f.closings + [Closing(o, Agreed)])
  }

  function Funded(f: Financing, o: Symbol, now: Timestamp): Financing
    requires o in f.offers
  {
    var offer := f.offers[o];
    var g, st := Conclude(f, o), StatsOf(f, offer.lender);
    g.(offers := f.offers[o := offer.(status := Accepted, fundedAt := now)],
       stats := f.stats[offer.lender := st.(accepted := st.accepted + offer.terms.amount)])
  }

  /** The lender's principal goes to the originator, and the invoice becomes Financed. */
  function Settle(s: Market, o: Symbol, now: Timestamp): Result<Market>
    requires o in s.fin.offers && s.fin.offers[o].invoice in s.reg.invoices
  {
    var offer := s.fin.offers[o];
    match InsuranceSteps.Transfer(s.wallets, offer.lender, s.reg.invoices[offer.invoice].originator, offer.terms.amount)
    case None => Err(Trap)
    case Some(w) =>
      match Registry.MarkFinanced(s.reg, offer.invoice, FINANCING, now)
      case Err(e) => Err(e)
      case Ok(reg) => Ok(Market(Funded(s.fin, o, now), reg, w))
  }

  function Accept(s: Market, o: Symbol, originator: Address, now: Timestamp): Result<Market> {
    if o !in s.fin.offers then Err(NotFound)
    else
      var offer := s.fin.offers[o];
      if offer.status != Pending then Err(InvalidTransition)
      else if Stale(offer, now) then Err(OfferExpired)
      else
        match InvoiceOf(s, offer)
        case Err(e) => Err(e)
        case Ok(inv) =>
          if inv.originator != originator then Err(Unauthorized)
          else if inv.status != Status.Pending then Err(InvalidTransition)
          else Settle(s, o, now)
  }

  // ----- negotiation -----

  function Negotiable(f: Financing, o: Symbol, expected: nat, now: Timestamp): Result<seq<Round>>
    requires o in f.offers
  {
    var rounds := RoundsOf(f.talks, o);
    if f.offers[o].status != Pending || TalkOf(f, o, now) !in {Unopened, Open} then Err(InvalidTransition)
    else if |rounds| != expected then Err(InvalidInput)
    else if |rounds| >= MAX_ROUNDS then Err(InvalidTransition)
    else Ok(rounds)
  }

  /** The first round freezes the deadline. */
  function WithRound(f: Financing, o: Symbol, side: Side, terms: Terms, now: Timestamp): Talks {
    var rounds := RoundsOf(f.talks, o);
    f.talks.(rounds := f.talks.rounds[o := rounds + [Round(side, terms, now)]],
             deadlines := if rounds == [] then f.talks.deadlines[o := SaturatingAdd(now, f.window)]
                          else f.talks.deadlines)
  }

  /** Both sides have the same terms on the table. The invoice, the expiry and both parties' standing
      are looked at again: they may have changed since either proposed. */
  function Execute(s: Market, o: Symbol, now: Timestamp): Result<Market>
    requires o in s.fin.offers
  {
    var offer := s.fin.offers[o];
    match InvoiceOf(s, offer)
    case Err(e) => Err(e)
    case Ok(inv) =>
      if inv.status != Status.Pending then Err(InvalidTransition)
      else if Stale(offer, now) then Err(OfferExpired)
      else if offer.lender in s.reg.blacklist || inv.originator in s.reg.blacklist then Err(Blacklisted)
      else Settle(s, o, now)
  }

  /** The lender's amendment rewrites the offer, and settles it when it meets the originator's live
      proposal. The invoice's amount is not looked at again. */
  function Amend(s: Market, o: Symbol, lender: Address, expected: nat, terms: Terms, now: Timestamp): Result<Market> {
    if lender in s.reg.blacklist then Err(Blacklisted)
    else if !ValidTerms(terms) then Err(InvalidInput)
    else if o !in s.fin.offers then Err(NotFound)
    else if s.fin.offers[o].lender != lender then Err(Unauthorized)
    else
      match Negotiable(s.fin, o, expected, now)
      case Err(e) => Err(e)
      case Ok(rounds) =>
        var t := Market(Amended(s.fin, o, terms, now), s.reg, s.wallets);
        if Live(rounds, Originator) == Some(terms) then Execute(t, o, now) else Ok(t)
  }

  function Amended(f: Financing, o: Symbol, terms: Terms, now: Timestamp): (g: Financing)
    requires o in f.offers
    ensures o in g.offers
  {
    var offer, st := f.offers[o], StatsOf(f, f.offers[o].lender);
    f.(offers := f.offers[o := offer.(terms := terms)],
       talks := WithRound(f, o, Lender, terms, now),
       stats := f.stats[offer.lender := st.(offered := st.offered + terms.amount - offer.terms.amount)])
  }

  /** The originator's proposal leaves the offer as it is, and settles it when it names the standing
      terms. */
  function Counter(s: Market, o: Symbol, originator: Address, expected: nat, terms: Terms,
                   now: Timestamp): Result<Market> {
    if originator in s.reg.blacklist then Err(Blacklisted)
    else if !ValidTerms(terms) then Err(InvalidInput)
    else if o !in s.fin.offers then Err(NotFound)
    else
      match InvoiceOf(s, s.fin.offers[o])
      case Err(e) => Err(e)
      case Ok(inv) =>
        if inv.originator != originator then Err(Unauthorized)
        else
          match Negotiable(s.fin, o, expected, now)
          case Err(e) => Err(e)
          case Ok(_) =>
            var t := s.(fin := s.fin.(talks := WithRound(s.fin, o, Originator, terms, now)));
            if terms == s.fin.offers[o].terms then Execute(t, o, now) else Ok(t)
  }

  /** Either side may end an open negotiation; anyone may record that one has expired. */
  function CloseTalk(s: Market, o: Symbol, caller: Address, now: Timestamp): Result<(Market, TalkStatus)> {
    if o in s.fin.talks.outcomes then Err(InvalidTransition)
    else
      match TalkOf(s.fin, o, now)
      case Unopened => Err(NotFound)
      case Closed => Err(InvalidTransition)
      case Agreed => Err(InvalidTransition)
      case Expired => Ok((s.(fin := Ended(s.fin, o, Expired)), Expired))
      case Open =>
        var offer := s.fin.offers[o];
        if caller == offer.lender then Ok((s.(fin := Ended(s.fin, o, Closed)), Closed))
        else
          match InvoiceOf(s, offer)
          case Err(e) => Err(e)
          case Ok(inv) =>
            if caller != inv.originator then Err(Unauthorized) else Ok((s.(fin := Ended(s.fin, o, Closed)), Closed))
  }

  function Ended(f: Financing, o: Symbol, outcome: TalkStatus): Financing {
    f.(talks := f.talks.(outcomes := f.talks.outcomes[o := outcome]), closings := f.closings + [Closing(o, outcome)])
  }

  function SetWindow(f: Financing, window: nat): Result<Financing> {
    if MIN_WINDOW <= window <= MAX_WINDOW then Ok(f.(window := window)) else Err(InvalidInput)
  }

  // ----- callbacks from the repayment contract -----

  function SetStatus(f: Financing, o: Symbol, status: OfferStatus): Result<Financing> {
    if o in f.offers then Ok(f.(offers := f.offers[o := f.offers[o].(status := status)])) else Err(NotFound)
  }

  function SetAmountRepaid(f: Financing, o: Symbol, amount: int): Result<Financing> {
    if o in f.offers then Ok(f.(offers := f.offers[o := f.offers[o].(amountRepaid := amount)])) else Err(NotFound)
  }

  function CountRepaid(f: Financing, lender: Address, full: bool): Financing {
    var st := StatsOf(f, lender);
    f.(stats := f.stats[lender := if full then st.(repaid := st.repaid + 1) else st])
  }

  /** The three callbacks that follow a payment. */
  function Reported(f: Financing, o: Symbol, repaid: int, full: bool): Financing
    requires o in f.offers
  {
    var offer := f.offers[o].(status := if full then Repaid else Financed, amountRepaid := repaid);
    CountRepaid(f.(offers := f.offers[o := offer]), offer.lender, full)
  }

  function Empty(): Financing {
    Financing(map[], Talks(map[], map[], map[]), map[], DEFAULT_WINDOW, [])
  }
}
