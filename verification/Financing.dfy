/** The financing contract as deployed, with the registry and the token it calls. */
module Financing {
  import opened Base
  import opened Negotiation
  import opened Steps = FinancingSteps
  import Status
  import RegistrySteps
  import Registry
  import Token
  import InsuranceSteps

  lemma PendingCanBeFinanced(reg: RegistrySteps.Registry, id: Symbol, now: Timestamp)
    requires id in reg.invoices && reg.invoices[id].status == Status.Pending
    ensures RegistrySteps.Move(reg, id, Status.Financed, FINANCING, now).Ok?
  {
  }

  lemma RoundIgnoresTerms(f: Steps.Financing, offers: map<Symbol, Offer>, stats: map<Address, LenderStats>, o: Symbol,
                          terms: Terms, now: Timestamp)
    ensures WithRound(f.(offers := offers, stats := stats), o, Lender, terms, now)
            == WithRound(f, o, Lender, terms, now)
  {
  }

  class Contract {
    const registry: Registry.Contract
    const token: Token.Contract
    var offers: map<Symbol, Offer>
    var talks: Talks
    var stats: map<Address, LenderStats>
    var window: nat
    var closings: seq<Closing>

    function Own(): Steps.Financing
      reads this
    {
      Steps.Financing(offers, talks, stats, window, closings)
    }

    function State(): Market
      reads this, registry, token
    {
      Market(Own(), registry.State(), token.wallets)
    }

    /** A transaction reaches the specified state or reverts, here and in every contract it called. */
    ghost predicate Commits(before: Market, r: Result<()>, spec: Result<Market>)
      reads this, registry, token
    {
      match spec
      case Ok(s) => State() == s && r == Ok(())
      case Err(e) => State() == before && r == Err(e)
    }

    constructor (registry: Registry.Contract, token: Token.Contract)
      ensures this.registry == registry && this.token == token && Own() == Empty()
    {
      this.registry, this.token := registry, token;
      offers, talks, stats := map[], Talks(map[], map[], map[]), map[];
      window, closings := DEFAULT_WINDOW, [];
    }

    method CreateOffer(o: Symbol, invoice: Symbol, lender: Party, terms: Terms, currency: Symbol, expiresAt: Timestamp)
      returns (r: Result<()>)
      modifies this
      ensures Commits(old(State()), r, Create(old(State()), o, invoice, lender, terms, currency, expiresAt))
    {
      if lender in registry.blacklist { return Err(Blacklisted); }
      if terms.amount <= 0 || terms.rate == 0 || terms.rate > MAX_INTEREST_BPS { return Err(Trap); }
      if terms.duration < MIN_OFFER_DURATION || terms.duration > MAX_OFFER_DURATION { return Err(Trap); }
      if invoice !in registry.invoices { return Err(NotFound); }
      var inv := registry.invoices[invoice];
      if inv.status != Status.Pending { return Err(Trap); }
      if lender == inv.originator { return Err(Trap); }
      if terms.amount > inv.amount { return Err(Trap); }
      if o in offers { return Err(AlreadyExists); }
      offers := offers[o := Offer(invoice, lender, terms, currency, expiresAt, Pending, 0, 0)];
      var st := GetOr(stats, lender, NO_STATS);
      stats := stats[lender := st.(offered := st.offered + terms.amount, pending := st.pending + 1)];
      return Ok(());
    }

    method CloseOnOfferExit(o: Symbol)
      modifies this`closings
      ensures closings == if RoundsOf(talks, o) == [] || o in talks.outcomes then old(closings)
                          else old(closings) + [Closing(o, Closed)]
    {
      if GetOr(talks.rounds, o, []) == [] || o in talks.outcomes { return; }
      closings := closings + [Closing(o, Closed)];
    }

    method WithdrawOffer(o: Symbol, lender: Address) returns (r: Result<()>)
      modifies this
      ensures Commits(old(State()), r, Withdraw(old(State()), o, lender))
    {
      if o !in offers { return Err(NotFound); }
      if offers[o].lender != lender { return Err(Unauthorized); }
      if offers[o].status != Pending { return Err(InvalidTransition); }
      offers := offers[o := offers[o].(status := Rejected)];
      CloseOnOfferExit(o);
      return Ok(());
    }

    method RejectOffer(o: Symbol, originator: Address) returns (r: Result<()>)
      modifies this
      ensures Commits(old(State()), r, Reject(old(State()), o, originator))
    {
      if o !in offers { return Err(NotFound); }
      if offers[o].status != Pending { return Err(InvalidTransition); }
      if offers[o].invoice !in registry.invoices { return Err(NotFound); }
      if registry.invoices[offers[o].invoice].originator != originator { return Err(Unauthorized); }
      offers := offers[o := offers[o].(status := Rejected)];
      CloseOnOfferExit(o);
      return Ok(());
    }

    /** Settlement ends a negotiation still running. */
    method ConcludeTalk(o: Symbol)
      modifies this`talks, this`closings
      ensures Own() == Conclude(old(Own()), o)
    {
      if GetOr(talks.rounds, o, []) != [] && o !in talks.outcomes {
        talks := talks.(outcomes := talks.outcomes[o := Agreed]);
        closings := closings + [Closing(o, Agreed)];
      }
    }

    /** The one way an offer is funded. A transfer that fails undoes the writes before it. */
    method SettleAcceptance(o: Symbol, now: Timestamp) returns (r: Result<()>)
      requires o in offers && offers[o].invoice in registry.invoices
      requires registry.invoices[offers[o].invoice].status == Status.Pending
      modifies this, registry, token
      ensures Commits(old(State()), r, Settle(old(State()), o, now))
    {
      hide InsuranceSteps.Transfer, RegistrySteps.Move, Conclude;
      PendingCanBeFinanced(registry.State(), offers[o].invoice, now);
      var offer := offers[o];
      var originator := registry.invoices[offer.invoice].originator;
      var offersBefore, talksBefore, closingsBefore := offers, talks, closings;
      ConcludeTalk(o);
      offers := offers[o := offer.(status := Accepted, fundedAt := now)];
      var paid := token.Transfer(offer.lender, originator, offer.terms.amount);
      if !paid {
        offers, talks, closings := offersBefore, talksBefore, closingsBefore;
        return Err(Trap);
      }
      var marked := registry.Move(offer.invoice, Status.Financed, FINANCING, now);
      var st := GetOr(stats, offer.lender, NO_STATS);
      stats := stats[offer.lender := st.(accepted := st.accepted + offer.terms.amount)];
      return Ok(());
    }

    method AcceptOffer(o: Symbol, originator: Address, now: Timestamp) returns (r: Result<()>)
      modifies this, registry, token
      ensures Commits(old(State()), r, Accept(old(State()), o, originator, now))
    {
      hide Settle;
      if o !in offers { return Err(NotFound); }
      var offer := offers[o];
      if offer.status != Pending { return Err(InvalidTransition); }
      if offer.expiresAt != 0 && now >= offer.expiresAt { return Err(OfferExpired); }
      if offer.invoice !in registry.invoices { return Err(NotFound); }
      var invoice := registry.invoices[offer.invoice];
      if invoice.originator != originator { return Err(Unauthorized); }
      if invoice.status != Status.Pending { return Err(InvalidTransition); }
      r := SettleAcceptance(o, now);
    }

    method RecordRound(o: Symbol, side: Side, terms: Terms, now: Timestamp)
      modifies this`talks
      ensures talks == WithRound(old(Own()), o, side, terms, now)
    {
      var history := GetOr(talks.rounds, o, []);
      if history == [] {
        talks := talks.(deadlines := talks.deadlines[o := SaturatingAdd(now, window)]);
      }
      history := history + [Round(side, terms, now)];
      talks := talks.(rounds := talks.rounds[o := history]);
    }

    method ExecuteAgreement(o: Symbol, now: Timestamp) returns (r: Result<()>)
      requires o in offers
      modifies this, registry, token
      ensures Commits(old(State()), r, Execute(old(State()), o, now))
    {
      hide Settle;
      var offer := offers[o];
      if offer.invoice !in registry.invoices { return Err(NotFound); }
      var invoice := registry.invoices[offer.invoice];
      if invoice.status != Status.Pending { return Err(InvalidTransition); }
      if offer.expiresAt != 0 && now >= offer.expiresAt { return Err(OfferExpired); }
      if offer.lender in registry.blacklist { return Err(Blacklisted); }
      if invoice.originator in registry.blacklist { return Err(Blacklisted); }
      r := SettleAcceptance(o, now);
    }

    /** An agreement that cannot be settled undoes the round that led to it. */
    method AmendOffer(o: Symbol, lender: Address, expected: nat, terms: Terms, now: Timestamp) returns (r: Result<()>)
      modifies this, registry, token
      ensures Commits(old(State()), r, Amend(old(State()), o, lender, expected, terms, now))
    {
      hide Live, WithRound, Execute;
      if lender in registry.blacklist { return Err(Blacklisted); }
      if !ValidTerms(terms) { return Err(InvalidInput); }
      if o !in offers { return Err(NotFound); }
      var offer := offers[o];
      if offer.lender != lender { return Err(Unauthorized); }
      var history := Negotiable(Own(), o, expected, now);
      if history.Err? { return Err(history.error); }
      var counter := LastProposalBy(history.value, Originator);
      var offersBefore, talksBefore, statsBefore := offers, talks, stats;
      var st := GetOr(stats, lender, NO_STATS);
      stats := stats[lender := st.(offered := st.offered + terms.amount - offer.terms.amount)];
      offers := offers[o := offer.(terms := terms)];
      RecordRound(o, Lender, terms, now);
      assert State() == Market(Amended(old(Own()), o, terms, now), old(registry.State()), old(token.wallets)) by {
        RoundIgnoresTerms(old(Own()), offers, stats, o, terms, now);
      }
      if counter == Some(terms) {
        r := ExecuteAgreement(o, now);
        if r.Err? {
          offers, talks, stats := offersBefore, talksBefore, statsBefore;
        }
        return;
      }
      return Ok(());
    }

    method CounterOffer(o: Symbol, originator: Address, expected: nat, terms: Terms, now: Timestamp)
        returns (r: Result<()>)
      modifies this, registry, token
      ensures Commits(old(State()), r, Counter(old(State()), o, originator, expected, terms, now))
    {
      hide WithRound, Execute;
      if originator in registry.blacklist { return Err(Blacklisted); }
      if !ValidTerms(terms) { return Err(InvalidInput); }
      if o !in offers { return Err(NotFound); }
      var offer := offers[o];
      if offer.invoice !in registry.invoices { return Err(NotFound); }
      if registry.invoices[offer.invoice].originator != originator { return Err(Unauthorized); }
      var history := Negotiable(Own(), o, expected, now);
      if history.Err? { return Err(history.error); }
      var talksBefore := talks;
      RecordRound(o, Originator, terms, now);
      if terms == offer.terms {
        r := ExecuteAgreement(o, now);
        if r.Err? {
          talks := talksBefore;
        }
        return;
      }
      return Ok(());
    }

    method CloseNegotiation(o: Symbol, caller: Address, now: Timestamp) returns (r: Result<TalkStatus>)
      modifies this
      ensures match CloseTalk(old(State()), o, caller, now)
              case Ok((s, outcome)) => State() == s && r == Ok(outcome)
              case Err(e) => State() == old(State()) && r == Err(e)
    {
      if o in talks.outcomes { return Err(InvalidTransition); }
      var outcome := TalkOf(Own(), o, now);
      if outcome == Unopened { return Err(NotFound); }
      if outcome == Closed || outcome == Agreed { return Err(InvalidTransition); }
      if outcome == Open {
        var offer := offers[o];
        if caller != offer.lender {
          if offer.invoice !in registry.invoices { return Err(NotFound); }
          if caller != registry.invoices[offer.invoice].originator { return Err(Unauthorized); }
        }
        outcome := Closed;
      }
      talks := talks.(outcomes := talks.outcomes[o := outcome]);
      closings := closings + [Closing(o, outcome)];
      return Ok(outcome);
    }

    method SetNegotiationWindow(secs: nat) returns (r: Result<()>)
      modifies this
      ensures MIN_WINDOW <= secs <= MAX_WINDOW ==> r == Ok(()) && Own() == old(Own()).(window := secs)
      ensures !(MIN_WINDOW <= secs <= MAX_WINDOW) ==> r == Err(InvalidInput) && Own() == old(Own())
    {
      if !(MIN_WINDOW <= secs <= MAX_WINDOW) { return Err(InvalidInput); }
      window := secs;
      return Ok(());
    }

    // ----- callbacks from the repayment contract -----

    method UpdateOfferStatus(o: Symbol, status: OfferStatus) returns (r: Result<()>)
      modifies this
      ensures match SetStatus(old(Own()), o, status)
              case Ok(f) => Own() == f && r == Ok(())
              case Err(e) => Own() == old(Own()) && r == Err(e)
    {
      if o !in offers { return Err(NotFound); }
      offers := offers[o := offers[o].(status := status)];
      return Ok(());
    }

    method UpdateOfferAmountRepaid(o: Symbol, amountRepaid: int) returns (r: Result<()>)
      modifies this
      ensures match SetAmountRepaid(old(Own()), o, amountRepaid)
              case Ok(f) => Own() == f && r == Ok(())
              case Err(e) => Own() == old(Own()) && r == Err(e)
    {
      if o !in offers { return Err(NotFound); }
      offers := offers[o := offers[o].(amountRepaid := amountRepaid)];
      return Ok(());
    }

    method UpdateLenderStatsRepaid(lender: Address, fullyRepaid: bool)
      modifies this
      ensures Own() == CountRepaid(old(Own()), lender, fullyRepaid)
    {
      var st := GetOr(stats, lender, NO_STATS);
      if fullyRepaid {
        st := st.(repaid := st.repaid + 1);
      }
      stats := stats[lender := st];
    }
  }
}
