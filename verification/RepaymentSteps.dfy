/** The repayment contract's entry points as atomic steps over every contract they touch. */
module RepaymentSteps {
  import opened Base
  import opened Loans
  import Status
  import Registry = RegistrySteps
  import opened FinancingSteps
  import InsuranceSteps
  import Decay
  import Reputation

  const REPAYMENT: Address := 3

  /** Penalty and fee settings, and which optional contracts are configured. */
  datatype Config = Config(penaltyBps: nat, capBps: nat, feeBps: nat, feeRecipient: Address, insured: bool, rated: bool)

  datatype Protocol = Protocol(
    market: Market,
    pays: map<Symbol, seq<Payment>>,
    ins: InsuranceSteps.Insurance,
    rep: map<Address, Decay.Record>)

  function PaysOf(s: Protocol, invoice: Symbol): seq<Payment> { GetOr(s.pays, invoice, []) }

  // ----- what is owed -----

  function Remaining(offer: Offer, pays: seq<Payment>): int { Max(offer.terms.amount - Principal(Counted(pays)), 0) }

  /** Interest always runs from the day the loan was funded, on what remains of the principal now. */
  function Interest(offer: Offer, remaining: int, now: Timestamp): int
    requires now >= offer.fundedAt
  {
    ProRataInterest(remaining, offer.terms.rate, (now - offer.fundedAt) / SECS_PER_DAY)
  }

  function Penalty(cfg: Config, offer: Offer, due: Timestamp, now: Timestamp): int {
    AccruedPenalty(offer.terms.amount + FlatYield(offer.terms.amount, offer.terms.rate), due, cfg.penaltyBps,
                   cfg.capBps, now)
  }

  function Owed(cfg: Config, offer: Offer, pays: seq<Payment>, due: Timestamp, now: Timestamp): int
    requires now >= offer.fundedAt
  {
    Remaining(offer, pays) + Interest(offer, Remaining(offer, pays), now) + Penalty(cfg, offer, due, now)
  }

  function CalculateTotalDue(s: Protocol, cfg: Config, o: Symbol, now: Timestamp): Result<int> {
    if o !in s.market.fin.offers then Err(NotFound)
    else
      var offer := s.market.fin.offers[o];
      if offer.status == Repaid || offer.status == Defaulted then Ok(0)
      else if now < offer.fundedAt then Err(Trap)
      else
        match InvoiceOf(s.market, offer)
        case Err(e) => Err(e)
        case Ok(inv) => Ok(Max(Owed(cfg, offer, PaysOf(s, offer.invoice), inv.due, now), 0))
  }

  // ----- repayment -----

  function MinPartial(offer: Offer): int { TruncDiv(offer.terms.amount * MIN_PARTIAL_BPS, BPS) }

  /** Interest is covered before principal. */
  function Recorded(offer: Offer, pays: seq<Payment>, payer: Address, amount: int, now: Timestamp): Payment
    requires now >= offer.fundedAt
  {
    var interest := Min(amount, Interest(offer, Remaining(offer, pays), now));
    Payment(|pays| + 1, amount, interest, amount - interest, now, payer)
  }

  function Fee(cfg: Config, amount: int): int { TruncDiv(amount * cfg.feeBps, BPS) }

  /** The lender gets the payment less the protocol's fee. */
  function Paid(wallets: map<Address, int>, cfg: Config, payer: Address, lender: Address,
                amount: int): Option<map<Address, int>> {
    var fee := Fee(cfg, amount);
    match InsuranceSteps.Transfer(wallets, payer, lender, amount - fee)
    case None => None
    case Some(w) => if fee > 0 then InsuranceSteps.Transfer(w, payer, cfg.feeRecipient, fee) else Some(w)
  }

  /** The guards before any amount is looked at. */
  function Payable(s: Protocol, invoice: Symbol, o: Symbol, payer: Address): Result<Offer> {
    if invoice !in s.market.reg.invoices then Err(NotFound)
    else
      var inv := s.market.reg.invoices[invoice];
      if inv.originator != payer then Err(Unauthorized)
      else if inv.status != Status.Financed then Err(InvalidTransition)
      else if o !in s.market.fin.offers then Err(NotFound)
      else
        var offer := s.market.fin.offers[o];
        if offer.invoice != invoice then Err(InvalidInput)
        else if offer.status != Accepted && offer.status != Financed then Err(InvalidTransition)
        else Ok(offer)
  }

  /** The guards on the amount. */
  function AmountError(cfg: Config, offer: Offer, pays: seq<Payment>, due: Timestamp, amount: int,
                       now: Timestamp): Option<Error> {
    if amount <= 0 then Some(Trap)
    else if Remaining(offer, pays) <= 0 then Some(InvalidTransition)
    else if now < offer.fundedAt then Some(Trap)
    else
      var owed := Owed(cfg, offer, pays, due, now);
      if amount < MinPartial(offer) && amount < owed then Some(InvalidInput)
      else if amount > owed then Some(InsufficientBalance)
      else None
  }

  function Outcome(s: Protocol, cfg: Config, originator: Address, outcome: nat, now: Timestamp)
    : map<Address, Decay.Record>
  {
    if !cfg.rated then s.rep
    else s.rep[originator := Reputation.WithOutcome(Reputation.RecordOf(s.rep, originator), outcome, now)]
  }

  function Repay(s: Protocol, cfg: Config, invoice: Symbol, o: Symbol, payer: Address, amount: int,
                 now: Timestamp): Result<Protocol> {
    match Payable(s, invoice, o, payer)
    case Err(e) => Err(e)
    case Ok(offer) =>
      var pays, due := PaysOf(s, invoice), s.market.reg.invoices[invoice].due;
      match AmountError(cfg, offer, pays, due, amount, now)
      case Some(e) => Err(e)
      case None =>
        match Paid(s.market.wallets, cfg, payer, offer.lender, amount)
        case None => Err(Trap)
        case Some(w) =>
          var p := Recorded(offer, pays, payer, amount, now);
          var full := Remaining(offer, pays) - p.principal <= 0;
          match Registry.MarkRepaid(s.market.reg, invoice, REPAYMENT, full, now)
          case Err(e) => Err(e)
          case Ok(reg) =>
            Ok(Protocol(
                 Market(Reported(s.market.fin, o, offer.amountRepaid + p.principal, full), reg, w),
                 s.pays[invoice := pays + [p]],
                 s.ins,
                 if full then Outcome(s, cfg, payer, Reputation.OUTCOME_REPAID, now) else s.rep))
  }

  // ----- default -----

  /** The insured claim: principal and flat yield, less the principal repaid; no penalty. */
  function Exposure(offer: Offer): int {
    Max(offer.terms.amount + FlatYield(offer.terms.amount, offer.terms.rate) - offer.amountRepaid, 0)
  }

  function Reclaimable(s: Protocol, invoice: Symbol, o: Symbol, lender: Address, now: Timestamp): Result<Offer> {
    if invoice !in s.market.reg.invoices then Err(NotFound)
    else
      var inv := s.market.reg.invoices[invoice];
      if inv.status != Status.Overdue || now < inv.due + GRACE_PERIOD then Err(InvalidTransition)
      else if o !in s.market.fin.offers then Err(NotFound)
      else
        var offer := s.market.fin.offers[o];
        if offer.invoice != invoice then Err(InvalidInput)
        else if offer.lender != lender then Err(Unauthorized)
        else if offer.status != Accepted && offer.status != Financed then Err(InvalidTransition)
        else Ok(offer)
  }

  ghost function Insure(s: Protocol, cfg: Config, defaulted: bool,
                        offer: Offer): Result<(InsuranceSteps.Insurance, int)> {
    if !cfg.insured then Ok((s.ins, 0)) else InsuranceSteps.PayOut(s.ins, defaulted, offer.lender, Exposure(offer))
  }

  /** The lender writes the loan off: offer and invoice default together, the pool covers the lender,
      and the originator's record takes the loss. Returns the insurance payout. */
  ghost function Reclaim(s: Protocol, cfg: Config, invoice: Symbol, o: Symbol, lender: Address,
                         now: Timestamp): Result<(Protocol, int)> {
    match Reclaimable(s, invoice, o, lender, now)
    case Err(e) => Err(e)
    case Ok(offer) =>
      match Registry.MarkDefaulted(s.market.reg, invoice, REPAYMENT, now)
      case Err(e) => Err(e)
      case Ok(reg) =>
        match Insure(s, cfg, reg.invoices[invoice].status == Status.Defaulted, offer)
        case Err(e) => Err(e)
        case Ok((ins, payout)) =>
          Ok((Protocol(
                s.market.(fin := s.market.fin.(offers := s.market.fin.offers[o := offer.(status := Defaulted)]),
                          reg := reg),
                s.pays,
                ins,
                Outcome(s, cfg, s.market.reg.invoices[invoice].originator, Reputation.OUTCOME_DEFAULTED, now)),
              payout))
  }
}
