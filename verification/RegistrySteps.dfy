/** The registry's invoices, their transition logs, their tokens and the originator index; each entry
    point specified as an atomic step. */
module RegistrySteps {
  import opened Base
  import opened Ledger
  import opened Status
  import opened SortedIds

  const MIN_INVOICE_AMOUNT: int := 10_000_000
  const LOG_CAP: nat := 20
  const SELF: Address := 0

  datatype Invoice = Invoice(originator: Address, amount: int, currency: Symbol, due: Timestamp, status: InvoiceStatus)

  datatype Transition = Transition(from: InvoiceStatus, to: InvoiceStatus, actor: Address, timestamp: Timestamp)

  /** The token of an invoice; distinct invoices have distinct tokens. */
  datatype TokenId = TokenOf(invoice: Symbol)

  datatype Tokens = Tokens(owner: map<TokenId, Address>, approved: map<TokenId, Address>, burned: set<TokenId>,
                           minted: map<TokenId, Symbol>)

  datatype Registry = Registry(
    invoices: map<Symbol, Invoice>,
    logs: map<Symbol, seq<Transition>>,
    tokens: Tokens,
    index: Option<map<Address, seq<Symbol>>>,
    blacklist: set<Address>)

  function IndexOf(s: Registry): map<Address, seq<Symbol>> { if s.index.Some? then s.index.value else map[] }

  function IdsOf(s: Registry, a: Address): seq<Symbol> { GetOr(IndexOf(s), a, []) }

  function Indexed(s: Registry, a: Address, id: Symbol): Option<map<Address, seq<Symbol>>> {
    Some(IndexOf(s)[a := Inserted(IdsOf(s, a), id)])
  }

  // ----- transitions -----

  /** The log keeps the latest entries. */
  function Logged(log: seq<Transition>, t: Transition): seq<Transition> {
    var grown := log + [t];
    if |grown| > LOG_CAP then grown[1..] else grown
  }

  function Burned(tokens: Tokens, id: Symbol): Tokens {
    var t := TokenOf(id);
    if t in tokens.burned || t !in tokens.owner then tokens
    else tokens.(owner := tokens.owner - {t}, approved := tokens.approved - {t}, burned := tokens.burned + {t})
  }

  /** Every status change goes through here: checked against the state machine, logged, and a terminal
      status burns the token. */
  function Move(s: Registry, id: Symbol, to: InvoiceStatus, actor: Address, now: Timestamp): Result<Registry> {
    if id !in s.invoices then Err(NotFound)
    else
      var inv := s.invoices[id];
      if !Allowed(inv.status, to) then Err(InvalidTransition)
      else
        Ok(s.(invoices := s.invoices[id := inv.(status := to)],
              logs := s.logs[id := Logged(GetOr(s.logs, id, []), Transition(inv.status, to, actor, now))],
              tokens := if Terminal(to) then Burned(s.tokens, id) else s.tokens))
  }

  function OwnedBy(s: Registry, id: Symbol, caller: Address): Result<Invoice> {
    if id !in s.invoices then Err(NotFound)
    else if s.invoices[id].originator != caller then Err(Unauthorized)
    else Ok(s.invoices[id])
  }

  function Register(s: Registry, id: Symbol, originator: Address, amount: int, currency: Symbol, due: Timestamp,
                    now: Timestamp)
    : Result<Registry>
  {
    if originator in s.blacklist then Err(Blacklisted)
    else if amount < MIN_INVOICE_AMOUNT || due <= now then Err(InvalidInput)
    else if id in s.invoices then Err(AlreadyExists)
    else
      var t := TokenOf(id);
      Ok(s.(invoices := s.invoices[id := Invoice(originator, amount, currency, due, Pending)],
            index := Indexed(s, originator, id),
            tokens := s.tokens.(owner := s.tokens.owner[t := originator], minted := s.tokens.minted[t := id])))
  }

  /** Any edge of the state machine, not only the cancellation of a pending invoice. */
  function UpdateStatus(s: Registry, id: Symbol, caller: Address, to: InvoiceStatus, now: Timestamp): Result<Registry> {
    match OwnedBy(s, id, caller)
    case Err(e) => Err(e)
    case Ok(_) => Move(s, id, to, caller, now)
  }

  function UpdateAmount(s: Registry, id: Symbol, caller: Address, amount: int): Result<Registry> {
    match OwnedBy(s, id, caller)
    case Err(e) => Err(e)
    case Ok(inv) =>
      if inv.status != Pending then Err(InvalidTransition)
      else if amount < MIN_INVOICE_AMOUNT then Err(InvalidInput)
      else Ok(s.(invoices := s.invoices[id := inv.(amount := amount)]))
  }

  function Cancel(s: Registry, id: Symbol, caller: Address, now: Timestamp): Result<Registry> {
    UpdateStatus(s, id, caller, Cancelled, now)
  }

  /** A repayment, reported by a repayer or by the repayment contract. */
  function MarkRepaid(s: Registry, id: Symbol, actor: Address, full: bool, now: Timestamp): Result<Registry> {
    Move(s, id, if full then Repaid else Financed, actor, now)
  }

  function MarkFinanced(s: Registry, id: Symbol, financing: Address, now: Timestamp): Result<Registry> {
    Move(s, id, Financed, financing, now)
  }

  function MarkDefaulted(s: Registry, id: Symbol, repayment: Address, now: Timestamp): Result<Registry> {
    Move(s, id, Defaulted, repayment, now)
  }

  function MarkOverdue(s: Registry, id: Symbol, now: Timestamp): Result<Registry> {
    if id !in s.invoices then Err(NotFound)
    else if now <= s.invoices[id].due then Err(InvalidTransition)
    else Move(s, id, Overdue, SELF, now)
  }

  function RaiseDispute(s: Registry, id: Symbol, caller: Address, now: Timestamp): Result<Registry> {
    UpdateStatus(s, id, caller, Disputed, now)
  }

  function ResolveDispute(s: Registry, id: Symbol, admin: Address, to: InvoiceStatus,
                          now: Timestamp): Result<Registry> {
    if id !in s.invoices then Err(NotFound)
    else if to == Disputed then Err(InvalidInput)
    else Move(s, id, to, admin, now)
  }

  // ----- tokens -----

  /** The live owner of a token. */
  function LiveOwner(s: Registry, t: TokenId): Result<Address> {
    if t in s.tokens.burned then Err(InvalidTransition)
    else if t !in s.tokens.owner then Err(NotFound)
    else Ok(s.tokens.owner[t])
  }

  function SetApproval(s: Registry, owner: Address, approved: Option<Address>, t: TokenId): Result<Registry> {
    match LiveOwner(s, t)
    case Err(e) => Err(e)
    case Ok(current) =>
      if current != owner then Err(Unauthorized)
      else if approved.Some? && approved.value in s.blacklist then Err(Blacklisted)
      else Ok(s.(tokens :=
                 s.tokens.(approved := if approved.Some? then s.tokens.approved[t := approved.value]
                                       else s.tokens.approved - {t})))
  }

  function Execute(s: Registry, from: Address, to: Address, t: TokenId): Result<Registry> {
    if from in s.blacklist || to in s.blacklist then Err(Blacklisted)
    else if from == to then Err(InvalidInput)
    else
      match LiveOwner(s, t)
      case Err(e) => Err(e)
      case Ok(current) =>
        if current != from then Err(Unauthorized)
        else if t !in s.tokens.minted then Err(NotFound)
        else
          var id := s.tokens.minted[t];
          var moved := s.(tokens := s.tokens.(owner := s.tokens.owner[t := to], approved := s.tokens.approved - {t}));
          Ok(if id in s.invoices then
               moved.(invoices := s.invoices[id := s.invoices[id].(originator := to)], index := Indexed(s, to, id))
             else moved)
  }

  /** Called by the owner, or by the approved delegate on the owner's behalf. */
  function Transfer(s: Registry, from: Address, to: Address, t: TokenId): Result<Registry> {
    match LiveOwner(s, t)
    case Err(e) => Err(e)
    case Ok(current) =>
      Execute(s, if t in s.tokens.approved && s.tokens.approved[t] == from then current else from, to, t)
  }

  function TransferFrom(s: Registry, spender: Address, from: Address, to: Address, t: TokenId): Result<Registry> {
    match LiveOwner(s, t)
    case Err(e) => Err(e)
    case Ok(current) =>
      if current != from then Err(Unauthorized)
      else if !(t in s.tokens.approved && s.tokens.approved[t] == spender) && current != spender then Err(Unauthorized)
      else Execute(s, from, to, t)
  }

  // ----- the index rebuilt from scratch -----

  function Rebuilt(invoices: map<Symbol, Invoice>, keys: seq<Symbol>): map<Address, seq<Symbol>>
    requires forall k :: k in keys ==> k in invoices
  {
    if keys == [] then map[]
    else
      var index := Rebuilt(invoices, keys[..|keys| - 1]);
      var id := keys[|keys| - 1];
      var a := invoices[id].originator;
      index[a := Inserted(GetOr(index, a, []), id)]
  }

  /** A one-time rebuild for deployments that pre-date the index. */
  function Backfill(s: Registry): Registry {
    if s.index.Some? || s.invoices == map[] then s
    else s.(index := Some(Rebuilt(s.invoices, SortedKeys(s.invoices.Keys))))
  }

  function Empty(blacklist: set<Address>): Registry {
    Registry(map[], map[], Tokens(map[], map[], {}, map[]), None, blacklist)
  }
}
