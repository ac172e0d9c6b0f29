/** Who may do what to an invoice and its token, and when. */
module RegistryAuthority {
  import opened Base
  import opened Status
  import opened RegistrySteps
  import Runs = RegistryRuns

  /** The account that signs a call, where one does; dispute resolution is the administrators'. */
  ghost function Caller(op: Runs.Op): Option<Address> {
    match op
    case DoRegister(_, a, _, _, _) => Some(a)
    case DoUpdateStatus(_, a, _) => Some(a)
    case DoUpdateAmount(_, a, _) => Some(a)
    case DoCancel(_, a) => Some(a)
    case DoMarkRepaid(_, a, _) => Some(a)
    case DoRaiseDispute(_, a) => Some(a)
    case DoSetApproval(a, _, _) => Some(a)
    case DoTransfer(from, _, _) => Some(from)
    case DoTransferFrom(spender, _, _, _) => Some(spender)
    case _ => None
  }

  // ----- statuses -----

  /** The twelve edges along which an invoice can move. */
  const EDGES: set<(InvoiceStatus, InvoiceStatus)> :=
    {(Pending, Cancelled), (Pending, Financed),
     (Financed, Repaid), (Financed, Financed), (Financed, Overdue), (Financed, Disputed),
     (Overdue, Defaulted),
     (Disputed, Pending), (Disputed, Financed), (Disputed, Repaid), (Disputed, Cancelled), (Disputed, Defaulted)}

  /** What a call needs besides a legal edge: the originator for its own calls, the due date behind it for
      marking overdue, another target than Disputed for a resolution; repayments can be reported by
      anybody. */
  ghost predicate MayChange(s: Registry, op: Runs.Op, id: Symbol, now: Timestamp)
    requires id in s.invoices
  {
    match op
    case DoUpdateStatus(_, a, _) => a == s.invoices[id].originator
    case DoCancel(_, a) => a == s.invoices[id].originator
    case DoRaiseDispute(_, a) => a == s.invoices[id].originator
    case DoMarkOverdue(_) => now > s.invoices[id].due
    case DoResolveDispute(_, _, to) => to != Disputed
    case _ => true
  }

  /** A status change commits if and only if it moves a known invoice along one of the twelve edges and the
      call may ask for it; the invoice then has the status asked for, and nothing else about it moves. */
  lemma ChangeCommitsIff(s: Registry, op: Runs.Op, now: Timestamp)
    requires Runs.ChangeOf(op).Some?
    ensures var c := Runs.ChangeOf(op).value; var r := Runs.Apply(s, op, now);
            && (r.Ok? <==>
                  c.id in s.invoices && (s.invoices[c.id].status, c.to) in EDGES && MayChange(s, op, c.id, now))
            && (r.Ok? ==>
                  && r.value.invoices == s.invoices[c.id := s.invoices[c.id].(status := c.to)]
                  && r.value.index == s.index && r.value.blacklist == s.blacklist)
  {
  }

  /** Whatever changes about a registered invoice changes for a reason: its amount only while it is pending
      and by its originator, to at least ten million; its status only along the twelve edges, by the
      originator, past the due date, by a reported repayment, or by the administrators or the other
      contracts; its due date and currency never. A new invoice is its caller's own, who is in good standing,
      pending, due later, and worth at least ten million. */
  lemma InvoicesChangeForAReason(s: Registry, op: Runs.Op, now: Timestamp, id: Symbol)
    requires Runs.TokensOk(s) && Runs.Apply(s, op, now).Ok?
    ensures var t := Runs.Apply(s, op, now).value;
            && (id in s.invoices ==>
                  && id in t.invoices
                  && var (a, b) := (s.invoices[id], t.invoices[id]);
                     && b.due == a.due && b.currency == a.currency
                     && (b.amount != a.amount ==>
                           Caller(op) == Some(a.originator) && a.status == Pending && b.amount >= 10_000_000)
                     && (b.status != a.status ==>
                           && (a.status, b.status) in EDGES
                           && (|| Caller(op) == Some(a.originator)
                               || (b.status == Overdue && now > a.due)
                               || op.DoMarkRepaid? || op.DoResolveDispute? || op.DoMarkFinanced?
                                  || op.DoMarkDefaulted?)))
            && (id !in s.invoices && id in t.invoices ==>
                  var b := t.invoices[id];
                  && Caller(op) == Some(b.originator) && b.originator !in s.blacklist
                  && b.status == Pending && b.amount >= 10_000_000 && b.due > now)
  {
    if Runs.ChangeOf(op).Some? {
      ChangeCommitsIff(s, op, now);
      hide Runs.Apply, Runs.TokensOk, EDGES;
    } else {
      OtherCalls(s, op, now, id);
      hide Runs.Apply, Runs.TokensOk, EDGES;
    }
  }

  lemma OtherCalls(s: Registry, op: Runs.Op, now: Timestamp, id: Symbol)
    requires Runs.TokensOk(s) && Runs.ChangeOf(op).None? && Runs.Apply(s, op, now).Ok?
    ensures var t := Runs.Apply(s, op, now).value;
            && (id in s.invoices ==>
                  && id in t.invoices
                  && var (a, b) := (s.invoices[id], t.invoices[id]);
                     && b.due == a.due && b.currency == a.currency && b.status == a.status
                     && (b.amount != a.amount ==>
                           Caller(op) == Some(a.originator) && a.status == Pending && b.amount >= 10_000_000))
            && (id !in s.invoices && id in t.invoices ==>
                  var b := t.invoices[id];
                  && Caller(op) == Some(b.originator) && b.originator !in s.blacklist
                  && b.status == Pending && b.amount >= 10_000_000 && b.due > now)
  {
  }

  /** A registration goes through exactly for a new id by an account in good standing, of at least ten
      million, due later; an amount update exactly by the originator of a pending invoice, to at least ten
      million. Both set what they say. */
  lemma EntriesCommitIff(s: Registry, id: Symbol, a: Address, amount: int, currency: Symbol, due: Timestamp,
                         now: Timestamp)
    ensures var r := Register(s, id, a, amount, currency, due, now);
            && (r.Ok? <==> a !in s.blacklist && amount >= 10_000_000 && due > now && id !in s.invoices)
            && (r.Ok? ==> r.value.invoices == s.invoices[id := Invoice(a, amount, currency, due, Pending)])
    ensures var r := UpdateAmount(s, id, a, amount);
            && (r.Ok? <==>
                  && id in s.invoices && s.invoices[id].originator == a && s.invoices[id].status == Pending
                  && amount >= 10_000_000)
            && (r.Ok? ==> r.value == s.(invoices := s.invoices[id := s.invoices[id].(amount := amount)]))
  {
  }

  // ----- tokens -----

  /** May move a token of this owner: the owner itself, or the account approved for it. */
  ghost predicate MayMove(s: Registry, t: TokenId, who: Address) {
    t in s.tokens.owner && (who == s.tokens.owner[t] || (t in s.tokens.approved && s.tokens.approved[t] == who))
  }

  /** A live token that changes hands does so by a call of its owner or of the account its owner had
      approved, between accounts in good standing, and starts without an approval. Its invoice's originator
      changes with it, and never otherwise. */
  lemma TokensMoveByRight(s: Registry, op: Runs.Op, now: Timestamp, id: Symbol)
    requires Runs.TokensOk(s) && Runs.Apply(s, op, now).Ok?
    ensures var s' := Runs.Apply(s, op, now).value; var t := TokenOf(id);
            && (t in s.tokens.owner && t in s'.tokens.owner && s'.tokens.owner[t] != s.tokens.owner[t] ==>
                  && Caller(op).Some? && MayMove(s, t, Caller(op).value)
                  && s.tokens.owner[t] !in s.blacklist && s'.tokens.owner[t] !in s.blacklist
                  && t !in s'.tokens.approved
                  && id in s'.invoices && s'.invoices[id].originator == s'.tokens.owner[t])
            && (id in s.invoices && id in s'.invoices && s'.invoices[id].originator != s.invoices[id].originator ==>
                  t in s.tokens.owner && t in s'.tokens.owner && s'.tokens.owner[t] != s.tokens.owner[t])
            && (t in s'.tokens.approved
                && (t !in s.tokens.approved || s.tokens.approved[t] != s'.tokens.approved[t]) ==>
                  && t in s.tokens.owner && Caller(op) == Some(s.tokens.owner[t])
                  && s'.tokens.approved[t] !in s.blacklist)
  {
    if Runs.ChangeOf(op).Some? {
      ChangesKeepHands(s, op, now, id);
      hide Runs.Apply, Runs.TokensOk;
    } else {
      TokenCalls(s, op, now, id);
      hide Runs.Apply, Runs.TokensOk;
    }
  }

  /** A status change can burn a token; it never moves one. */
  lemma ChangesKeepHands(s: Registry, op: Runs.Op, now: Timestamp, id: Symbol)
    requires Runs.TokensOk(s) && Runs.ChangeOf(op).Some? && Runs.Apply(s, op, now).Ok?
    ensures var s' := Runs.Apply(s, op, now).value; var t := TokenOf(id);
            && (t in s'.tokens.owner ==> t in s.tokens.owner && s'.tokens.owner[t] == s.tokens.owner[t])
            && (t in s'.tokens.approved ==>
                  && t in s.tokens.approved && s'.tokens.approved[t] == s.tokens.approved[t]
                  && t in s'.tokens.owner)
            && (id in s.invoices && id in s'.invoices ==> s'.invoices[id].originator == s.invoices[id].originator)
  {
    Runs.ChangesMove(s, op, now);
    assert Runs.TokenOk(s, id);
    hide Runs.Apply, Runs.TokensOk;
  }

  lemma TokenCalls(s: Registry, op: Runs.Op, now: Timestamp, id: Symbol)
    requires Runs.TokensOk(s) && Runs.ChangeOf(op).None? && Runs.Apply(s, op, now).Ok?
    ensures var s' := Runs.Apply(s, op, now).value; var t := TokenOf(id);
            && (t in s.tokens.owner && t in s'.tokens.owner && s'.tokens.owner[t] != s.tokens.owner[t] ==>
                  && Caller(op).Some? && MayMove(s, t, Caller(op).value)
                  && s.tokens.owner[t] !in s.blacklist && s'.tokens.owner[t] !in s.blacklist
                  && t !in s'.tokens.approved
                  && id in s'.invoices && s'.invoices[id].originator == s'.tokens.owner[t])
            && (id in s.invoices && id in s'.invoices && s'.invoices[id].originator != s.invoices[id].originator ==>
                  t in s.tokens.owner && t in s'.tokens.owner && s'.tokens.owner[t] != s.tokens.owner[t])
            && (t in s'.tokens.approved
                && (t !in s.tokens.approved || s.tokens.approved[t] != s'.tokens.approved[t]) ==>
                  && Grants(s, op, t) && s'.tokens.approved[t] == op.approved.value
                  && s'.tokens.approved[t] !in s.blacklist)
            && (t in s'.tokens.approved ==> t in s'.tokens.owner && !ChangesHands(s, s', t))
  {
    assert Runs.TokenOk(s, id);
    match op
    case DoTransfer(_, _, u) => assert Runs.TokenOk(s, u.invoice) && u == TokenOf(u.invoice);
    case DoTransferFrom(_, _, _, u) => assert Runs.TokenOk(s, u.invoice) && u == TokenOf(u.invoice);
    case DoSetApproval(_, _, u) => assert Runs.TokenOk(s, u.invoice) && u == TokenOf(u.invoice);
    case _ =>
  }

  /** A transfer goes through exactly when its caller may move the token, the receiver is somebody else, and
      both are in good standing; a transfer on another's behalf, exactly when moreover that other is the
      owner; an approval, exactly when the owner asks and the delegate is in good standing. */
  lemma TokenCallsCommitIff(s: Registry, caller: Address, from: Address, to: Address, delegate: Option<Address>,
                            id: Symbol)
    requires Runs.TokenOk(s, id)
    ensures var t := TokenOf(id); var r := Transfer(s, caller, to, t);
            && (r.Ok? <==> MayMove(s, t, caller) && to != s.tokens.owner[t]
                           && s.tokens.owner[t] !in s.blacklist && to !in s.blacklist)
            && (r.Ok? ==> t in r.value.tokens.owner && r.value.tokens.owner[t] == to)
    ensures var t := TokenOf(id); var r := TransferFrom(s, caller, from, to, t);
            && (r.Ok? <==> MayMove(s, t, caller) && from == s.tokens.owner[t] && to != from
                           && from !in s.blacklist && to !in s.blacklist)
            && (r.Ok? ==> t in r.value.tokens.owner && r.value.tokens.owner[t] == to)
    ensures var t := TokenOf(id); var r := SetApproval(s, caller, delegate, t);
            && (r.Ok? <==> t in s.tokens.owner && caller == s.tokens.owner[t]
                           && (delegate.Some? ==> delegate.value !in s.blacklist))
            && (r.Ok? ==>
                  && (t in r.value.tokens.approved <==> delegate.Some?)
                  && (delegate.Some? ==> r.value.tokens.approved[t] == delegate.value)
                  && r.value.tokens.owner == s.tokens.owner)
  {
  }

  // ----- refusals -----

  /** The invoice a call names, and the token, if it is a token call. */
  ghost function InvoiceOf(op: Runs.Op): Option<Symbol> {
    match op
    case DoUpdateAmount(id, _, _) => Some(id)
    case _ => if Runs.ChangeOf(op).Some? then Some(Runs.ChangeOf(op).value.id) else None
  }

  ghost function TokenIn(op: Runs.Op): Option<TokenId> {
    match op
    case DoSetApproval(_, _, t) => Some(t)
    case DoTransfer(_, _, t) => Some(t)
    case DoTransferFrom(_, _, _, t) => Some(t)
    case _ => None
  }

  /** Somebody a call names is blacklisted: who registers, gives, receives or is approved. */
  ghost predicate NamesBlacklisted(s: Registry, op: Runs.Op) {
    match op
    case DoRegister(_, a, _, _, _) => a in s.blacklist
    case DoSetApproval(_, approved, _) => approved.Some? && approved.value in s.blacklist
    case DoTransfer(from, to, t) =>
      from in s.blacklist || to in s.blacklist || (t in s.tokens.owner && s.tokens.owner[t] in s.blacklist)
    case DoTransferFrom(_, from, to, _) => from in s.blacklist || to in s.blacklist
    case _ => false
  }

  /** A refused call is told why, truthfully: something is missing; somebody else's; not possible in its
      present state; out of limits; blacklisted; or there already. */
  lemma RefusalsTell(s: Registry, op: Runs.Op, now: Timestamp)
    requires Runs.Apply(s, op, now).Err?
    ensures match Runs.Apply(s, op, now).error
            case NotFound =>
              || (InvoiceOf(op).Some? && InvoiceOf(op).value !in s.invoices)
              || (TokenIn(op).Some? && (TokenIn(op).value !in s.tokens.owner || TokenIn(op).value !in s.tokens.minted))
            case Unauthorized =>
              || (InvoiceOf(op).Some? && InvoiceOf(op).value in s.invoices
                  && Caller(op) != Some(s.invoices[InvoiceOf(op).value].originator))
              || (TokenIn(op).Some? && TokenIn(op).value in s.tokens.owner
                  && (|| Caller(op) != Some(s.tokens.owner[TokenIn(op).value])
                      || (op.DoTransferFrom? && op.from != s.tokens.owner[op.t])))
            case InvalidTransition =>
              || (op.DoUpdateAmount? && op.id in s.invoices && s.invoices[op.id].status != Pending)
              || (Runs.ChangeOf(op).Some? && InvoiceOf(op).value in s.invoices
                  && (|| (s.invoices[InvoiceOf(op).value].status, Runs.ChangeOf(op).value.to) !in EDGES
                      || (op.DoMarkOverdue? && now <= s.invoices[op.id].due)))
              || (TokenIn(op).Some? && TokenIn(op).value in s.tokens.burned)
            case InvalidInput =>
              || (op.DoRegister? && (op.amount < 10_000_000 || op.due <= now))
              || (op.DoUpdateAmount? && op.amount < 10_000_000)
              || (op.DoResolveDispute? && op.to == Disputed)
              || ((op.DoTransfer? || op.DoTransferFrom?) && op.t in s.tokens.owner
                  && (op.receiver == op.from || op.receiver == s.tokens.owner[op.t]))
            case Blacklisted => NamesBlacklisted(s, op)
            case AlreadyExists => op.DoRegister? && op.id in s.invoices
            case _ => false
  {
  }

  // ----- on runs -----

  /** The registry with the accounts that each token's owner approved since it acquired it. */
  datatype Granting = Granting(w: Runs.World, grants: map<TokenId, set<Address>>)

  ghost function Granted(g: Granting, t: TokenId): set<Address> { GetOr(g.grants, t, {}) }

  /** The token that changes hands by a call, or comes into being. */
  ghost predicate ChangesHands(s: Registry, s': Registry, t: TokenId) {
    t in s'.tokens.owner && (t !in s.tokens.owner || s'.tokens.owner[t] != s.tokens.owner[t])
  }

  /** A call by which the owner of a token approves an account. */
  ghost predicate Grants(s: Registry, op: Runs.Op, t: TokenId) {
    op.DoSetApproval? && op.t == t && op.approved.Some? && t in s.tokens.owner && op.owner == s.tokens.owner[t]
  }

  ghost function Step(g: Granting, op: Runs.Op): Granting {
    var v := Runs.Step(g.w, op);
    Granting(v, map t | t in g.grants.Keys + v.reg.tokens.owner.Keys ::
                  if ChangesHands(g.w.reg, v.reg, t) then {}
                  else Granted(g, t) + if Grants(g.w.reg, op, t) then {op.approved.value} else {})
  }

  ghost function Run(g: Granting, ops: seq<Runs.Op>): Granting
    decreases |ops|
  {
    if ops == [] then g else Run(Step(g, ops[0]), ops[1..])
  }

  /** Whoever is approved for a live token was approved by its owner. */
  ghost predicate ApprovedByOwner(g: Granting, id: Symbol) {
    var t := TokenOf(id);
    t in g.w.reg.tokens.approved ==> t in g.w.reg.tokens.owner && g.w.reg.tokens.approved[t] in Granted(g, t)
  }

  ghost predicate Inv(g: Granting) {
    Runs.TokensOk(g.w.reg) && forall id :: ApprovedByOwner(g, id)
  }

  lemma StepKeeps(g: Granting, op: Runs.Op)
    requires Inv(g)
    ensures Inv(Step(g, op))
  {
    var h := Step(g, op);
    if Runs.Apply(g.w.reg, op, g.w.now).Ok? {
      Runs.StepKeepsTokens(g.w.reg, op, g.w.now);
      forall id ensures ApprovedByOwner(h, id) {
        assert ApprovedByOwner(g, id);
        ApprovalStep(g, op, id);
      }
    } else {
      hide Runs.Apply, Runs.TokensOk;
      forall id ensures ApprovedByOwner(h, id) {
        assert ApprovedByOwner(g, id);
      }
    }
  }

  /** What a committed call does to one token's approval. */
  lemma ApprovalMoves(s: Registry, op: Runs.Op, now: Timestamp, id: Symbol)
    requires Runs.TokensOk(s) && Runs.Apply(s, op, now).Ok?
    ensures var s' := Runs.Apply(s, op, now).value; var t := TokenOf(id);
            && (t in s'.tokens.approved ==>
                  && t in s'.tokens.owner && !ChangesHands(s, s', t)
                  && (|| (t in s.tokens.approved && s'.tokens.approved[t] == s.tokens.approved[t])
                      || (Grants(s, op, t) && s'.tokens.approved[t] == op.approved.value)))
  {
    if Runs.ChangeOf(op).Some? {
      ChangesKeepHands(s, op, now, id);
      hide Runs.Apply, Runs.TokensOk;
    } else {
      TokenCalls(s, op, now, id);
      hide Runs.Apply, Runs.TokensOk;
    }
  }

  lemma ApprovalStep(g: Granting, op: Runs.Op, id: Symbol)
    requires Runs.TokensOk(g.w.reg) && ApprovedByOwner(g, id) && Runs.Apply(g.w.reg, op, g.w.now).Ok?
    ensures ApprovedByOwner(Step(g, op), id)
  {
    ApprovalMoves(g.w.reg, op, g.w.now, id);
    hide Runs.Apply, Runs.TokensOk, ChangesHands, Grants;
  }

  lemma {:induction false} RunKeeps(g: Granting, ops: seq<Runs.Op>)
    requires Inv(g)
    ensures Inv(Run(g, ops))
    decreases |ops|
  {
    hide Inv, Step;
    if ops != [] {
      StepKeeps(g, ops[0]);
      RunKeeps(Step(g, ops[0]), ops[1..]);
    }
  }

  /** On every run from deployment a token leaves its owner only by a call of that owner, or of an account
      that this owner approved itself since it last acquired the token. */
  lemma TokensLeaveByTheirOwner(blacklist: set<Address>, now: Timestamp, ops: seq<Runs.Op>, op: Runs.Op, id: Symbol)
    ensures var g := Run(Granting(Runs.World(Empty(blacklist), now, map[], map[]), map[]), ops);
            var v := Step(g, op).w.reg; var t := TokenOf(id);
            t in g.w.reg.tokens.owner && t in v.tokens.owner && v.tokens.owner[t] != g.w.reg.tokens.owner[t] ==>
              && Caller(op).Some?
              && (Caller(op).value == g.w.reg.tokens.owner[t] || Caller(op).value in Granted(g, t))
  {
    var start := Granting(Runs.World(Empty(blacklist), now, map[], map[]), map[]);
    var g := Run(start, ops);
    assert Inv(start) by { StartSound(blacklist, now); }
    RunKeeps(start, ops);
    assert ApprovedByOwner(g, id);
    hide Run, Runs.TokensOk;
    if Runs.Apply(g.w.reg, op, g.w.now).Ok? {
      TokensMoveByRight(g.w.reg, op, g.w.now, id);
    }
    hide Runs.Apply;
  }

  lemma StartSound(blacklist: set<Address>, now: Timestamp)
    ensures Inv(Granting(Runs.World(Empty(blacklist), now, map[], map[]), map[]))
  {
  }
}
