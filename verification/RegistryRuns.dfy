/** What every run of the registry keeps. */
module RegistryRuns {
  import opened Base
  import opened Ledger
  import opened Status
  import opened SortedIds
  import opened RegistrySteps

  datatype Op =
    | DoRegister(id: Symbol, originator: Address, amount: int, currency: Symbol, due: Timestamp)
    | DoUpdateStatus(id: Symbol, caller: Address, to: InvoiceStatus)
    | DoUpdateAmount(id: Symbol, caller: Address, amount: int)
    | DoCancel(id: Symbol, caller: Address)
    | DoMarkRepaid(id: Symbol, actor: Address, full: bool)
    | DoMarkFinanced(id: Symbol, financing: Address)
    | DoMarkDefaulted(id: Symbol, repayment: Address)
    | DoMarkOverdue(id: Symbol)
    | DoRaiseDispute(id: Symbol, caller: Address)
    | DoResolveDispute(id: Symbol, admin: Address, to: InvoiceStatus)
    | DoSetApproval(owner: Address, approved: Option<Address>, t: TokenId)
    | DoTransfer(from: Address, receiver: Address, t: TokenId)
    | DoTransferFrom(spender: Address, from: Address, receiver: Address, t: TokenId)
    | Tick(secs: nat)

  function Apply(s: Registry, op: Op, now: Timestamp): Result<Registry> {
    match op
    case DoRegister(id, a, amount, c, due) => Register(s, id, a, amount, c, due, now)
    case DoUpdateStatus(id, a, to) => UpdateStatus(s, id, a, to, now)
    case DoUpdateAmount(id, a, amount) => UpdateAmount(s, id, a, amount)
    case DoCancel(id, a) => Cancel(s, id, a, now)
    case DoMarkRepaid(id, a, full) => MarkRepaid(s, id, a, full, now)
    case DoMarkFinanced(id, f) => MarkFinanced(s, id, f, now)
    case DoMarkDefaulted(id, r) => MarkDefaulted(s, id, r, now)
    case DoMarkOverdue(id) => MarkOverdue(s, id, now)
    case DoRaiseDispute(id, a) => RaiseDispute(s, id, a, now)
    case DoResolveDispute(id, a, to) => ResolveDispute(s, id, a, to, now)
    case DoSetApproval(o, a, t) => SetApproval(s, o, a, t)
    case DoTransfer(f, a, t) => Transfer(s, f, a, t)
    case DoTransferFrom(sp, f, a, t) => TransferFrom(s, sp, f, a, t)
    case Tick(_) => Ok(s)
  }

  datatype Change = Change(id: Symbol, to: InvoiceStatus, actor: Address)

  /** The status change an operation asks for, if it is one. */
  function ChangeOf(op: Op): Option<Change> {
    match op
    case DoUpdateStatus(id, a, to) => Some(Change(id, to, a))
    case DoCancel(id, a) => Some(Change(id, Cancelled, a))
    case DoMarkRepaid(id, a, full) => Some(Change(id, if full then Repaid else Financed, a))
    case DoMarkFinanced(id, f) => Some(Change(id, Financed, f))
    case DoMarkDefaulted(id, r) => Some(Change(id, Defaulted, r))
    case DoMarkOverdue(id) => Some(Change(id, Overdue, SELF))
    case DoRaiseDispute(id, a) => Some(Change(id, Disputed, a))
    case DoResolveDispute(id, a, to) => Some(Change(id, to, a))
    case _ => None
  }

  /** Every status change is a checked, logged transition; the entry points only add guards. */
  lemma ChangesMove(s: Registry, op: Op, now: Timestamp)
    requires ChangeOf(op).Some? && Apply(s, op, now).Ok?
    ensures var c := ChangeOf(op).value; Apply(s, op, now) == Move(s, c.id, c.to, c.actor, now)
  {
  }

  /** Who acquires which invoice by an operation: its registration, or a token transfer. */
  function Acquires(op: Op): Option<(Address, Symbol)> {
    match op
    case DoRegister(id, a, _, _, _) => Some((a, id))
    case DoTransfer(_, a, t) => Some((a, t.invoice))
    case DoTransferFrom(_, _, a, t) => Some((a, t.invoice))
    case _ => None
  }

  /** The registry in time, with the full history of transitions and of acquisitions. */
  datatype World = World(
    reg: Registry,
    now: Timestamp,
    history: map<Symbol, seq<Transition>>,
    acquired: map<(Address, Symbol), nat>)

  function Step(w: World, op: Op): World {
    match Apply(w.reg, op, w.now)
    case Err(_) => w
    case Ok(s) =>
      World(s,
            if op.Tick? then SaturatingAdd(w.now, op.secs) else w.now,
            match ChangeOf(op)
            case None => w.history
            case Some(c) =>
              (var from := if c.id in w.reg.invoices then w.reg.invoices[c.id].status else Pending;
               w.history[c.id := GetOr(w.history, c.id, []) + [Transition(from, c.to, c.actor, w.now)]]),
            match Acquires(op)
            case None => w.acquired
            case Some(k) => w.acquired[k := GetOr(w.acquired, k, 0) + 1])
  }

  function Run(w: World, ops: seq<Op>): World
    decreases |ops|
  {
    if ops == [] then w else Run(Step(w, ops[0]), ops[1..])
  }

  // ----- tokens -----

  /** A token is burned exactly when its invoice is settled; a live token belongs to the originator. */
  ghost predicate TokenOk(s: Registry, id: Symbol) {
    var t := TokenOf(id);
    && (t in s.tokens.burned <==> id in s.invoices && Terminal(s.invoices[id].status))
    && (t in s.tokens.owner <==> id in s.invoices && t !in s.tokens.burned)
    && (t in s.tokens.owner ==> s.tokens.owner[t] == s.invoices[id].originator)
    && (t in s.tokens.approved ==> t in s.tokens.owner)
    && (t in s.tokens.minted <==> id in s.invoices)
    && (t in s.tokens.minted ==> s.tokens.minted[t] == id)
  }

  ghost predicate TokensOk(s: Registry) {
    forall id :: TokenOk(s, id)
  }

  lemma MoveKeepsToken(s: Registry, id: Symbol, to: InvoiceStatus, actor: Address, now: Timestamp, other: Symbol)
    requires TokenOk(s, id) && TokenOk(s, other) && Move(s, id, to, actor, now).Ok?
    ensures TokenOk(Move(s, id, to, actor, now).value, other)
  {
  }

  lemma StepKeepsTokens(s: Registry, op: Op, now: Timestamp)
    requires TokensOk(s) && Apply(s, op, now).Ok?
    ensures TokensOk(Apply(s, op, now).value)
  {
    var s' := Apply(s, op, now).value;
    forall id ensures TokenOk(s', id) {
      assert TokenOk(s, id);
      if ChangeOf(op).Some? {
        ChangesMove(s, op, now);
        var c := ChangeOf(op).value;
        assert TokenOk(s, c.id);
        MoveKeepsToken(s, c.id, c.to, c.actor, now, id);
      } else {
        TokenStep(s, op, now, id);
      }
    }
  }

  lemma TokenStep(s: Registry, op: Op, now: Timestamp, id: Symbol)
    requires ChangeOf(op).None? && TokensOk(s) && Apply(s, op, now).Ok?
    ensures TokenOk(Apply(s, op, now).value, id)
  {
    assert TokenOk(s, id);
    match op
    case DoTransfer(_, _, t) => assert TokenOk(s, t.invoice) && t == TokenOf(t.invoice);
    case DoTransferFrom(_, _, _, t) => assert TokenOk(s, t.invoice) && t == TokenOf(t.invoice);
    case DoSetApproval(_, _, t) => assert TokenOk(s, t.invoice) && t == TokenOf(t.invoice);
    case _ =>
  }

  // ----- transition logs -----

  function Latest<T>(h: seq<T>, n: nat): seq<T> { if |h| <= n then h else h[|h| - n..] }

  /** A history that starts from Pending, runs along allowed edges, links up, ends in the current
      status, and goes on after no terminal status. */
  ghost predicate Chain(h: seq<Transition>, st: InvoiceStatus) {
    && (if h == [] then st == Pending else h[0].from == Pending && h[|h| - 1].to == st)
    && (forall i :: 0 <= i < |h| ==> Allowed(h[i].from, h[i].to))
    && (forall i :: 0 < i < |h| ==> h[i].from == h[i - 1].to)
    && (forall i :: 0 <= i < |h| - 1 ==> !Terminal(h[i].to))
  }

  ghost predicate LogOk(w: World, id: Symbol) {
    var h := GetOr(w.history, id, []);
    && GetOr(w.reg.logs, id, []) == Latest(h, LOG_CAP)
    && (if id in w.reg.invoices then Chain(h, w.reg.invoices[id].status) else h == [])
  }

  ghost predicate LogsOk(w: World) { forall id :: LogOk(w, id) }

  lemma LatestGrows(h: seq<Transition>, t: Transition)
    ensures Logged(Latest(h, LOG_CAP), t) == Latest(h + [t], LOG_CAP)
  {
  }

  lemma ChainGrows(h: seq<Transition>, st: InvoiceStatus, t: Transition)
    requires Chain(h, st) && t.from == st && Allowed(t.from, t.to)
    ensures Chain(h + [t], t.to)
  {
    var g := h + [t];
    assert forall i :: 0 <= i < |h| ==> g[i] == h[i];
  }

  lemma StepKeepsLogs(w: World, op: Op)
    requires LogsOk(w)
    ensures LogsOk(Step(w, op))
  {
    if Apply(w.reg, op, w.now).Ok? {
      forall id ensures LogOk(Step(w, op), id) {
        assert LogOk(w, id);
        if ChangeOf(op).Some? {
          ChangesMove(w.reg, op, w.now);
          var c := ChangeOf(op).value;
          if c.id == id {
            var h, st := GetOr(w.history, id, []), w.reg.invoices[id].status;
            LatestGrows(h, Transition(st, c.to, c.actor, w.now));
            ChainGrows(h, st, Transition(st, c.to, c.actor, w.now));
          }
        } else {
          assert Step(w, op).history == w.history;
          QuietOnStatuses(w.reg, op, w.now, id);
        }
      }
    }
  }

  /** The other operations leave statuses and logs alone, and a new invoice starts out pending. */
  lemma QuietOnStatuses(s: Registry, op: Op, now: Timestamp, id: Symbol)
    requires ChangeOf(op).None? && Apply(s, op, now).Ok?
    ensures var s' := Apply(s, op, now).value;
            && s'.logs == s.logs
            && (id in s.invoices ==> id in s'.invoices && s'.invoices[id].status == s.invoices[id].status)
            && (id in s'.invoices && id !in s.invoices ==> s'.invoices[id].status == Pending)
  {
  }

  // ----- the originator index -----

  ghost function Times(w: World, a: Address, id: Symbol): nat { GetOr(w.acquired, (a, id), 0) }

  /** An address's list is sorted and holds each invoice as often as the address acquired it; the
      current originator acquired it at least once. */
  ghost predicate IndexOk(w: World, a: Address) {
    && Sorted(IdsOf(w.reg, a))
    && (forall id :: multiset(IdsOf(w.reg, a))[id] == Times(w, a, id))
    && (forall id :: Times(w, a, id) > 0 ==> id in w.reg.invoices)
    && (forall id :: id in w.reg.invoices && w.reg.invoices[id].originator == a ==> Times(w, a, id) > 0)
    && (a in IndexOf(w.reg) ==> IdsOf(w.reg, a) != [])
  }

  ghost predicate IndexesOk(w: World) {
    && (forall a :: IndexOk(w, a))
    && (w.reg.index.Some? <==> w.reg.invoices != map[])
  }

  /** The world after address a acquires invoice id. */
  ghost predicate Acquired(w: World, v: World, a: Address, id: Symbol) {
    && v.reg.index == Indexed(w.reg, a, id)
    && v.acquired == w.acquired[(a, id) := Times(w, a, id) + 1]
    && id in v.reg.invoices && v.reg.invoices[id].originator == a
    && (forall k :: k != id ==> (k in v.reg.invoices <==> k in w.reg.invoices))
    && (forall k :: k in w.reg.invoices && k != id ==> v.reg.invoices[k].originator == w.reg.invoices[k].originator)
  }

  lemma AcquirerIndex(w: World, v: World, a: Address, id: Symbol)
    requires IndexOk(w, a) && Acquired(w, v, a, id)
    ensures IndexOk(v, a)
  {
    hide Inserted, Sorted;
    var ids := IdsOf(w.reg, a);
    InsertedCounts(ids, id);
    InsertedSorted(ids, id);
    assert IdsOf(v.reg, a) == Inserted(ids, id);
    hide IdsOf, IndexOf, Indexed;
    forall k ensures multiset(IdsOf(v.reg, a))[k] == Times(v, a, k) {
      assert multiset(ids)[k] == Times(w, a, k);
    }
  }

  lemma OtherIndex(w: World, v: World, a: Address, id: Symbol, b: Address)
    requires IndexOk(w, b) && Acquired(w, v, a, id) && b != a
    ensures IndexOk(v, b)
  {
    hide Inserted, Sorted;
    assert IdsOf(v.reg, b) == IdsOf(w.reg, b);
    assert forall k :: Times(v, b, k) == Times(w, b, k);
  }

  lemma AcquiringStep(s: Registry, op: Op, now: Timestamp)
    requires TokensOk(s) && Acquires(op).Some? && Apply(s, op, now).Ok?
    ensures var (a, id) := Acquires(op).value; var s' := Apply(s, op, now).value;
            && s'.index == Indexed(s, a, id)
            && id in s'.invoices && s'.invoices[id].originator == a
            && (forall k :: k != id ==> (k in s'.invoices <==> k in s.invoices))
            && (forall k :: k in s.invoices && k != id ==> s'.invoices[k].originator == s.invoices[k].originator)
  {
    match op
    case DoTransfer(_, _, t) => assert TokenOk(s, t.invoice) && t == TokenOf(t.invoice);
    case DoTransferFrom(_, _, _, t) => assert TokenOk(s, t.invoice) && t == TokenOf(t.invoice);
    case _ =>
  }

  lemma QuietOnOriginators(s: Registry, op: Op, now: Timestamp)
    requires Acquires(op).None? && Apply(s, op, now).Ok?
    ensures var s' := Apply(s, op, now).value;
            && s'.index == s.index && s'.invoices.Keys == s.invoices.Keys
            && forall k :: k in s.invoices ==> s'.invoices[k].originator == s.invoices[k].originator
  {
    if ChangeOf(op).Some? {
      ChangesMove(s, op, now);
    }
  }

  lemma AcquiringStepKeepsIndexes(w: World, op: Op)
    requires TokensOk(w.reg) && IndexesOk(w) && Acquires(op).Some? && Apply(w.reg, op, w.now).Ok?
    ensures IndexesOk(Step(w, op))
  {
    var v := Step(w, op);
    var (a, id) := Acquires(op).value;
    AcquiringStep(w.reg, op, w.now);
    hide IndexOk, Apply, Inserted, TokensOk;
    assert Acquired(w, v, a, id);
    forall b ensures IndexOk(v, b) {
      assert IndexOk(w, b);
      if b == a { AcquirerIndex(w, v, a, id); } else { OtherIndex(w, v, a, id, b); }
    }
    assert v.reg.invoices != map[];
  }

  lemma QuietStepKeepsIndexes(w: World, op: Op)
    requires IndexesOk(w) && Acquires(op).None? && Apply(w.reg, op, w.now).Ok?
    ensures IndexesOk(Step(w, op))
  {
    var v := Step(w, op);
    QuietOnOriginators(w.reg, op, w.now);
    hide Apply, Sorted;
    forall b ensures IndexOk(v, b) {
      assert IndexOk(w, b);
      assert IdsOf(v.reg, b) == IdsOf(w.reg, b);
    }
    assert v.reg.invoices == map[] <==> v.reg.invoices.Keys == {};
  }

  lemma StepKeepsIndexes(w: World, op: Op)
    requires TokensOk(w.reg) && IndexesOk(w)
    ensures IndexesOk(Step(w, op))
  {
    hide IndexesOk, TokensOk;
    if Apply(w.reg, op, w.now).Ok? {
      if Acquires(op).Some? { AcquiringStepKeepsIndexes(w, op); } else { QuietStepKeepsIndexes(w, op); }
    }
  }

  // ----- runs -----

  ghost predicate Inv(w: World) {
    TokensOk(w.reg) && LogsOk(w) && IndexesOk(w)
  }

  lemma StepKeeps(w: World, op: Op)
    requires Inv(w)
    ensures Inv(Step(w, op))
  {
    hide TokensOk, LogsOk, IndexesOk;
    StepKeepsLogs(w, op);
    StepKeepsIndexes(w, op);
    if Apply(w.reg, op, w.now).Ok? {
      StepKeepsTokens(w.reg, op, w.now);
    }
  }

  /** In every reachable state: tokens are burned exactly for settled invoices and otherwise owned by
      the originator; every log is the tail of its invoice's transitions; every address's list is
      sorted and counts its acquisitions. */
  lemma {:induction false} RunKeeps(w: World, ops: seq<Op>)
    requires Inv(w)
    ensures Inv(Run(w, ops))
    decreases |ops|
  {
    if ops != [] {
      StepKeeps(w, ops[0]);
      RunKeeps(Step(w, ops[0]), ops[1..]);
    }
  }

  lemma DeployedSound(blacklist: set<Address>, now: Timestamp)
    ensures Inv(World(Empty(blacklist), now, map[], map[]))
  {
  }

  /** Tokens follow their invoices on every run from deployment: a token is burned exactly when its
      invoice is settled; a live token belongs to the invoice's originator, who finds the invoice in its
      sorted list; and nobody owns a token without an invoice. */
  lemma TokensFollowInvoices(blacklist: set<Address>, now: Timestamp, ops: seq<Op>, id: Symbol)
    ensures var s := Run(World(Empty(blacklist), now, map[], map[]), ops).reg; var t := TokenOf(id);
            && (t in s.tokens.burned <==> id in s.invoices && Terminal(s.invoices[id].status))
            && (t in s.tokens.owner <==> id in s.invoices && !Terminal(s.invoices[id].status))
            && (t in s.tokens.owner ==> s.tokens.owner[t] == s.invoices[id].originator)
            && (t in s.tokens.approved ==> t in s.tokens.owner)
            && (id in s.invoices ==>
                  id in IdsOf(s, s.invoices[id].originator) && Sorted(IdsOf(s, s.invoices[id].originator)))
  {
    hide Sorted, TokensOk, LogsOk;
    var w := Run(World(Empty(blacklist), now, map[], map[]), ops);
    DeployedSound(blacklist, now);
    RunKeeps(World(Empty(blacklist), now, map[], map[]), ops);
    TokenAndListOf(w, id);
  }

  lemma TokenAndListOf(w: World, id: Symbol)
    requires Inv(w)
    ensures TokenOk(w.reg, id)
    ensures id in w.reg.invoices ==> IndexOk(w, w.reg.invoices[id].originator)
    ensures id in w.reg.invoices ==> id in IdsOf(w.reg, w.reg.invoices[id].originator)
  {
    hide Sorted, LogsOk;
    if id in w.reg.invoices {
      var a := w.reg.invoices[id].originator;
      assert IndexOk(w, a);
      assert multiset(IdsOf(w.reg, a))[id] == Times(w, a, id) > 0;
    }
  }

  /** A stored log of a reachable state: at most twenty records, linked end to start, ending in the
      current status, and with nothing after a settled status. */
  lemma StoredLog(w: World, id: Symbol)
    requires Inv(w) && id in w.reg.invoices
    ensures var log := GetOr(w.reg.logs, id, []);
            && |log| == Min(|GetOr(w.history, id, [])|, 20)
            && (log != [] ==> log[|log| - 1].to == w.reg.invoices[id].status)
            && (forall i :: 0 < i < |log| ==> log[i].from == log[i - 1].to)
            && (forall i :: 0 <= i < |log| - 1 ==> !Terminal(log[i].to))
  {
    hide TokensOk, IndexesOk;
    assert LogOk(w, id);
    TailOfChain(GetOr(w.history, id, []), w.reg.invoices[id].status);
  }

  lemma TailOfChain(h: seq<Transition>, st: InvoiceStatus)
    requires Chain(h, st)
    ensures var log := Latest(h, LOG_CAP);
            && |log| == Min(|h|, LOG_CAP)
            && (log != [] ==> log[|log| - 1].to == st)
            && (forall i :: 0 < i < |log| ==> log[i].from == log[i - 1].to)
            && (forall i :: 0 <= i < |log| - 1 ==> !Terminal(log[i].to))
  {
    hide Allowed, Terminal;
    if |h| > LOG_CAP {
      var d, log := |h| - LOG_CAP, Latest(h, LOG_CAP);
      forall i | 0 < i < |log| ensures log[i].from == log[i - 1].to {
        assert log[i] == h[i + d] && log[i - 1] == h[i + d - 1];
      }
      forall i | 0 <= i < |log| - 1 ensures !Terminal(log[i].to) {
        assert log[i] == h[i + d];
      }
    }
  }

  // ----- the index against its rebuild -----

  ghost predicate TransferFree(ops: seq<Op>) {
    forall i :: 0 <= i < |ops| ==> !ops[i].DoTransfer? && !ops[i].DoTransferFrom?
  }

  /** Each invoice was acquired once, by its originator. */
  ghost predicate AcquiredOnce(w: World) {
    forall a, id :: Times(w, a, id) == if id in w.reg.invoices && w.reg.invoices[id].originator == a then 1 else 0
  }

  lemma {:induction false} TransferFreeAcquiresOnce(w: World, ops: seq<Op>)
    requires Inv(w) && AcquiredOnce(w) && TransferFree(ops)
    ensures Inv(Run(w, ops)) && AcquiredOnce(Run(w, ops))
    decreases |ops|
  {
    if ops != [] {
      StepKeeps(w, ops[0]);
      OnceStep(w, ops[0]);
      TransferFreeAcquiresOnce(Step(w, ops[0]), ops[1..]);
    }
  }

  lemma OnceStep(w: World, op: Op)
    requires AcquiredOnce(w) && TokensOk(w.reg) && !op.DoTransfer? && !op.DoTransferFrom?
    ensures AcquiredOnce(Step(w, op))
  {
    if Apply(w.reg, op, w.now).Ok? {
      var v := Step(w, op);
      if op.DoRegister? {
        AcquiringStep(w.reg, op, w.now);
      } else {
        QuietOnOriginators(w.reg, op, w.now);
      }
      forall a, id
        ensures Times(v, a, id) == if id in v.reg.invoices && v.reg.invoices[id].originator == a then 1 else 0
      {
        assert Times(w, a, id) == if id in w.reg.invoices && w.reg.invoices[id].originator == a then 1 else 0;
      }
    }
  }

  /** How often the rebuilt index lists an invoice for an address. */
  lemma {:induction false} RebuiltCounts(invoices: map<Symbol, Invoice>, keys: seq<Symbol>, a: Address)
    requires Distinct(keys) && forall k :: k in keys ==> k in invoices
    ensures var ids := GetOr(Rebuilt(invoices, keys), a, []);
            && Sorted(ids)
            && (forall id :: multiset(ids)[id] == if id in keys && invoices[id].originator == a then 1 else 0)
            && (a in Rebuilt(invoices, keys) <==> ids != [])
  {
    if keys != [] {
      var n := |keys| - 1;
      var id := keys[n];
      assert keys == keys[..n] + [id] && id !in keys[..n];
      assert forall i :: i in keys <==> i == id || i in keys[..n];
      RebuiltStep(invoices, keys, a);
      hide Rebuilt, Sorted;
      RebuiltCounts(invoices, keys[..n], a);
    }
  }

  /** One more invoice in the rebuild. */
  lemma RebuiltStep(invoices: map<Symbol, Invoice>, keys: seq<Symbol>, a: Address)
    requires keys != [] && forall k :: k in keys ==> k in invoices
    ensures var id := keys[|keys| - 1];
            var prior, ids := GetOr(Rebuilt(invoices, keys[..|keys| - 1]), a, []),
                GetOr(Rebuilt(invoices, keys), a, []);
            && (Sorted(prior) ==> Sorted(ids))
            && (invoices[id].originator != a ==>
                  ids == prior && (a in Rebuilt(invoices, keys) <==> a in Rebuilt(invoices, keys[..|keys| - 1])))
            && (invoices[id].originator == a ==>
                  multiset(ids) == multiset(prior) + multiset{id} && ids != [] && a in Rebuilt(invoices, keys))
  {
    hide Sorted, Inserted;
    var id, prior := keys[|keys| - 1], GetOr(Rebuilt(invoices, keys[..|keys| - 1]), a, []);
    InsertedCounts(prior, id);
    assert multiset(Inserted(prior, id))[id] > 0;
    if Sorted(prior) { InsertedSorted(prior, id); }
  }

  lemma ListEqualsRebuild(w: World, keys: seq<Symbol>, a: Address)
    requires IndexOk(w, a) && AcquiredOnce(w)
    requires Distinct(keys) && forall k :: k in keys <==> k in w.reg.invoices
    ensures var rebuilt := Rebuilt(w.reg.invoices, keys);
            IdsOf(w.reg, a) == GetOr(rebuilt, a, []) && (a in IndexOf(w.reg) <==> a in rebuilt)
  {
    hide Rebuilt, Sorted;
    RebuiltCounts(w.reg.invoices, keys, a);
    var kept, rebuilt := IdsOf(w.reg, a), GetOr(Rebuilt(w.reg.invoices, keys), a, []);
    forall id ensures multiset(kept)[id] == multiset(rebuilt)[id] {
      assert multiset(kept)[id] == Times(w, a, id);
    }
    SortedUnique(kept, rebuilt);
  }

  /** On runs without transfers the index kept step by step is exactly what a rebuild would give. */
  lemma IndexEqualsRebuild(w: World)
    requires Inv(w) && AcquiredOnce(w)
    ensures IndexOf(w.reg) == Rebuilt(w.reg.invoices, SortedKeys(w.reg.invoices.Keys))
  {
    hide Rebuilt, IndexOk, AcquiredOnce, TokensOk, LogsOk;
    var keys := SortedKeys(w.reg.invoices.Keys);
    var kept, rebuilt := IndexOf(w.reg), Rebuilt(w.reg.invoices, keys);
    forall a ensures (a in kept <==> a in rebuilt) && GetOr(kept, a, []) == GetOr(rebuilt, a, []) {
      assert IndexOk(w, a);
      ListEqualsRebuild(w, keys, a);
    }
    assert forall a :: a in kept ==> kept[a] == GetOr(kept, a, []);
    assert forall a :: a in rebuilt ==> rebuilt[a] == GetOr(rebuilt, a, []);
  }

  /** Backfilling a registry that has no index yet lists each invoice exactly once, under its current
      originator, in ascending order; an index that has begun is left as it is, complete or not. */
  lemma BackfillListsCurrentInvoices(s: Registry, a: Address)
    ensures var t := Backfill(s);
            && t == s.(index := t.index)
            && (s.index.Some? ==> t == s)
            && (s.index.None? ==>
                  && (t.index.Some? <==> s.invoices != map[])
                  && Sorted(IdsOf(t, a))
                  && forall id :: multiset(IdsOf(t, a))[id] == if id in s.invoices && s.invoices[id].originator == a
                                                               then 1 else 0)
  {
    hide Rebuilt, Sorted;
    RebuiltCounts(s.invoices, SortedKeys(s.invoices.Keys), a);
    if s.index.None? && s.invoices == map[] {
      assert IdsOf(s, a) == [];
      assert Sorted([]) by { NothingSorted(); }
    }
  }

  lemma NothingSorted()
    ensures Sorted([])
  {
  }

  lemma TransferFreeIndexIsRebuild(blacklist: set<Address>, now: Timestamp, ops: seq<Op>)
    requires TransferFree(ops)
    ensures var w := Run(World(Empty(blacklist), now, map[], map[]), ops);
            IndexOf(w.reg) == Rebuilt(w.reg.invoices, SortedKeys(w.reg.invoices.Keys))
  {
    DeployedSound(blacklist, now);
    TransferFreeAcquiresOnce(World(Empty(blacklist), now, map[], map[]), ops);
    IndexEqualsRebuild(Run(World(Empty(blacklist), now, map[], map[]), ops));
  }
}
