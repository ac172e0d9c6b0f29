/** The registry as deployed: invoices, transition logs, tokens and the originator index. */
module Registry {
  import opened Base
  import opened Ledger
  import opened Status
  import opened SortedIds
  import opened Paging
  import Steps = RegistrySteps

  /** Replay the invoices, in key order, into an empty index. */
  method Rebuild(invoices: map<Symbol, Steps.Invoice>, keys: seq<Symbol>) returns (rebuilt: map<Address, seq<Symbol>>)
    requires forall k :: k in keys ==> k in invoices
    ensures rebuilt == Steps.Rebuilt(invoices, keys)
  {
    hide Inserted;
    rebuilt := map[];
    for i := 0 to |keys|
      invariant rebuilt == Steps.Rebuilt(invoices, keys[..i])
    {
      assert keys[..i + 1][..i] == keys[..i];
      var a := invoices[keys[i]].originator;
      var ids := InsertSorted(GetOr(rebuilt, a, []), keys[i]);
      rebuilt := rebuilt[a := ids];
    }
    assert keys[..|keys|] == keys;
  }

  class Contract {
    var invoices: map<Symbol, Steps.Invoice>
    var logs: map<Symbol, seq<Steps.Transition>>
    var tokens: Steps.Tokens
    var index: Option<map<Address, seq<Symbol>>>
    var blacklist: set<Address>

    function State(): Steps.Registry
      reads this
    {
      Steps.Registry(invoices, logs, tokens, index, blacklist)
    }

    /** A transaction reaches the specified state or reverts with its error. */
    ghost predicate Commits(before: Steps.Registry, r: Result<()>, spec: Result<Steps.Registry>)
      reads this
    {
      match spec
      case Ok(s) => State() == s && r == Ok(())
      case Err(e) => State() == before && r == Err(e)
    }

    constructor (blacklist: set<Address>)
      ensures State() == Steps.Empty(blacklist)
    {
      invoices, logs, index := map[], map[], None;
      tokens := Steps.Tokens(map[], map[], {}, map[]);
      this.blacklist := blacklist;
    }

    method RecordTransition(id: Symbol, t: Steps.Transition)
      modifies this`logs
      ensures logs == old(logs)[id := Steps.Logged(GetOr(old(logs), id, []), t)]
    {
      var history := GetOr(logs, id, []);
      history := history + [t];
      if |history| > Steps.LOG_CAP {
        history := history[1..];
      }
      logs := logs[id := history];
    }

    method BurnIfExists(id: Symbol)
      modifies this`tokens
      ensures tokens == Steps.Burned(old(tokens), id)
    {
      var t := Steps.TokenOf(id);
      if t in tokens.burned { return; }
      if t in tokens.owner {
        tokens := tokens.(approved := tokens.approved - {t});
        tokens := tokens.(owner := tokens.owner - {t});
        tokens := tokens.(burned := tokens.burned + {t});
      }
    }

    /** Check, log and store a status change, and burn the token of a settled invoice. */
    method Move(id: Symbol, to: InvoiceStatus, actor: Address, now: Timestamp) returns (r: Result<()>)
      modifies this
      ensures Commits(old(State()), r, Steps.Move(old(State()), id, to, actor, now))
    {
      if id !in invoices { return Err(NotFound); }
      var invoice := invoices[id];
      if !Allowed(invoice.status, to) { return Err(InvalidTransition); }
      RecordTransition(id, Steps.Transition(invoice.status, to, actor, now));
      invoices := invoices[id := invoice.(status := to)];
      if to == Cancelled || to == Repaid || to == Defaulted {
        BurnIfExists(id);
      }
      return Ok(());
    }

    method IndexOriginator(originator: Address, id: Symbol)
      modifies this`index
      ensures index == Steps.Indexed(old(State()), originator, id)
    {
      var current := if index.Some? then index.value else map[];
      var ids := InsertSorted(GetOr(current, originator, []), id);
      index := Some(current[originator := ids]);
    }

    method RegisterInvoice(id: Symbol, originator: Address, amount: int, currency: Symbol, due: Timestamp,
                           now: Timestamp)
      returns (r: Result<()>)
      modifies this
      ensures Commits(old(State()), r, Steps.Register(old(State()), id, originator, amount, currency, due, now))
    {
      if originator in blacklist { return Err(Blacklisted); }
      if amount < Steps.MIN_INVOICE_AMOUNT { return Err(InvalidInput); }
      if due <= now { return Err(InvalidInput); }
      if id in invoices { return Err(AlreadyExists); }
      IndexOriginator(originator, id);
      invoices := invoices[id := Steps.Invoice(originator, amount, currency, due, Pending)];
      var t := Steps.TokenOf(id);
      tokens := tokens.(owner := tokens.owner[t := originator]);
      tokens := tokens.(minted := tokens.minted[t := id]);
      return Ok(());
    }

    method UpdateInvoiceStatus(id: Symbol, originator: Address, to: InvoiceStatus, now: Timestamp)
        returns (r: Result<()>)
      modifies this
      ensures Commits(old(State()), r, Steps.UpdateStatus(old(State()), id, originator, to, now))
    {
      if id !in invoices { return Err(NotFound); }
      if invoices[id].originator != originator { return Err(Unauthorized); }
      r := Move(id, to, originator, now);
    }

    method UpdateInvoiceAmount(id: Symbol, originator: Address, amount: int) returns (r: Result<()>)
      modifies this
      ensures Commits(old(State()), r, Steps.UpdateAmount(old(State()), id, originator, amount))
    {
      if id !in invoices { return Err(NotFound); }
      var invoice := invoices[id];
      if invoice.originator != originator { return Err(Unauthorized); }
      if invoice.status != Pending { return Err(InvalidTransition); }
      if amount < Steps.MIN_INVOICE_AMOUNT { return Err(InvalidInput); }
      invoices := invoices[id := invoice.(amount := amount)];
      return Ok(());
    }

    method MarkInvoiceOverdue(id: Symbol, now: Timestamp) returns (r: Result<()>)
      modifies this
      ensures Commits(old(State()), r, Steps.MarkOverdue(old(State()), id, now))
    {
      if id !in invoices { return Err(NotFound); }
      if now <= invoices[id].due { return Err(InvalidTransition); }
      r := Move(id, Overdue, Steps.SELF, now);
    }

    method ResolveDispute(id: Symbol, admin: Address, to: InvoiceStatus, now: Timestamp) returns (r: Result<()>)
      modifies this
      ensures Commits(old(State()), r, Steps.ResolveDispute(old(State()), id, admin, to, now))
    {
      if id !in invoices { return Err(NotFound); }
      if to == Disputed { return Err(InvalidInput); }
      r := Move(id, to, admin, now);
    }

    method ExecuteTransfer(from: Address, to: Address, t: Steps.TokenId) returns (r: Result<()>)
      modifies this
      ensures Commits(old(State()), r, Steps.Execute(old(State()), from, to, t))
    {
      if from in blacklist { return Err(Blacklisted); }
      if to in blacklist { return Err(Blacklisted); }
      if from == to { return Err(InvalidInput); }
      if t in tokens.burned { return Err(InvalidTransition); }
      if t !in tokens.owner { return Err(NotFound); }
      if tokens.owner[t] != from { return Err(Unauthorized); }
      if t !in tokens.minted { return Err(NotFound); }
      var id := tokens.minted[t];
      if id in invoices {
        invoices := invoices[id := invoices[id].(originator := to)];
        IndexOriginator(to, id);
      }
      tokens := tokens.(owner := tokens.owner[t := to]);
      tokens := tokens.(approved := tokens.approved - {t});
      return Ok(());
    }

    method Transfer(from: Address, to: Address, t: Steps.TokenId) returns (r: Result<()>)
      modifies this
      ensures Commits(old(State()), r, Steps.Transfer(old(State()), from, to, t))
    {
      if t in tokens.burned { return Err(InvalidTransition); }
      if t !in tokens.owner { return Err(NotFound); }
      var approved := if t in tokens.approved then Some(tokens.approved[t]) else None;
      if approved == Some(from) {
        r := ExecuteTransfer(tokens.owner[t], to, t);
      } else {
        r := ExecuteTransfer(from, to, t);
      }
    }

    method TransferFrom(spender: Address, from: Address, to: Address, t: Steps.TokenId) returns (r: Result<()>)
      modifies this
      ensures Commits(old(State()), r, Steps.TransferFrom(old(State()), spender, from, to, t))
    {
      if t in tokens.burned { return Err(InvalidTransition); }
      if t !in tokens.owner { return Err(NotFound); }
      if tokens.owner[t] != from { return Err(Unauthorized); }
      var approved := if t in tokens.approved then Some(tokens.approved[t]) else None;
      if approved != Some(spender) && tokens.owner[t] != spender { return Err(Unauthorized); }
      r := ExecuteTransfer(from, to, t);
    }

    method SetTokenApproval(owner: Address, approved: Option<Address>, t: Steps.TokenId) returns (r: Result<()>)
      modifies this
      ensures Commits(old(State()), r, Steps.SetApproval(old(State()), owner, approved, t))
    {
      if t in tokens.burned { return Err(InvalidTransition); }
      if t !in tokens.owner { return Err(NotFound); }
      if tokens.owner[t] != owner { return Err(Unauthorized); }
      if approved.Some? {
        if approved.value in blacklist { return Err(Blacklisted); }
        tokens := tokens.(approved := tokens.approved[t := approved.value]);
      } else {
        tokens := tokens.(approved := tokens.approved - {t});
      }
      return Ok(());
    }

    method BackfillOriginatorIndex()
      modifies this
      ensures State() == Steps.Backfill(old(State()))
    {
      if index.Some? { return; }
      if invoices == map[] { return; }
      var rebuilt := Rebuild(invoices, SortedKeys(invoices.Keys));
      index := Some(rebuilt);
    }

    method OriginatorPage(originator: Address, page: nat, pageSize: nat) returns (r: Result<seq<Symbol>>)
      ensures r == if pageSize == 0 then Err(InvalidInput)
                   else Ok(Page(Steps.IdsOf(State(), originator), page * pageSize, pageSize))
    {
      if pageSize == 0 { return Err(InvalidInput); }
      var ids := if index.Some? then GetOr(index.value, originator, []) else [];
      var start := page * pageSize;
      var result := [];
      if start >= |ids| { return Ok(result); }
      var i := start;
      while i < |ids| && |result| < pageSize
        invariant start <= i <= |ids| && |result| <= pageSize
        invariant result == ids[start..i]
      {
        result := result + [ids[i]];
        i := i + 1;
      }
      return Ok(result);
    }
  }
}
