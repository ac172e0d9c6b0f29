/** The oracle as deployed. */
module Oracle {
  import opened Base
  import opened Attestations
  import Steps = OracleSteps

  class Contract {
    var verifiers: seq<Address>
    var threshold: nat
    var validity: nat
    var lists: map<Symbol, Statements>

    function State(): Steps.Oracle
      reads this
    {
      Steps.Oracle(verifiers, threshold, validity, lists)
    }

    ghost predicate Commits<T(!new)>(before: Steps.Oracle, r: Result<T>, spec: Result<(Steps.Oracle, T)>)
      reads this
    {
      match spec
      case Ok((s, v)) => State() == s && r == Ok(v)
      case Err(e) => State() == before && r == Err(e)
    }

    constructor ()
      ensures State() == Steps.Oracle([], 1, 7_776_000, map[])
    {
      verifiers, threshold, validity, lists := [], 1, 7_776_000, map[];
    }

    method AddVerifier(v: Address) returns (r: Result<()>)
      modifies this
      ensures match Steps.AddVerifier(old(State()), v, Steps.MAX_VERIFIERS)
              case Ok(s) => State() == s && r == Ok(())
              case Err(e) => State() == old(State()) && r == Err(e)
    {
      for i := 0 to |verifiers|
        invariant State() == old(State()) && v !in verifiers[..i]
      {
        if verifiers[i] == v { return Ok(()); }
      }
      if |verifiers| >= Steps.MAX_VERIFIERS { return Err(InvalidInput); }
      verifiers := verifiers + [v];
      return Ok(());
    }

    method RemoveVerifier(v: Address)
      modifies this
      ensures State() == Steps.RemoveVerifier(old(State()), v)
    {
      var remaining := [];
      for i := 0 to |verifiers|
        invariant State() == old(State())
        invariant remaining == Steps.Excluding(verifiers[..i], v)
      {
        assert verifiers[..i + 1][..i] == verifiers[..i];
        if verifiers[i] != v { remaining := remaining + [verifiers[i]]; }
      }
      assert verifiers[..|verifiers|] == verifiers;
      verifiers := remaining;
    }

    method Attest(invoice: Symbol, standing: Steps.Standing, feePaid: bool, v: Address, t: VType, hash: nat,
                  approved: bool, now: Timestamp) returns (r: Result<Attestation>)
      modifies this
      ensures Commits(old(State()), r,
                Steps.Attest(old(State()), invoice, standing, feePaid, v, t, hash, approved, now, Steps.MAX_VERIFIERS))
    {
      if v !in verifiers { return Err(Unauthorized); }
      if standing == Steps.Missing { return Err(NotFound); }
      if standing == Steps.Closed { return Err(InvalidTransition); }
      if !feePaid { return Err(Trap); }
      var list := GetOr(lists, invoice, []);
      var a := Attestation(v, t, hash, now, SaturatingAdd(now, validity), if approved then Verified else Rejected);
      var updated := [];
      for i := 0 to |list|
        invariant State() == old(State())
        invariant updated == Without(list[..i], v, t)
      {
        assert list[..i + 1][..i] == list[..i];
        if list[i].verifier == v && list[i].vType == t { continue; }
        updated := updated + [list[i]];
      }
      assert list[..|list|] == list;
      if |updated| >= Steps.MAX_ATTESTATIONS {
        var freed := EvictOneSlot(updated, verifiers, now);
        if freed.Err? { return Err(freed.error); }
        updated := freed.value;
      }
      lists := lists[invoice := updated + [a]];
      return Ok(a);
    }

    method ExpireVerifications(invoice: Symbol, now: Timestamp) returns (r: Result<nat>)
      modifies this
      ensures Commits(old(State()), r, Steps.ExpireVerifications(old(State()), invoice, now))
    {
      var list := GetOr(lists, invoice, []);
      if list == [] { return Err(NotFound); }
      var updated, newlyExpired := [], 0;
      for i := 0 to |list|
        invariant State() == old(State())
        invariant updated == ExpireAll(list, now)[..i]
        invariant newlyExpired == Lapses(list[..i], now)
      {
        assert list[..i + 1][..i] == list[..i];
        if EffectiveStatus(list[i], now) == Expired && list[i].status != Expired {
          newlyExpired := newlyExpired + 1;
          updated := updated + [list[i].(status := Expired)];
        } else {
          updated := updated + [list[i]];
        }
      }
      assert list[..|list|] == list;
      assert updated == ExpireAll(list, now);
      if newlyExpired > 0 {
        lists := lists[invoice := updated];
      }
      return Ok(newlyExpired);
    }

    method InvoiceStatus(invoice: Symbol, now: Timestamp) returns (s: VStatus)
      ensures s == Steps.InvoiceVerdict(State(), invoice, now)
    {
      hide StatusOf;
      var types := [DocumentHash, BusinessRegistration, TaxCompliance];
      var list := GetOr(lists, invoice, []);
      var allVerified, anyExpired := true, false;
      ghost var verdict := (t: VType) reads this => StatusOf(list, verifiers, t, threshold, now);
      for i := 0 to 3
        invariant forall j :: 0 <= j < i ==> verdict(types[j]) != Rejected
        invariant allVerified <==> forall j :: 0 <= j < i ==> verdict(types[j]) == Verified
        invariant anyExpired <==> exists j :: 0 <= j < i && verdict(types[j]) == Expired
      {
        var st := TypeStatus(list, verifiers, types[i], threshold, now);
        assert st == verdict(types[i]);
        match st
        case Rejected =>
          assert types[0] == DocumentHash && types[1] == BusinessRegistration && types[2] == TaxCompliance;
          return Rejected;
        case Verified =>
        case Expired => allVerified, anyExpired := false, true;
        case Pending => allVerified := false;
      }
      assert types[0] == DocumentHash && types[1] == BusinessRegistration && types[2] == TaxCompliance;
      return if allVerified then Verified else if anyExpired then Expired else Pending;
    }
  }
}
