/** Verifiers' statements about an invoice: their derived status, the m-of-n verdict on a list of
    them, and the eviction of one statement from a full list. */
module Attestations {
  import opened Base
  import opened Ledger

  datatype VType = DocumentHash | BusinessRegistration | TaxCompliance

  datatype VStatus = Pending | Verified | Rejected | Expired

  datatype Attestation = Attestation(
    verifier: Address,
    vType: VType,
    hash: nat,
    timestamp: Timestamp,
    validUntil: Timestamp,
    status: VStatus)

  type Statements = seq<Attestation>

  /** Expiry is derived from the deadline, never from a stored flag alone. */
  function EffectiveStatus(a: Attestation, now: Timestamp): VStatus {
    if a.status != Expired && now > a.validUntil then Expired else a.status
  }

  /** Only verifiers in the current set speak to a type. */
  predicate Speaks(a: Attestation, trusted: seq<Address>, t: VType) {
    a.vType == t && a.verifier in trusted
  }

  predicate Says(a: Attestation, trusted: seq<Address>, t: VType, now: Timestamp, st: VStatus) {
    Speaks(a, trusted, t) && EffectiveStatus(a, now) == st
  }

  /** How many trusted statements on a type have a given effective status. */
  function Count(list: Statements, trusted: seq<Address>, t: VType, now: Timestamp, st: VStatus): nat {
    if list == [] then 0
    else Count(list[..|list| - 1], trusted, t, now, st)
         + if Says(list[|list| - 1], trusted, t, now, st) then 1 else 0
  }

  function Heard(list: Statements, trusted: seq<Address>, t: VType): bool {
    exists i :: 0 <= i < |list| && Speaks(list[i], trusted, t)
  }

  /** The verdict on one type. */
  function StatusOf(list: Statements, trusted: seq<Address>, t: VType, threshold: nat, now: Timestamp): VStatus {
    if !Heard(list, trusted, t) then Pending
    else if Count(list, trusted, t, now, Rejected) > 0 then Rejected
    else if Count(list, trusted, t, now, Verified) >= threshold then Verified
    else if Count(list, trusted, t, now, Expired) > 0 && Count(list, trusted, t, now, Verified) == 0 then Expired
    else Pending
  }

  lemma CountPrefix(list: Statements, i: nat, trusted: seq<Address>, t: VType, now: Timestamp, st: VStatus)
    requires i < |list|
    ensures Count(list[..i + 1], trusted, t, now, st)
         == Count(list[..i], trusted, t, now, st) + if Says(list[i], trusted, t, now, st) then 1 else 0
  {
    assert list[..i + 1][..i] == list[..i];
  }

  lemma HeardPrefix(list: Statements, i: nat, trusted: seq<Address>, t: VType)
    requires i < |list|
    ensures Heard(list[..i + 1], trusted, t) == (Heard(list[..i], trusted, t) || Speaks(list[i], trusted, t))
  {
    if Speaks(list[i], trusted, t) {
      assert Speaks(list[..i + 1][i], trusted, t);
    }
    if Heard(list[..i], trusted, t) {
      var j :| 0 <= j < i && Speaks(list[..i][j], trusted, t);
      assert Speaks(list[..i + 1][j], trusted, t);
    }
  }

  /** One more statement: the counts and whether the type was heard. */
  lemma Snoc(rest: Statements, last: Attestation, trusted: seq<Address>, t: VType, now: Timestamp, st: VStatus)
    ensures Count(rest + [last], trusted, t, now, st)
         == Count(rest, trusted, t, now, st) + if Says(last, trusted, t, now, st) then 1 else 0
    ensures Heard(rest + [last], trusted, t) == (Heard(rest, trusted, t) || Speaks(last, trusted, t))
  {
    var list, n := rest + [last], |rest|;
    assert list[..n + 1] == list && list[..n] == rest;
    CountPrefix(list, n, trusted, t, now, st);
    HeardPrefix(list, n, trusted, t);
  }

  method TypeStatus(list: Statements, trusted: seq<Address>, t: VType, threshold: nat, now: Timestamp)
    returns (s: VStatus)
    ensures s == StatusOf(list, trusted, t, threshold, now)
  {
    var approvals, rejected, expired, seen := 0, false, false, false;
    for i := 0 to |list|
      invariant seen == Heard(list[..i], trusted, t)
      invariant approvals == Count(list[..i], trusted, t, now, Verified)
      invariant rejected == (Count(list[..i], trusted, t, now, Rejected) > 0)
      invariant expired == (Count(list[..i], trusted, t, now, Expired) > 0)
    {
      hide Count, Heard;
      CountPrefix(list, i, trusted, t, now, Verified);
      CountPrefix(list, i, trusted, t, now, Rejected);
      CountPrefix(list, i, trusted, t, now, Expired);
      HeardPrefix(list, i, trusted, t);
      if list[i].vType != t || list[i].verifier !in trusted {
        continue;
      }
      seen := true;
      match EffectiveStatus(list[i], now)
      case Verified => approvals := approvals + 1;
      case Rejected => rejected := true;
      case Expired => expired := true;
      case Pending =>
    }
    assert list[..|list|] == list;
    if !seen { return Pending; }
    if rejected { return Rejected; }
    if approvals >= threshold { return Verified; }
    if expired && approvals == 0 { return Expired; }
    return Pending;
  }

  // ----- the verdict in terms of who speaks -----

  /** At most one statement per verifier and type. */
  ghost predicate OneVoiceEach(list: Statements) {
    forall i, j :: 0 <= i < j < |list| ==> list[i].verifier != list[j].verifier || list[i].vType != list[j].vType
  }

  /** The verifiers whose trusted statement on a type has a given effective status. */
  ghost function Voices(list: Statements, trusted: seq<Address>, t: VType, now: Timestamp, st: VStatus): set<Address> {
    set a | a in list && Says(a, trusted, t, now, st) :: a.verifier
  }

  lemma VoicesUnion(prior: Statements, last: Attestation, trusted: seq<Address>, t: VType, now: Timestamp, st: VStatus)
    ensures Voices(prior + [last], trusted, t, now, st)
         == Voices(prior, trusted, t, now, st) + if Says(last, trusted, t, now, st) then {last.verifier} else {}
  {
    hide Says;
    var list := prior + [last];
    assert forall a :: a in list <==> a in prior || a == last;
  }

  lemma NewVoice(prior: Statements, last: Attestation, trusted: seq<Address>, t: VType, now: Timestamp, st: VStatus)
    requires OneVoiceEach(prior + [last]) && last.vType == t
    ensures last.verifier !in Voices(prior, trusted, t, now, st)
  {
    forall a | a in prior && a.vType == t ensures a.verifier != last.verifier {
      var i :| 0 <= i < |prior| && prior[i] == a;
      assert (prior + [last])[i] == a && (prior + [last])[|prior|] == last;
    }
  }

  lemma VoicesStep(prior: Statements, last: Attestation, trusted: seq<Address>, t: VType, now: Timestamp, st: VStatus)
    requires OneVoiceEach(prior + [last])
    ensures |Voices(prior + [last], trusted, t, now, st)|
         == |Voices(prior, trusted, t, now, st)| + if Says(last, trusted, t, now, st) then 1 else 0
  {
    hide Voices;
    VoicesUnion(prior, last, trusted, t, now, st);
    if last.vType == t {
      NewVoice(prior, last, trusted, t, now, st);
    }
  }

  /** Counting statements is counting distinct verifiers. */
  lemma {:induction false} CountIsVoices(list: Statements, trusted: seq<Address>, t: VType, now: Timestamp, st: VStatus)
    requires OneVoiceEach(list)
    ensures Count(list, trusted, t, now, st) == |Voices(list, trusted, t, now, st)|
  {
    hide Says;
    if list != [] {
      var n := |list| - 1;
      CountIsVoices(list[..n], trusted, t, now, st);
      assert list == list[..n] + [list[n]];
      VoicesStep(list[..n], list[n], trusted, t, now, st);
    }
  }

  /** A type has been spoken to when some verifier's statement has one of the statuses. */
  lemma HeardIsVoices(list: Statements, trusted: seq<Address>, t: VType, now: Timestamp)
    requires forall a :: a in list ==> a.status != Pending
    ensures Heard(list, trusted, t)
       <==> Voices(list, trusted, t, now, Verified) + Voices(list, trusted, t, now, Rejected)
            + Voices(list, trusted, t, now, Expired) != {}
  {
    if Heard(list, trusted, t) {
      var i :| 0 <= i < |list| && Speaks(list[i], trusted, t);
      assert list[i].verifier in Voices(list, trusted, t, now, EffectiveStatus(list[i], now));
    }
    forall st, v | v in Voices(list, trusted, t, now, st)
      ensures Heard(list, trusted, t)
    {
      var a :| a in list && a.verifier == v && Speaks(a, trusted, t);
      var i :| 0 <= i < |list| && list[i] == a;
      assert Speaks(list[i], trusted, t);
    }
  }

  /** The fold over the list decides by distinct trusted verifiers: a live rejection dominates, then
      live approvals are held against the threshold, and a type is expired exactly when every trusted
      statement on it has lapsed. */
  lemma VerdictByVoices(list: Statements, trusted: seq<Address>, t: VType, threshold: nat, now: Timestamp)
    requires OneVoiceEach(list) && threshold > 0
    requires forall a :: a in list ==> a.status != Pending
    ensures var s := StatusOf(list, trusted, t, threshold, now);
            var yes, no, lapsed := Voices(list, trusted, t, now, Verified), Voices(list, trusted, t, now, Rejected),
                                   Voices(list, trusted, t, now, Expired);
            && (s == Rejected <==> no != {})
            && (s == Verified <==> no == {} && |yes| >= threshold)
            && (s == Expired <==> no == {} && yes == {} && lapsed != {})
            && (s == Pending <==> no == {} && |yes| < threshold && (yes == {} ==> lapsed == {}))
  {
    hide Count, Heard, Voices;
    CountIsVoices(list, trusted, t, now, Verified);
    CountIsVoices(list, trusted, t, now, Rejected);
    CountIsVoices(list, trusted, t, now, Expired);
    HeardIsVoices(list, trusted, t, now);
  }

  /** Removing a verifier withdraws its statements at once, lapsed or not. */
  lemma RemovalSilences(list: Statements, trusted: seq<Address>, rest: seq<Address>, v: Address, t: VType,
                        now: Timestamp, st: VStatus)
    requires forall x :: x in rest <==> x in trusted && x != v
    ensures Voices(list, rest, t, now, st) == Voices(list, trusted, t, now, st) - {v}
  {
    forall x | x in Voices(list, trusted, t, now, st) && x != v
      ensures x in Voices(list, rest, t, now, st)
    {
      var a :| a in list && Says(a, trusted, t, now, st) && a.verifier == x;
      assert Says(a, rest, t, now, st);
    }
  }

  // ----- replacing and evicting -----

  /** The list without a verifier's earlier statement on a type. */
  function Without(list: Statements, v: Address, t: VType): (kept: Statements)
    ensures forall a :: a in kept <==> a in list && !(a.verifier == v && a.vType == t)
    ensures |kept| <= |list|
  {
    if list == [] then []
    else
      var rest := Without(list[..|list| - 1], v, t);
      var last := list[|list| - 1];
      if last.verifier == v && last.vType == t then rest else rest + [last]
  }

  lemma {:induction false} WithoutKeepsVoices(list: Statements, v: Address, t: VType)
    requires OneVoiceEach(list)
    ensures OneVoiceEach(Without(list, v, t))
  {
    if list != [] {
      var n := |list| - 1;
      WithoutKeepsVoices(list[..n], v, t);
      var rest := Without(list[..n], v, t);
      forall i | 0 <= i < |rest|
        ensures rest[i].verifier != list[n].verifier || rest[i].vType != list[n].vType
      {
        assert rest[i] in list[..n];
      }
    }
  }

  /** The index of the oldest statement by a departed verifier, or the length if there is none. */
  function FirstDeparted(list: Statements, trusted: seq<Address>): (i: nat)
    ensures i <= |list| && forall j :: 0 <= j < i ==> list[j].verifier in trusted
    ensures i < |list| ==> list[i].verifier !in trusted
  {
    if list == [] then 0
    else
      var n := |list| - 1;
      var i := FirstDeparted(list[..n], trusted);
      if i == n && list[n].verifier in trusted then n + 1 else i
  }

  /** The index of the oldest lapsed statement, or the length if there is none. */
  function FirstLapsed(list: Statements, now: Timestamp): (i: nat)
    ensures i <= |list| && forall j :: 0 <= j < i ==> EffectiveStatus(list[j], now) != Expired
    ensures i < |list| ==> EffectiveStatus(list[i], now) == Expired
  {
    if list == [] then 0
    else
      var n := |list| - 1;
      var i := FirstLapsed(list[..n], now);
      if i == n && EffectiveStatus(list[n], now) != Expired then n + 1 else i
  }

  function Drop(list: Statements, i: nat): Statements
    requires i < |list|
  {
    list[..i] + list[i + 1..]
  }

  /** Free a slot: the oldest statement of a departed verifier, failing that the oldest lapsed one,
      failing that refuse. */
  function Evict(list: Statements, trusted: seq<Address>, now: Timestamp): Result<Statements> {
    if FirstDeparted(list, trusted) < |list| then Ok(Drop(list, FirstDeparted(list, trusted)))
    else if FirstLapsed(list, now) < |list| then Ok(Drop(list, FirstLapsed(list, now)))
    else Err(InvalidTransition)
  }

  method EvictOneSlot(list: Statements, trusted: seq<Address>, now: Timestamp) returns (r: Result<Statements>)
    ensures r == Evict(list, trusted, now)
  {
    var victim := None;
    for i := 0 to |list|
      invariant victim == None && forall j :: 0 <= j < i ==> list[j].verifier in trusted
    {
      if list[i].verifier !in trusted { victim := Some(i); break; }
    }
    assert victim == if FirstDeparted(list, trusted) < |list| then Some(FirstDeparted(list, trusted)) else None;
    if victim == None {
      for i := 0 to |list|
        invariant victim == None && forall j :: 0 <= j < i ==> EffectiveStatus(list[j], now) != Expired
      {
        if EffectiveStatus(list[i], now) == Expired { victim := Some(i); break; }
      }
      assert victim == if FirstLapsed(list, now) < |list| then Some(FirstLapsed(list, now)) else None;
    }
    if victim == None { return Err(InvalidTransition); }
    var kept := Keep(list, victim.value);
    return Ok(kept);
  }

  method Keep(list: Statements, victim: nat) returns (kept: Statements)
    requires victim < |list|
    ensures kept == Drop(list, victim)
  {
    kept := [];
    for i := 0 to |list|
      invariant kept == if i <= victim then list[..i] else list[..victim] + list[victim + 1..i]
    {
      if i != victim { kept := kept + [list[i]]; }
    }
  }

  // ----- the pigeonhole -----

  ghost function Speakers(list: Statements, t: VType): set<Address> {
    set a | a in list && a.vType == t :: a.verifier
  }

  lemma SpeakersStep(prior: Statements, last: Attestation, t: VType)
    requires OneVoiceEach(prior + [last])
    ensures |Speakers(prior + [last], t)| == |Speakers(prior, t)| + if last.vType == t then 1 else 0
  {
    var list := prior + [last];
    assert forall a :: a in list <==> a in prior || a == last;
    if last.vType == t {
      forall a | a in prior && a.vType == t ensures a.verifier != last.verifier {
        var i :| 0 <= i < |prior| && prior[i] == a;
        assert list[i] == a && list[|prior|] == last;
      }
      assert Speakers(list, t) == Speakers(prior, t) + {last.verifier};
    } else {
      assert Speakers(list, t) == Speakers(prior, t);
    }
  }

  lemma {:induction false} ListIsItsSpeakers(list: Statements)
    requires OneVoiceEach(list)
    ensures |list|
            == |Speakers(list, DocumentHash)| + |Speakers(list, BusinessRegistration)| + |Speakers(list, TaxCompliance)|
  {
    hide Speakers;
    if list == [] {
      NoSpeakers(DocumentHash);
      NoSpeakers(BusinessRegistration);
      NoSpeakers(TaxCompliance);
    } else {
      var n := |list| - 1;
      ListIsItsSpeakers(list[..n]);
      assert list == list[..n] + [list[n]];
      SpeakersStep(list[..n], list[n], DocumentHash);
      SpeakersStep(list[..n], list[n], BusinessRegistration);
      SpeakersStep(list[..n], list[n], TaxCompliance);
    }
  }

  lemma NoSpeakers(t: VType)
    ensures Speakers([], t) == {}
  {
  }

  lemma {:induction false} AtMostLength(s: seq<Address>)
    ensures |Elements(s)| <= |s|
  {
    if s == [] {
      assert Elements(s) == {};
    } else {
      AtMostLength(s[1..]);
      assert Elements(s) == Elements(s[1..]) + {s[0]};
    }
  }

  lemma {:induction false} SubsetSize<T>(a: set<T>, b: set<T>)
    requires a <= b
    ensures |a| <= |b|
  {
    if a != {} {
      var x :| x in a;
      SubsetSize(a - {x}, b - {x});
    }
  }

  /** A list of statements by trusted verifiers that lacks one trusted verifier's statement on one
      type cannot reach three times the verifier cap. */
  lemma Pigeonhole(list: Statements, trusted: seq<Address>, n: nat, v: Address, t: VType)
    requires OneVoiceEach(list) && |trusted| <= n && v in trusted
    requires forall a :: a in list ==> a.verifier in trusted && !(a.verifier == v && a.vType == t)
    ensures |list| < 3 * n
  {
    ListIsItsSpeakers(list);
    AtMostLength(trusted);
    var everyone := Elements(trusted);
    forall u: VType ensures |Speakers(list, u)| <= |if u == t then everyone - {v} else everyone| {
      assert v !in Speakers(list, t);
      SubsetSize(Speakers(list, u), if u == t then everyone - {v} else everyone);
    }
    assert |everyone - {v}| < |everyone|;
  }

  /** When a list without the incoming verifier's own statement is full, the eviction always finds a
      departed verifier's record: the lapsed pass and the refusal are out of reach. */
  lemma EvictionFindsDeparted(list: Statements, trusted: seq<Address>, n: nat, v: Address, t: VType)
    requires OneVoiceEach(list) && |trusted| <= n && v in trusted && |list| >= 3 * n
    requires forall a :: a in list ==> !(a.verifier == v && a.vType == t)
    ensures FirstDeparted(list, trusted) < |list|
  {
    if FirstDeparted(list, trusted) == |list| {
      Pigeonhole(list, trusted, n, v, t);
    }
  }

  lemma {:induction false} CountConcat(a: Statements, b: Statements, trusted: seq<Address>, t: VType, now: Timestamp,
                                       st: VStatus)
    ensures Count(a + b, trusted, t, now, st) == Count(a, trusted, t, now, st) + Count(b, trusted, t, now, st)
  {
    if b == [] {
      assert a + b == a;
    } else {
      var n := |b| - 1;
      CountConcat(a, b[..n], trusted, t, now, st);
      assert (a + b)[..|a + b| - 1] == a + b[..n];
    }
  }

  lemma HeardConcat(a: Statements, b: Statements, trusted: seq<Address>, t: VType)
    ensures Heard(a + b, trusted, t) == (Heard(a, trusted, t) || Heard(b, trusted, t))
  {
    if Heard(a, trusted, t) {
      var i :| 0 <= i < |a| && Speaks(a[i], trusted, t);
      assert Speaks((a + b)[i], trusted, t);
    }
    if Heard(b, trusted, t) {
      var i :| 0 <= i < |b| && Speaks(b[i], trusted, t);
      assert Speaks((a + b)[|a| + i], trusted, t);
    }
  }

  /** Dropping a statement that does not speak to a type moves no verdict on it, now or ever. */
  lemma DropIsSilent(list: Statements, i: nat, trusted: seq<Address>, t: VType, threshold: nat, now: Timestamp)
    requires i < |list| && !Speaks(list[i], trusted, t)
    ensures StatusOf(Drop(list, i), trusted, t, threshold, now) == StatusOf(list, trusted, t, threshold, now)
  {
    var a, b := list[..i], list[i + 1..];
    assert list == a + [list[i]] + b;
    forall st: VStatus ensures Count(Drop(list, i), trusted, t, now, st) == Count(list, trusted, t, now, st) {
      CountConcat(a, b, trusted, t, now, st);
      CountConcat(a + [list[i]], b, trusted, t, now, st);
      CountConcat(a, [list[i]], trusted, t, now, st);
      assert Count([list[i]], trusted, t, now, st) == 0;
    }
    HeardConcat(a, b, trusted, t);
    HeardConcat(a + [list[i]], b, trusted, t);
    HeardConcat(a, [list[i]], trusted, t);
  }

  // ----- recording the lapse -----

  function Expire(a: Attestation, now: Timestamp): Attestation {
    if EffectiveStatus(a, now) == Expired then a.(status := Expired) else a
  }

  function ExpireAll(list: Statements, now: Timestamp): Statements {
    seq(|list|, i requires 0 <= i < |list| => Expire(list[i], now))
  }

  predicate NewlyLapsed(a: Attestation, now: Timestamp) {
    EffectiveStatus(a, now) == Expired && a.status != Expired
  }

  function Lapses(list: Statements, now: Timestamp): nat {
    if list == [] then 0
    else Lapses(list[..|list| - 1], now) + if NewlyLapsed(list[|list| - 1], now) then 1 else 0
  }

  /** Recording a lapse changes no verdict at that time or any later one. */
  lemma {:induction false} ExpireCounts(list: Statements, trusted: seq<Address>, t: VType, now: Timestamp,
                                        later: Timestamp, st: VStatus)
    requires now <= later
    ensures Count(ExpireAll(list, now), trusted, t, later, st) == Count(list, trusted, t, later, st)
  {
    if list != [] {
      var n := |list| - 1;
      ExpireCounts(list[..n], trusted, t, now, later, st);
      assert ExpireAll(list, now)[..n] == ExpireAll(list[..n], now);
    }
  }

  lemma ExpireKeepsVerdicts(list: Statements, trusted: seq<Address>, t: VType, threshold: nat, now: Timestamp,
                            later: Timestamp)
    requires now <= later
    ensures StatusOf(ExpireAll(list, now), trusted, t, threshold, later) == StatusOf(list, trusted, t, threshold, later)
  {
    forall st: VStatus
      ensures Count(ExpireAll(list, now), trusted, t, later, st) == Count(list, trusted, t, later, st)
    {
      ExpireCounts(list, trusted, t, now, later, st);
    }
    assert forall i :: 0 <= i < |list| ==> Speaks(ExpireAll(list, now)[i], trusted, t) == Speaks(list[i], trusted, t);
    assert Heard(ExpireAll(list, now), trusted, t) == Heard(list, trusted, t);
  }

  /** Poking twice at the same time records nothing the second time. */
  lemma {:induction false} ExpireOnce(list: Statements, now: Timestamp)
    ensures Lapses(ExpireAll(list, now), now) == 0
    ensures ExpireAll(ExpireAll(list, now), now) == ExpireAll(list, now)
    ensures Lapses(list, now) == 0 ==> ExpireAll(list, now) == list
  {
    if list != [] {
      var n := |list| - 1;
      ExpireOnce(list[..n], now);
      assert ExpireAll(list, now)[..n] == ExpireAll(list[..n], now);
      if Lapses(list, now) == 0 {
        assert list == list[..n] + [list[n]];
        assert ExpireAll(list, now) == ExpireAll(list[..n], now) + [Expire(list[n], now)];
      }
    }
  }
}
