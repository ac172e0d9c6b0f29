/** What an attestation, a change of the verifier set and a recorded lapse mean for the verdicts, told
    by who says what and until when. */
module OracleVerdicts {
  import opened Base
  import opened Ledger
  import opened Attestations
  import opened OracleSteps
  import opened OracleRuns

  // ----- one attestation -----

  /** The only statement of a verifier on a type speaks for it. */
  lemma OwnVoice(room: Statements, a: Attestation, trusted: seq<Address>, later: Timestamp, st: VStatus)
    requires a.verifier in trusted
    requires forall x :: x in room ==> !(x.verifier == a.verifier && x.vType == a.vType)
    ensures a.verifier in Voices(room + [a], trusted, a.vType, later, st) <==> EffectiveStatus(a, later) == st
  {
    var list := room + [a];
    assert list[|room|] == a;
    assert a in list;
    assert forall x :: x in list ==> x in room || x == a;
  }

  /** An attestation says what its verifier meant: while it is valid the verifier is among those who
      approve exactly when it approved, and among those who reject exactly when it did not; afterwards it
      is among the lapsed, and nowhere else. */
  lemma AttestSpeaks(s: Oracle, invoice: Symbol, v: Address, t: VType, hash: nat, approved: bool, now: Timestamp,
                     cap: nat, later: Timestamp)
    requires Sound(s, cap) && v in s.verifiers
    ensures var r := Attest(s, invoice, Open, true, v, t, hash, approved, now, cap);
            && r.Ok?
            && var list := ListOf(r.value.0, invoice);
               && (v in Voices(list, s.verifiers, t, later, Verified) <==> approved && later <= now + s.validity)
               && (v in Voices(list, s.verifiers, t, later, Rejected) <==> !approved && later <= now + s.validity)
               && (v in Voices(list, s.verifiers, t, later, Expired) <==> later > now + s.validity)
  {
    hide Without, Admit, OneVoiceEach, SoundList, Voices;
    var list := ListOf(s, invoice);
    assert SoundList(list, cap) by { ListIsSound(s, invoice, cap); }
    RoomKeeps(s, list, v, t, now, cap);
    var room := Admit(s, Without(list, v, t), now, cap).value;
    var a := NewAttestation(s, v, t, hash, approved, now);
    OwnVoice(room, a, s.verifiers, later, Verified);
    OwnVoice(room, a, s.verifiers, later, Rejected);
    OwnVoice(room, a, s.verifiers, later, Expired);
  }

  lemma ListIsSound(s: Oracle, invoice: Symbol, cap: nat)
    requires Sound(s, cap)
    ensures SoundList(ListOf(s, invoice), cap)
  {
  }

  /** Everybody else keeps the voice it had. */
  lemma OthersKeepTheirVoice(s: Oracle, invoice: Symbol, v: Address, t: VType, hash: nat, approved: bool,
                             now: Timestamp, cap: nat, later: Timestamp, st: VStatus)
    requires Sound(s, cap) && v in s.verifiers
    ensures var r := Attest(s, invoice, Open, true, v, t, hash, approved, now, cap);
            && r.Ok?
            && Voices(ListOf(r.value.0, invoice), s.verifiers, t, later, st) - {v}
               == Voices(ListOf(s, invoice), s.verifiers, t, later, st) - {v}
  {
    hide Voices, Attest, Sound;
    AttestMovesOneVoice(s, invoice, v, t, hash, approved, now, cap, later, st);
  }

  /** So while it is valid a disapproval rejects its type whatever the others say, and an approval
      verifies it exactly when nobody else rejects and the others who approve reach the threshold with
      it. */
  lemma AttestDecides(s: Oracle, invoice: Symbol, v: Address, t: VType, hash: nat, approved: bool, now: Timestamp,
                      cap: nat, later: Timestamp)
    requires Sound(s, cap) && v in s.verifiers && later <= now + s.validity
    ensures var r := Attest(s, invoice, Open, true, v, t, hash, approved, now, cap);
            && r.Ok?
            && var verdict := StatusOf(ListOf(r.value.0, invoice), s.verifiers, t, s.threshold, later);
               var yes, no := Voices(ListOf(s, invoice), s.verifiers, t, later, Verified) - {v},
                              Voices(ListOf(s, invoice), s.verifiers, t, later, Rejected) - {v};
               && (!approved ==> verdict == Rejected)
               && (approved ==> (verdict == Rejected <==> no != {}))
               && (approved ==> (verdict == Verified <==> no == {} && |yes| + 1 >= s.threshold))
  {
    SetsFit(s, cap);
    hide Voices, Attest, StatusOf, Sound, SoundList;
    SubmitKeeps(s, invoice, v, t, hash, approved, now, cap);
    var s' := Attest(s, invoice, Open, true, v, t, hash, approved, now, cap).value.0;
    var list := ListOf(s', invoice);
    AttestSpeaks(s, invoice, v, t, hash, approved, now, cap, later);
    OthersKeepTheirVoice(s, invoice, v, t, hash, approved, now, cap, later, Verified);
    OthersKeepTheirVoice(s, invoice, v, t, hash, approved, now, cap, later, Rejected);
    VerdictOf(s', s.verifiers, s.threshold, invoice, t, later, cap);
    WithOne(Voices(list, s.verifiers, t, later, Verified), v);
    WithOne(Voices(list, s.verifiers, t, later, Rejected), v);
  }

  lemma SetsFit(s: Oracle, cap: nat)
    requires Sound(s, cap)
    ensures s.threshold > 0
  {
  }

  lemma WithOne(voices: set<Address>, v: Address)
    ensures |voices - {v}| == |voices| - if v in voices then 1 else 0
    ensures v in voices ==> voices != {}
    ensures v !in voices ==> voices - {v} == voices
  {
  }

  /** The verdict on a type of a sound list, by voices. */
  lemma VerdictOf(s: Oracle, trusted: seq<Address>, threshold: nat, invoice: Symbol, t: VType, now: Timestamp, cap: nat)
    requires Sound(s, cap) && threshold > 0
    ensures var list := ListOf(s, invoice);
            var verdict := StatusOf(list, trusted, t, threshold, now);
            && (verdict == Rejected <==> Voices(list, trusted, t, now, Rejected) != {})
            && (verdict == Verified <==> Voices(list, trusted, t, now, Rejected) == {}
                                         && |Voices(list, trusted, t, now, Verified)| >= threshold)
            && (verdict == Expired <==> Voices(list, trusted, t, now, Rejected) == {}
                                        && Voices(list, trusted, t, now, Verified) == {}
                                        && Voices(list, trusted, t, now, Expired) != {})
  {
    hide Voices, StatusOf;
    ListIsSound(s, invoice, cap);
    VerdictByVoices(ListOf(s, invoice), trusted, t, threshold, now);
  }

  // ----- the whole invoice -----

  ghost function Saying(s: Oracle, invoice: Symbol, t: VType, now: Timestamp, st: VStatus): set<Address> {
    Voices(ListOf(s, invoice), s.verifiers, t, now, st)
  }

  /** Somebody rejects some type. */
  ghost predicate Objected(s: Oracle, invoice: Symbol, now: Timestamp) {
    exists t: VType :: Saying(s, invoice, t, now, Rejected) != {}
  }

  ghost predicate Endorsed(s: Oracle, invoice: Symbol, now: Timestamp) {
    forall t: VType :: |Saying(s, invoice, t, now, Verified)| >= s.threshold
  }

  /** On some type there is nothing left but lapsed statements. */
  ghost predicate LapsedOnly(s: Oracle, invoice: Symbol, now: Timestamp) {
    exists t: VType :: LapsedOn(s, invoice, now, t)
  }

  ghost predicate LapsedOn(s: Oracle, invoice: Symbol, now: Timestamp, t: VType) {
    Saying(s, invoice, t, now, Verified) == {} && Saying(s, invoice, t, now, Expired) != {}
  }

  /** The whole invoice: rejected exactly when somebody's live statement rejects one of the three types;
      verified exactly when nobody does and on each of them enough verifiers approve; expired exactly when
      neither, and some type has nothing left but lapsed statements; pending otherwise. */
  lemma InvoiceByVoices(s: Oracle, invoice: Symbol, now: Timestamp, cap: nat)
    requires Sound(s, cap)
    ensures InvoiceVerdict(s, invoice, now)
            == if Objected(s, invoice, now) then Rejected
               else if Endorsed(s, invoice, now) then Verified
               else if LapsedOnly(s, invoice, now) then Expired
               else Pending
  {
    hide StatusOf, Voices;
    SetsFit(s, cap);
    hide Sound;
    VerdictOf(s, s.verifiers, s.threshold, invoice, DocumentHash, now, cap);
    VerdictOf(s, s.verifiers, s.threshold, invoice, BusinessRegistration, now, cap);
    VerdictOf(s, s.verifiers, s.threshold, invoice, TaxCompliance, now, cap);
    EachType(s, invoice, now, DocumentHash);
    EachType(s, invoice, now, BusinessRegistration);
    EachType(s, invoice, now, TaxCompliance);
    SomeType(s, invoice, now);
    hide Objected, Endorsed, LapsedOnly;
  }

  lemma SomeType(s: Oracle, invoice: Symbol, now: Timestamp)
    ensures Objected(s, invoice, now) ==>
              || Saying(s, invoice, DocumentHash, now, Rejected) != {}
              || Saying(s, invoice, BusinessRegistration, now, Rejected) != {}
              || Saying(s, invoice, TaxCompliance, now, Rejected) != {}
    ensures LapsedOnly(s, invoice, now) ==>
              || LapsedOn(s, invoice, now, DocumentHash) || LapsedOn(s, invoice, now, BusinessRegistration)
              || LapsedOn(s, invoice, now, TaxCompliance)
    ensures !Endorsed(s, invoice, now) ==>
              || |Saying(s, invoice, DocumentHash, now, Verified)| < s.threshold
              || |Saying(s, invoice, BusinessRegistration, now, Verified)| < s.threshold
              || |Saying(s, invoice, TaxCompliance, now, Verified)| < s.threshold
  {
    hide Saying;
    if Objected(s, invoice, now) {
      var t: VType :| Saying(s, invoice, t, now, Rejected) != {};
      match t case DocumentHash => case BusinessRegistration => case TaxCompliance =>
    }
    if LapsedOnly(s, invoice, now) {
      var t: VType :| LapsedOn(s, invoice, now, t);
      match t case DocumentHash => case BusinessRegistration => case TaxCompliance =>
    }
    if !Endorsed(s, invoice, now) {
      var t: VType :| |Saying(s, invoice, t, now, Verified)| < s.threshold;
      match t case DocumentHash => case BusinessRegistration => case TaxCompliance =>
    }
  }

  lemma EachType(s: Oracle, invoice: Symbol, now: Timestamp, t: VType)
    ensures Saying(s, invoice, t, now, Rejected) != {} ==> Objected(s, invoice, now)
    ensures Endorsed(s, invoice, now) ==> |Saying(s, invoice, t, now, Verified)| >= s.threshold
    ensures LapsedOn(s, invoice, now, t) ==> LapsedOnly(s, invoice, now)
  {
  }

  // ----- who is trusted, and what is taken down -----

  /** A verifier can be added exactly while there is room or it is trusted already, and then it is trusted
      besides those who were; a removal withdraws exactly the one; neither touches anything else. */
  lemma TrustMoves(s: Oracle, v: Address, cap: nat)
    requires Sound(s, cap)
    ensures AddVerifier(s, v, cap).Ok? <==> v in s.verifiers || |Elements(s.verifiers)| < cap
    ensures AddVerifier(s, v, cap).Ok? ==>
              var t := AddVerifier(s, v, cap).value;
              Elements(t.verifiers) == Elements(s.verifiers) + {v} && t == s.(verifiers := t.verifiers)
    ensures var t := RemoveVerifier(s, v);
            Elements(t.verifiers) == Elements(s.verifiers) - {v} && t == s.(verifiers := t.verifiers)
  {
    DistinctElements(s.verifiers);
  }

  /** The threshold lies within the verifier cap, the validity between a day and a year; each is set alone. */
  lemma SettingsMove(s: Oracle, n: nat, cap: nat)
    ensures SetThreshold(s, n, cap).Ok? <==> 1 <= n <= cap
    ensures SetThreshold(s, n, cap).Ok? ==> SetThreshold(s, n, cap).value == s.(threshold := n)
    ensures SetValidity(s, n).Ok? <==> 86_400 <= n <= 31_536_000
    ensures SetValidity(s, n).Ok? ==> SetValidity(s, n).value == s.(validity := n)
  {
  }

  lemma {:induction false} DistinctElements(s: seq<Address>)
    requires Distinct(s)
    ensures |Elements(s)| == |s|
  {
    if s != [] {
      var n := |s| - 1;
      assert s == s[..n] + [s[n]] && s[n] !in s[..n];
      DistinctElements(s[..n]);
      assert Elements(s) == Elements(s[..n]) + {s[n]};
    } else {
      assert Elements(s) == {};
    }
  }

  /** An attestation commits exactly for a trusted verifier on an open invoice whose fee is paid. It is
      taken down as made, in place of what the same verifier said of the same type, on this invoice only. */
  lemma AttestCommitsIff(s: Oracle, invoice: Symbol, standing: Standing, feePaid: bool, v: Address, t: VType, hash: nat,
                         approved: bool, now: Timestamp, cap: nat, other: Symbol)
    requires Sound(s, cap)
    ensures var r := Attest(s, invoice, standing, feePaid, v, t, hash, approved, now, cap);
            && (r.Ok? <==> v in s.verifiers && standing == Open && feePaid)
            && (r.Ok? ==>
                  && r.value.0 == s.(lists := r.value.0.lists)
                  && (other != invoice ==> ListOf(r.value.0, other) == ListOf(s, other))
                  && (exists a :: a in ListOf(r.value.0, invoice) && a.verifier == v && a.vType == t)
                  && forall a :: a in ListOf(r.value.0, invoice) && a.verifier == v && a.vType == t ==>
                       a.hash == hash && a.timestamp == now)
  {
    var list := ListOf(s, invoice);
    ListIsSound(s, invoice, cap);
    hide Without, Admit, OneVoiceEach, SoundList;
    if v in s.verifiers {
      RoomKeeps(s, list, v, t, now, cap);
      var room := Admit(s, Without(list, v, t), now, cap).value;
      var a := NewAttestation(s, v, t, hash, approved, now);
      assert (room + [a])[|room|] == a;
      assert forall x :: x in room + [a] ==> x in room || x == a;
    }
  }

  /** A refused call is told why, truthfully: not trusted, no such invoice, not open, the fee not paid, out of
      limits, or nothing attested. */
  lemma RefusalsTell(s: Oracle, invoice: Symbol, standing: Standing, feePaid: bool, v: Address, t: VType, hash: nat,
                     approved: bool, n: nat, now: Timestamp, cap: nat)
    requires Sound(s, cap)
    ensures var r := Attest(s, invoice, standing, feePaid, v, t, hash, approved, now, cap);
            r.Err? ==>
              match r.error
              case Unauthorized => v !in s.verifiers
              case NotFound => standing == Missing
              case InvalidTransition => standing == Closed
              case Trap => !feePaid
              case _ => false
    ensures AddVerifier(s, v, cap).Err? ==> AddVerifier(s, v, cap).error == InvalidInput
    ensures SetThreshold(s, n, cap).Err? ==> SetThreshold(s, n, cap).error == InvalidInput
    ensures SetValidity(s, n).Err? ==> SetValidity(s, n).error == InvalidInput
    ensures ExpireVerifications(s, invoice, now).Err? ==> ExpireVerifications(s, invoice, now).error == NotFound
  {
    AttestCommitsIff(s, invoice, standing, feePaid, v, t, hash, approved, now, cap, invoice);
    if v in s.verifiers {
      ListIsSound(s, invoice, cap);
      RoomKeeps(s, ListOf(s, invoice), v, t, now, cap);
    }
    hide Without, Admit, Sound;
  }

  /** The positions of the statements that have lapsed without being marked. */
  ghost function Unmarked(list: Statements, now: Timestamp): set<nat> {
    set i | 0 <= i < |list| && list[i].status != Expired && now > list[i].validUntil
  }

  lemma {:induction false} LapsesAreUnmarked(list: Statements, now: Timestamp)
    ensures Lapses(list, now) == |Unmarked(list, now)|
  {
    if list == [] {
      assert Unmarked(list, now) == {};
    } else {
      var n := |list| - 1;
      LapsesAreUnmarked(list[..n], now);
      assert Unmarked(list, now) == Unmarked(list[..n], now) + if n in Unmarked(list, now) then {n} else {};
    }
  }

  /** Recording lapses is possible wherever something was attested. It marks exactly the statements past
      their deadline, in place, and returns how many it marked. */
  lemma ExpiryMarks(s: Oracle, invoice: Symbol, now: Timestamp)
    ensures var list := ListOf(s, invoice);
            var r := ExpireVerifications(s, invoice, now);
            && (r.Ok? <==> list != [])
            && (r.Ok? ==>
                  var after := ListOf(r.value.0, invoice);
                  && r.value.1 == |Unmarked(list, now)|
                  && |after| == |list|
                  && (forall i :: 0 <= i < |list| ==>
                        after[i] == if i in Unmarked(list, now) then list[i].(status := Expired) else list[i])
                  && (forall other :: other != invoice ==> ListOf(r.value.0, other) == ListOf(s, other))
                  && r.value.0 == s.(lists := r.value.0.lists))
  {
    LapsesAreUnmarked(ListOf(s, invoice), now);
    ExpireOnce(ListOf(s, invoice), now);
    hide Lapses;
  }
}
