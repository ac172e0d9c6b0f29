/** What every run of the oracle keeps, for any verifier cap. */
module OracleRuns {
  import opened Base
  import opened Ledger
  import opened Attestations
  import opened OracleSteps

  datatype Op =
    | Add(v: Address)
    | Remove(v: Address)
    | Threshold(k: nat)
    | Validity(secs: nat)
    | Submit(invoice: Symbol, standing: Standing, feePaid: bool, v: Address, t: VType, hash: nat, approved: bool)
    | Poke(invoice: Symbol)
    | Tick(secs: nat)

  datatype World = World(oracle: Oracle, now: Timestamp)

  ghost function Apply(s: Oracle, op: Op, now: Timestamp, cap: nat): Result<Oracle> {
    match op
    case Add(v) => AddVerifier(s, v, cap)
    case Remove(v) => Ok(RemoveVerifier(s, v))
    case Threshold(k) => SetThreshold(s, k, cap)
    case Validity(secs) => SetValidity(s, secs)
    case Submit(i, st, fee, v, t, h, yes) =>
      (match Attest(s, i, st, fee, v, t, h, yes, now, cap) case Ok(p) => Ok(p.0) case Err(e) => Err(e))
    case Poke(i) => (match ExpireVerifications(s, i, now) case Ok(p) => Ok(p.0) case Err(e) => Err(e))
    case Tick(_) => Ok(s)
  }

  ghost function Step(w: World, op: Op, cap: nat): World {
    match Apply(w.oracle, op, w.now, cap)
    case Ok(s) => World(s, if op.Tick? then SaturatingAdd(w.now, op.secs) else w.now)
    case Err(_) => w
  }

  ghost function Run(w: World, ops: seq<Op>, cap: nat): World
    decreases |ops|
  {
    if ops == [] then w else Run(Step(w, ops[0], cap), ops[1..], cap)
  }

  ghost predicate SoundList(list: Statements, cap: nat) {
    |list| <= 3 * cap && OneVoiceEach(list) && forall a :: a in list ==> a.status != Pending
  }

  ghost predicate Sound(s: Oracle, cap: nat) {
    && Distinct(s.verifiers)
    && |s.verifiers| <= cap
    && s.threshold > 0
    && forall i :: i in s.lists ==> SoundList(s.lists[i], cap)
  }

  lemma {:induction false} ExcludingDistinct(vs: seq<Address>, v: Address)
    requires Distinct(vs)
    ensures Distinct(Excluding(vs, v))
  {
    if vs != [] {
      var n := |vs| - 1;
      ExcludingDistinct(vs[..n], v);
      assert vs[n] !in vs[..n];
      DistinctAppend(Excluding(vs[..n], v), vs[n]);
      assert Excluding(vs[..n], v) + [] == Excluding(vs[..n], v);
    }
  }

  lemma DropKeepsVoices(list: Statements, i: nat)
    requires i < |list| && OneVoiceEach(list)
    ensures OneVoiceEach(Drop(list, i)) && |Drop(list, i)| == |list| - 1
    ensures forall a :: a in Drop(list, i) ==> a in list
  {
  }

  /** The slot the incoming statement takes: a trusted verifier is never refused for lack of room,
      and what is evicted is a departed verifier's statement. */
  lemma AdmitsTrusted(s: Oracle, list: Statements, v: Address, t: VType, now: Timestamp, cap: nat)
    requires Sound(s, cap) && SoundList(list, cap) && v in s.verifiers
    ensures var kept := Without(list, v, t);
            && OneVoiceEach(kept)
            && (|kept| >= 3 * cap ==> FirstDeparted(kept, s.verifiers) < |kept|)
            && Admit(s, kept, now, cap)
               == Ok(if |kept| >= 3 * cap then Drop(kept, FirstDeparted(kept, s.verifiers)) else kept)
  {
    WithoutKeepsVoices(list, v, t);
    var kept := Without(list, v, t);
    if |kept| >= 3 * cap {
      EvictionFindsDeparted(kept, s.verifiers, cap, v, t);
    }
  }

  lemma AppendVoice(kept: Statements, a: Attestation)
    requires OneVoiceEach(kept)
    requires forall x :: x in kept ==> !(x.verifier == a.verifier && x.vType == a.vType)
    ensures OneVoiceEach(kept + [a])
  {
    forall i | 0 <= i < |kept| ensures kept[i].verifier != a.verifier || kept[i].vType != a.vType {
      assert kept[i] in kept;
    }
  }

  /** What is left of a list once there is room for the incoming statement. */
  lemma RoomKeeps(s: Oracle, list: Statements, v: Address, t: VType, now: Timestamp, cap: nat)
    requires Sound(s, cap) && SoundList(list, cap) && v in s.verifiers
    ensures Admit(s, Without(list, v, t), now, cap).Ok?
    ensures var room := Admit(s, Without(list, v, t), now, cap).value;
            && OneVoiceEach(room) && |room| < 3 * cap
            && (forall x :: x in room ==> x in list && !(x.verifier == v && x.vType == t))
  {
    hide Without, Admit, FirstDeparted, OneVoiceEach;
    AdmitsTrusted(s, list, v, t, now, cap);
    var kept := Without(list, v, t);
    if |kept| >= 3 * cap {
      var i := FirstDeparted(kept, s.verifiers);
      DropKeepsVoices(kept, i);
      assert forall x :: x in Drop(kept, i) ==> x in kept;
    }
  }

  lemma WithStatement(room: Statements, a: Attestation, list: Statements, cap: nat)
    requires SoundList(list, cap) && OneVoiceEach(room) && |room| < 3 * cap && a.status != Pending
    requires forall x :: x in room ==> x in list && !(x.verifier == a.verifier && x.vType == a.vType)
    ensures SoundList(room + [a], cap)
  {
    AppendVoice(room, a);
    hide OneVoiceEach;
    assert forall x :: x in room + [a] ==> x == a || x in list;
  }

  lemma SubmitKeeps(s: Oracle, invoice: Symbol, v: Address, t: VType, hash: nat, approved: bool, now: Timestamp,
                    cap: nat)
    requires Sound(s, cap) && v in s.verifiers
    ensures var r := Attest(s, invoice, Open, true, v, t, hash, approved, now, cap);
            r.Ok? && Sound(r.value.0, cap)
  {
    var list := ListOf(s, invoice);
    assert SoundList(list, cap);
    hide Without, Admit, OneVoiceEach, SoundList;
    RoomKeeps(s, list, v, t, now, cap);
    var room := Admit(s, Without(list, v, t), now, cap).value;
    WithStatement(room, NewAttestation(s, v, t, hash, approved, now), list, cap);
  }

  lemma PokeKeeps(s: Oracle, invoice: Symbol, now: Timestamp, cap: nat)
    requires Sound(s, cap) && ExpireVerifications(s, invoice, now).Ok?
    ensures Sound(ExpireVerifications(s, invoice, now).value.0, cap)
  {
    var list := ListOf(s, invoice);
    assert invoice in s.lists && SoundList(list, cap);
    var lapsed := ExpireAll(list, now);
    forall i, j | 0 <= i < j < |list|
      ensures lapsed[i].verifier != lapsed[j].verifier || lapsed[i].vType != lapsed[j].vType
    {
      assert lapsed[i].verifier == list[i].verifier && lapsed[j].verifier == list[j].verifier;
    }
    forall a | a in lapsed ensures a.status != Pending {
      var i :| 0 <= i < |list| && lapsed[i] == a;
      assert list[i] in list;
    }
    assert SoundList(lapsed, cap);
  }

  lemma StepKeeps(w: World, op: Op, cap: nat)
    requires Sound(w.oracle, cap)
    ensures Sound(Step(w, op, cap).oracle, cap)
  {
    if Apply(w.oracle, op, w.now, cap).Ok? {
      match op
      case Add(v) => if v !in w.oracle.verifiers { DistinctAppend(w.oracle.verifiers, v); }
      case Remove(v) => ExcludingDistinct(w.oracle.verifiers, v);
      case Submit(i, st, fee, v, t, h, yes) =>
        assert st == Open && fee && v in w.oracle.verifiers;
        SubmitKeeps(w.oracle, i, v, t, h, yes, w.now, cap);
      case Poke(i) => PokeKeeps(w.oracle, i, w.now, cap);
      case _ =>
    }
  }

  /** In every reachable state the verifier set is duplicate-free and within its cap, and every list
      holds at most one statement per verifier and type and at most three per slot of the cap. */
  lemma {:induction false} RunKeeps(w: World, ops: seq<Op>, cap: nat)
    requires Sound(w.oracle, cap)
    ensures Sound(Run(w, ops, cap).oracle, cap)
    decreases |ops|
  {
    if ops != [] {
      StepKeeps(w, ops[0], cap);
      RunKeeps(Step(w, ops[0], cap), ops[1..], cap);
    }
  }

  /** The deployed caps satisfy the equation the argument rests on. */
  lemma DeployedCaps(w: World, ops: seq<Op>, v: Address, invoice: Symbol, t: VType, hash: nat, approved: bool)
    requires w.oracle == Oracle([], 1, 7_776_000, map[])
    ensures MAX_ATTESTATIONS == 3 * MAX_VERIFIERS == 60
    ensures var s := Run(w, ops, MAX_VERIFIERS);
            && Sound(s.oracle, MAX_VERIFIERS)
            && (forall i :: i in s.oracle.lists ==> |s.oracle.lists[i]| <= MAX_ATTESTATIONS)
            && (v in s.oracle.verifiers ==>
                 Attest(s.oracle, invoice, Open, true, v, t, hash, approved, s.now, MAX_VERIFIERS).Ok?)
  {
    RunKeeps(w, ops, MAX_VERIFIERS);
    var s := Run(w, ops, MAX_VERIFIERS);
    assert forall i :: i in s.oracle.lists ==> SoundList(s.oracle.lists[i], MAX_VERIFIERS);
    if v in s.oracle.verifiers {
      SubmitKeeps(s.oracle, invoice, v, t, hash, approved, s.now, MAX_VERIFIERS);
    }
  }

  // ----- what one attestation does to the verdicts -----

  lemma {:induction false} WithoutIsSilent(list: Statements, v: Address, t: VType, trusted: seq<Address>, u: VType,
                                           now: Timestamp, st: VStatus)
    requires u != t
    ensures Count(Without(list, v, t), trusted, u, now, st) == Count(list, trusted, u, now, st)
    ensures Heard(Without(list, v, t), trusted, u) == Heard(list, trusted, u)
  {
    hide Count, Heard;
    if list != [] {
      var n := |list| - 1;
      WithoutIsSilent(list[..n], v, t, trusted, u, now, st);
      assert list == list[..n] + [list[n]];
      Snoc(list[..n], list[n], trusted, u, now, st);
      Snoc(Without(list[..n], v, t), list[n], trusted, u, now, st);
    }
  }

  lemma WithoutKeepsStatus(list: Statements, v: Address, t: VType, trusted: seq<Address>, u: VType, threshold: nat,
                           now: Timestamp)
    requires u != t
    ensures StatusOf(Without(list, v, t), trusted, u, threshold, now) == StatusOf(list, trusted, u, threshold, now)
  {
    hide Count, Heard;
    WithoutIsSilent(list, v, t, trusted, u, now, Verified);
    WithoutIsSilent(list, v, t, trusted, u, now, Rejected);
    WithoutIsSilent(list, v, t, trusted, u, now, Expired);
  }

  /** In every state reachable from deployment the verdict on a type is decided by the distinct
      verifiers of the current set whose statement on it is live. */
  lemma ReachableVerdict(now: Timestamp, ops: seq<Op>, invoice: Symbol, t: VType)
    ensures var w := Run(World(Oracle([], 1, 7_776_000, map[]), now), ops, MAX_VERIFIERS); var s := w.oracle;
            var verdict := StatusOf(ListOf(s, invoice), s.verifiers, t, s.threshold, w.now);
            var yes := Voices(ListOf(s, invoice), s.verifiers, t, w.now, Verified);
            var no := Voices(ListOf(s, invoice), s.verifiers, t, w.now, Rejected);
            var lapsed := Voices(ListOf(s, invoice), s.verifiers, t, w.now, Expired);
            && (verdict == Rejected <==> no != {})
            && (verdict == Verified <==> no == {} && |yes| >= s.threshold)
            && (verdict == Expired <==> no == {} && yes == {} && lapsed != {})
  {
    hide StatusOf, Voices;
    var w := Run(World(Oracle([], 1, 7_776_000, map[]), now), ops, MAX_VERIFIERS);
    RunKeeps(World(Oracle([], 1, 7_776_000, map[]), now), ops, MAX_VERIFIERS);
    VerdictByVoices(ListOf(w.oracle, invoice), w.oracle.verifiers, t, w.oracle.threshold, w.now);
  }

  /** An attestation, whatever it replaces or evicts, moves no verdict on another type, at no time
      and for no threshold. */
  lemma AttestMovesOnlyItsType(s: Oracle, invoice: Symbol, v: Address, t: VType, hash: nat, approved: bool,
                               now: Timestamp, cap: nat, u: VType, threshold: nat, later: Timestamp)
    requires Sound(s, cap) && v in s.verifiers && u != t
    ensures var r := Attest(s, invoice, Open, true, v, t, hash, approved, now, cap);
            r.Ok? && StatusOf(ListOf(r.value.0, invoice), s.verifiers, u, threshold, later)
                     == StatusOf(ListOf(s, invoice), s.verifiers, u, threshold, later)
  {
    var list := ListOf(s, invoice);
    assert SoundList(list, cap);
    hide StatusOf, Without, Admit, SoundList, Sound;
    AdmissionIsSilent(s, list, v, t, now, cap, u, threshold, later);
    AppendIsSilent(Admit(s, Without(list, v, t), now, cap).value, NewAttestation(s, v, t, hash, approved, now),
                   s.verifiers, u, threshold, later);
  }

  /** Replacing the verifier's own statement and making room move no verdict on another type. */
  lemma AdmissionIsSilent(s: Oracle, list: Statements, v: Address, t: VType, now: Timestamp, cap: nat, u: VType,
                          threshold: nat, later: Timestamp)
    requires Sound(s, cap) && SoundList(list, cap) && v in s.verifiers && u != t
    ensures Admit(s, Without(list, v, t), now, cap).Ok?
    ensures StatusOf(Admit(s, Without(list, v, t), now, cap).value, s.verifiers, u, threshold, later)
         == StatusOf(list, s.verifiers, u, threshold, later)
  {
    hide StatusOf, Admit, OneVoiceEach, SoundList, Sound, Count, Heard;
    AdmitsTrusted(s, list, v, t, now, cap);
    WithoutKeepsStatus(list, v, t, s.verifiers, u, threshold, later);
    var kept := Without(list, v, t);
    hide Without;
    if |kept| >= 3 * cap {
      DepartedIsSilent(kept, s.verifiers, u, threshold, later);
    }
  }

  lemma DepartedIsSilent(kept: Statements, trusted: seq<Address>, u: VType, threshold: nat, later: Timestamp)
    requires FirstDeparted(kept, trusted) < |kept|
    ensures StatusOf(Drop(kept, FirstDeparted(kept, trusted)), trusted, u, threshold, later)
            == StatusOf(kept, trusted, u, threshold, later)
  {
    hide StatusOf, Drop;
    DropIsSilent(kept, FirstDeparted(kept, trusted), trusted, u, threshold, later);
  }

  /** A statement on another type at the end of the list moves no verdict. */
  lemma AppendIsSilent(room: Statements, a: Attestation, trusted: seq<Address>, u: VType, threshold: nat,
                       later: Timestamp)
    requires a.vType != u
    ensures StatusOf(room + [a], trusted, u, threshold, later) == StatusOf(room, trusted, u, threshold, later)
  {
    hide StatusOf;
    DropIsSilent(room + [a], |room|, trusted, u, threshold, later);
    assert Drop(room + [a], |room|) == room;
  }

  lemma DropKeepsTrustedVoices(list: Statements, i: nat, trusted: seq<Address>, t: VType, now: Timestamp, st: VStatus)
    requires i < |list| && list[i].verifier !in trusted
    ensures Voices(Drop(list, i), trusted, t, now, st) == Voices(list, trusted, t, now, st)
  {
    forall a | a in list && a.verifier in trusted ensures a in Drop(list, i) {
      var j :| 0 <= j < |list| && list[j] == a;
      assert if j < i then list[..i][j] == a else list[i + 1..][j - i - 1] == a;
    }
    assert forall a :: a in Drop(list, i) ==> a in list;
  }

  /** On its own type an attestation does exactly one thing: the verifier's voice moves from wherever
      it was to the new verdict, and every other verifier keeps its voice, at every later time. */
  lemma AttestMovesOneVoice(s: Oracle, invoice: Symbol, v: Address, t: VType, hash: nat, approved: bool, now: Timestamp,
                            cap: nat, later: Timestamp, st: VStatus)
    requires Sound(s, cap) && v in s.verifiers
    ensures var r := Attest(s, invoice, Open, true, v, t, hash, approved, now, cap);
            && r.Ok?
            && Voices(ListOf(r.value.0, invoice), s.verifiers, t, later, st)
               == Voices(ListOf(s, invoice), s.verifiers, t, later, st) - {v}
                  + if EffectiveStatus(r.value.1, later) == st then {v} else {}
  {
    hide Without, Evict;
    var list := ListOf(s, invoice);
    AdmitsTrusted(s, list, v, t, now, cap);
    var kept := Without(list, v, t);
    assert Voices(kept, s.verifiers, t, later, st) == Voices(list, s.verifiers, t, later, st) - {v};
    if |kept| >= 3 * cap {
      DropKeepsTrustedVoices(kept, FirstDeparted(kept, s.verifiers), s.verifiers, t, later, st);
    }
    var room := Admit(s, kept, now, cap).value;
    VoicesUnion(room, NewAttestation(s, v, t, hash, approved, now), s.verifiers, t, later, st);
  }

  /** What an eviction costs beyond the current verifier set: under any verifier set whatever it
      removes one voice, that of the evicted statement, and no other. Verdicts are untouched for every
      set without the departed verifier; only its re-admission could tell the difference. */
  lemma EvictionRemovesOneVoice(list: Statements, i: nat, anyone: seq<Address>, t: VType, now: Timestamp, st: VStatus)
    requires i < |list| && OneVoiceEach(list)
    ensures Voices(Drop(list, i), anyone, t, now, st)
         == Voices(list, anyone, t, now, st) - if list[i].vType == t then {list[i].verifier} else {}
  {
    forall a | a in list && a != list[i] ensures a in Drop(list, i) {
      var j :| 0 <= j < |list| && list[j] == a;
      assert if j < i then list[..i][j] == a else list[i + 1..][j - i - 1] == a;
    }
    forall a | a in Drop(list, i)
      ensures a in list && !(a.vType == list[i].vType && a.verifier == list[i].verifier)
    {
      var j :| 0 <= j < |list| - 1 && Drop(list, i)[j] == a;
      assert a == if j < i then list[j] else list[j + 1];
    }
  }
}
