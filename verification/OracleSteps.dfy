/** The verification oracle: the trusted verifier set and the bounded lists of attestations. The list
    cap is three times the verifier cap, one slot per verifier and type. */
module OracleSteps {
  import opened Base
  import opened Attestations

  const MAX_VERIFIERS: nat := 20
  const MAX_ATTESTATIONS: nat := 60
  const MIN_VALIDITY: nat := 86_400
  const MAX_VALIDITY: nat := 31_536_000

  datatype Oracle = Oracle(
    verifiers: seq<Address>,
    threshold: nat,
    validity: nat,
    lists: map<Symbol, Statements>)

  /** What the registry says about the invoice an attestation is for. */
  datatype Standing = Missing | Closed | Open

  function ListOf(s: Oracle, invoice: Symbol): Statements { GetOr(s.lists, invoice, []) }

  function AddVerifier(s: Oracle, v: Address, cap: nat): Result<Oracle> {
    if v in s.verifiers then Ok(s)
    else if |s.verifiers| >= cap then Err(InvalidInput)
    else Ok(s.(verifiers := s.verifiers + [v]))
  }

  function Excluding(vs: seq<Address>, v: Address): (rest: seq<Address>)
    ensures forall x :: x in rest <==> x in vs && x != v
    ensures |rest| <= |vs|
  {
    if vs == [] then []
    else Excluding(vs[..|vs| - 1], v) + if vs[|vs| - 1] == v then [] else [vs[|vs| - 1]]
  }

  function RemoveVerifier(s: Oracle, v: Address): Oracle {
    s.(verifiers := Excluding(s.verifiers, v))
  }

  function SetThreshold(s: Oracle, threshold: nat, cap: nat): Result<Oracle> {
    if threshold == 0 || threshold > cap then Err(InvalidInput) else Ok(s.(threshold := threshold))
  }

  function SetValidity(s: Oracle, secs: nat): Result<Oracle> {
    if MIN_VALIDITY <= secs <= MAX_VALIDITY then Ok(s.(validity := secs)) else Err(InvalidInput)
  }

  function NewAttestation(s: Oracle, v: Address, t: VType, hash: nat, approved: bool, now: Timestamp): Attestation {
    Attestation(v, t, hash, now, SaturatingAdd(now, s.validity), if approved then Verified else Rejected)
  }

  /** Room for one more statement, at the expense of the least valuable one when the list is full. */
  function Admit(s: Oracle, kept: Statements, now: Timestamp, cap: nat): Result<Statements> {
    if |kept| >= 3 * cap then Evict(kept, s.verifiers, now) else Ok(kept)
  }

  function Attest(s: Oracle, invoice: Symbol, standing: Standing, feePaid: bool, v: Address, t: VType, hash: nat,
                  approved: bool, now: Timestamp, cap: nat): Result<(Oracle, Attestation)>
  {
    if v !in s.verifiers then Err(Unauthorized)
    else if standing == Missing then Err(NotFound)
    else if standing == Closed then Err(InvalidTransition)
    else if !feePaid then Err(Trap)
    else
      var a := NewAttestation(s, v, t, hash, approved, now);
      match Admit(s, Without(ListOf(s, invoice), v, t), now, cap)
      case Err(e) => Err(e)
      case Ok(room) => Ok((s.(lists := s.lists[invoice := room + [a]]), a))
  }

  function ExpireVerifications(s: Oracle, invoice: Symbol, now: Timestamp): Result<(Oracle, nat)> {
    var list := ListOf(s, invoice);
    var n := Lapses(list, now);
    if list == [] then Err(NotFound)
    else Ok((if n > 0 then s.(lists := s.lists[invoice := ExpireAll(list, now)]) else s, n))
  }

  /** The verdict on a whole invoice: any rejected type rejects it, all three verified types verify
      it, otherwise a lapsed type makes it expired. */
  function InvoiceVerdict(s: Oracle, invoice: Symbol, now: Timestamp): VStatus {
    var verdict := (t: VType) => StatusOf(ListOf(s, invoice), s.verifiers, t, s.threshold, now);
    var (d, b, x) := (verdict(DocumentHash), verdict(BusinessRegistration), verdict(TaxCompliance));
    if d == Rejected || b == Rejected || x == Rejected then Rejected
    else if d == Verified && b == Verified && x == Verified then Verified
    else if d == Expired || b == Expired || x == Expired then Expired
    else Pending
  }
}
