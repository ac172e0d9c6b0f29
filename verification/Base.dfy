/** Identifiers, errors and the small arithmetic every contract of the protocol shares. */
module Base {

  /** Ledger addresses and short symbols. Both are totally ordered by the host, which is what makes
      the iteration order of its maps deterministic; natural numbers keep exactly that. */
  type Address = nat
  type Symbol = nat

  const U64_MAX: nat := 0xFFFF_FFFF_FFFF_FFFF

  /** Ledger time and the deadlines derived from it are 64-bit. */
  type Timestamp = t: nat | t <= U64_MAX

  datatype Option<+T> = None | Some(value: T)

  /** The shared error enumeration; Trap stands for a panic without an error code. */
  datatype Error =
    | Unauthorized
    | NotFound
    | InvalidTransition
    | InsufficientBalance
    | InvalidInput
    | AlreadyExists
    | Blacklisted
    | InvalidVersion
    | UpgradePending
    | UpgradeNotPending
    | RollbackUnavailable
    | OfferExpired
    | Trap

  /** A transaction either commits a value or reverts with an error. */
  datatype Result<+T> = Ok(value: T) | Err(error: Error)

  function Min(a: int, b: int): int { if a <= b then a else b }

  function Max(a: int, b: int): int { if a >= b then a else b }

  /** Signed division as the host does it: the quotient is truncated toward zero. */
  function TruncDiv(a: int, b: int): (q: int)
    requires b > 0
    ensures a >= 0 ==> q >= 0 && q * b <= a < q * b + b
    ensures a <= 0 ==> q <= 0 && q * b - b < a <= q * b
  {
    if a >= 0 then a / b else -((-a) / b)
  }

  function SaturatingSub(a: nat, b: nat): nat { if a >= b then a - b else 0 }

  function SaturatingAdd(a: Timestamp, b: nat): Timestamp { if a + b <= U64_MAX then a + b else U64_MAX }

  /** Map lookup with a default, the host's `get(..).unwrap_or(..)`. */
  function GetOr<K, V>(m: map<K, V>, k: K, d: V): V { if k in m then m[k] else d }

  /** x is n over d, rounded down. */
  predicate IsShare(x: int, n: int, d: int) { x * d <= n < x * d + d }

  lemma Rounds(n: int, d: int)
    requires n >= 0 && d > 0
    ensures IsShare(TruncDiv(n, d), n, d) && TruncDiv(n, d) >= 0
  {
  }
}
