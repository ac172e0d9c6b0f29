/** M-of-N approval of administrative calls. */
module Signers {
  import opened Base
  import opened Ledger

  const MAX_ADMIN_SIGNERS: nat := 20

  datatype AdminConfig = AdminConfig(signers: seq<Address>, threshold: nat)

  /** A configuration that may be stored. */
  ghost predicate Valid(cfg: AdminConfig) {
    && 0 < |cfg.signers| <= MAX_ADMIN_SIGNERS
    && 1 <= cfg.threshold <= |cfg.signers|
    && Distinct(cfg.signers)
  }

  method ValidateSigners(signers: seq<Address>, threshold: nat) returns (r: Result<()>)
    ensures r == if Valid(AdminConfig(signers, threshold)) then Ok(()) else Err(InvalidInput)
  {
    if signers == [] || |signers| > MAX_ADMIN_SIGNERS { return Err(InvalidInput); }
    if threshold == 0 || threshold > |signers| { return Err(InvalidInput); }
    for i := 0 to |signers|
      invariant forall k, j :: 0 <= k < i && 0 <= j < |signers| && k != j ==> signers[k] != signers[j]
    {
      for j := 0 to |signers|
        invariant forall l :: 0 <= l < j && i != l ==> signers[i] != signers[l]
      {
        if i != j && signers[i] == signers[j] { return Err(InvalidInput); }
      }
    }
    return Ok(());
  }

  /** Every approval comes from a distinct signer of the configuration who signed this call, and there
      are enough of them. */
  ghost predicate Approved(cfg: AdminConfig, provided: seq<Address>, signed: set<Address>) {
    Distinct(provided) && Elements(provided) <= Elements(cfg.signers) * signed && |provided| >= cfg.threshold
  }

  method AssertThreshold(cfg: AdminConfig, provided: seq<Address>, signed: set<Address>) returns (r: Result<()>)
    ensures r.Ok? <==> Approved(cfg, provided, signed)
  {
    var counted: seq<Address> := [];
    for i := 0 to |provided|
      invariant counted == provided[..i] && Distinct(counted)
      invariant forall a :: a in counted ==> a in cfg.signers && a in signed
    {
      var who := provided[i];
      assert who in Elements(provided);
      if who !in cfg.signers { return Err(Unauthorized); }
      if who in counted {
        assert exists k :: 0 <= k < i && provided[k] == who;
        return Err(Unauthorized);
      }
      if who !in signed { return Err(Trap); }
      DistinctAppend(counted, who);
      counted := counted + [who];
    }
    assert provided[..|provided|] == provided;
    if |counted| < cfg.threshold { return Err(Unauthorized); }
    return Ok(());
  }

  lemma {:induction false} DistinctSize(s: seq<Address>)
    requires Distinct(s)
    ensures |Elements(s)| == |s|
  {
    if s != [] {
      var n := |s| - 1;
      assert s == s[..n] + [s[n]] && s[n] !in s[..n];
      DistinctSize(s[..n]);
      assert Elements(s) == Elements(s[..n]) + {s[n]};
    } else {
      assert Elements(s) == {};
    }
  }

  /** An approved call was signed by at least `threshold` different signers of the configuration. */
  lemma ApprovalHasQuorum(cfg: AdminConfig, provided: seq<Address>, signed: set<Address>)
    requires Approved(cfg, provided, signed)
    ensures |Elements(cfg.signers) * signed| >= cfg.threshold
  {
    DistinctSize(provided);
    Subset(Elements(provided), Elements(cfg.signers) * signed);
  }

  lemma Subset(a: set<Address>, b: set<Address>)
    requires a <= b
    ensures |a| <= |b|
  {
    assert b == a + (b - a);
  }

  /** Two approvals under a majority threshold share a signer: administrative calls cannot be approved
      by two disjoint groups. */
  lemma MajoritiesMeet(cfg: AdminConfig, p: seq<Address>, q: seq<Address>, signed: set<Address>, signed': set<Address>)
    requires Valid(cfg) && 2 * cfg.threshold > |cfg.signers|
    requires Approved(cfg, p, signed) && Approved(cfg, q, signed')
    ensures exists a :: a in p && a in q
  {
    DistinctSize(p);
    DistinctSize(q);
    DistinctSize(cfg.signers);
    var both := Elements(p) * Elements(q);
    assert |Elements(p) + Elements(q)| == |Elements(p)| + |Elements(q)| - |both|;
    Subset(Elements(p) + Elements(q), Elements(cfg.signers));
    assert both != {};
    var a :| a in both;
    assert a in p && a in q;
  }

  // ----- reconfiguration -----

  datatype Op = SetSigners(provided: seq<Address>, signed: set<Address>, signers: seq<Address>, threshold: nat)
              | TransferAdmin(provided: seq<Address>, signed: set<Address>, admin: Address)

  ghost function Step(cfg: AdminConfig, op: Op): AdminConfig {
    if !Approved(cfg, op.provided, op.signed) then cfg
    else
      match op
      case SetSigners(_, _, signers, threshold) =>
        if Valid(AdminConfig(signers, threshold)) then AdminConfig(signers, threshold) else cfg
      case TransferAdmin(_, _, admin) => AdminConfig([admin], 1)
  }

  ghost function Run(cfg: AdminConfig, ops: seq<Op>): AdminConfig
    decreases |ops|
  {
    if ops == [] then cfg else Run(Step(cfg, ops[0]), ops[1..])
  }

  /** No run of reconfigurations can lock the administrators out: the configuration in force can always
      be met, by its own first signers. */
  lemma {:induction false} NeverLockedOut(cfg: AdminConfig, ops: seq<Op>)
    requires Valid(cfg)
    ensures var end := Run(cfg, ops);
            Valid(end) && Approved(end, end.signers[..end.threshold], Elements(end.signers))
    decreases |ops|
  {
    if ops != [] {
      NeverLockedOut(Step(cfg, ops[0]), ops[1..]);
    }
  }
}
