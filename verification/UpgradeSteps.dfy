/** Two-step contract upgrades with a single retained predecessor. */
module UpgradeSteps {
  import opened Base
  import opened SemVer

  type Hash = nat

  datatype Release = Release(version: string, wasm: Hash)

  /** The version metadata of a contract: what runs, what is scheduled, what can be rolled back to. */
  datatype Upgrades = Upgrades(version: string, pending: Option<Release>, previous: Option<Release>)

  function Begin(s: Upgrades, currentWasm: Hash, newWasm: Hash, newVersion: string): Result<Upgrades> {
    if s.pending.Some? then Err(UpgradePending)
    else
      match (Parse(newVersion), Parse(s.version))
      case (Ok(v), Ok(w)) =>
        if Less(w, v) then
          Ok(Upgrades(s.version, Some(Release(newVersion, newWasm)), Some(Release(s.version, currentWasm))))
        else Err(InvalidVersion)
      case _ => Err(InvalidVersion)
  }

  function Complete(s: Upgrades): Result<Upgrades> {
    match s.pending
    case None => Err(UpgradeNotPending)
    case Some(r) => Ok(s.(version := r.version, pending := None))
  }

  /** Returns the executable to reinstate. */
  function Rollback(s: Upgrades): Result<(Upgrades, Hash)> {
    if s.pending.Some? then Err(UpgradePending)
    else
      match s.previous
      case None => Err(RollbackUnavailable)
      case Some(r) => Ok((Upgrades(r.version, None, None), r.wasm))
  }
}
