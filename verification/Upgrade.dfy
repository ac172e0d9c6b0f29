/** The version metadata as stored. */
module Upgrade {
  import opened Base
  import opened SemVer
  import opened Steps = UpgradeSteps

  class Lifecycle {
    var version: string
    var pending: Option<Release>
    var previous: Option<Release>

    function State(): Upgrades
      reads this
    {
      Upgrades(version, pending, previous)
    }

    constructor (initial: string)
      requires Parse(initial).Ok?
      ensures State() == Upgrades(initial, None, None)
    {
      version, pending, previous := initial, None, None;
    }

    method BeginUpgrade(currentWasm: Hash, newWasm: Hash, newVersion: string) returns (r: Result<()>)
      modifies this
      ensures match Begin(old(State()), currentWasm, newWasm, newVersion)
              case Ok(s) => State() == s && r == Ok(())
              case Err(e) => State() == old(State()) && r == Err(e)
    {
      if pending.Some? { return Err(UpgradePending); }
      var next := ParseVersion(newVersion);
      if next.Err? { return Err(InvalidVersion); }
      var current := ParseVersion(version);
      if current.Err? || !Less(current.value, next.value) { return Err(InvalidVersion); }
      previous := Some(Release(version, currentWasm));
      pending := Some(Release(newVersion, newWasm));
      return Ok(());
    }

    method CompleteUpgrade() returns (r: Result<()>)
      modifies this
      ensures match Complete(old(State()))
              case Ok(s) => State() == s && r == Ok(())
              case Err(e) => State() == old(State()) && r == Err(e)
    {
      if pending.None? { return Err(UpgradeNotPending); }
      version := pending.value.version;
      pending := None;
      return Ok(());
    }

    method RollbackUpgrade() returns (r: Result<Hash>)
      modifies this
      ensures match Rollback(old(State()))
              case Ok((s, wasm)) => State() == s && r == Ok(wasm)
              case Err(e) => State() == old(State()) && r == Err(e)
    {
      if pending.Some? { return Err(UpgradePending); }
      if previous.None? { return Err(RollbackUnavailable); }
      var wasm := previous.value.wasm;
      version := previous.value.version;
      previous := None;
      return Ok(wasm);
    }
  }
}
