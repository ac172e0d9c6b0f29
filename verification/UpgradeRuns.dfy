/** Runs of the upgrade lifecycle. */
module UpgradeRuns {
  import opened Base
  import opened SemVer
  import opened UpgradeSteps

  datatype Op = DoBegin(currentWasm: Hash, newWasm: Hash, newVersion: string) | DoComplete | DoRollback

  /** What an upgrade was begun with: the executable then running, and the new one with its version. */
  datatype Begun = Begun(current: Hash, wasm: Hash, version: string)

  /** The lifecycle with its history: the version that ran before the last completed upgrade, the number of
      rollbacks since, and the upgrade begun last. */
  datatype World = World(s: Upgrades, before: Option<string>, rollbacks: nat, begun: Option<Begun>)

  ghost function Step(w: World, op: Op): World {
    match op
    case DoBegin(cur, wasm, v) =>
      (match Begin(w.s, cur, wasm, v) case Ok(s) => w.(s := s, begun := Some(Begun(cur, wasm, v))) case Err(_) => w)
    case DoComplete => (match Complete(w.s) case Ok(s) => World(s, Some(w.s.version), 0, w.begun) case Err(_) => w)
    case DoRollback => (match Rollback(w.s) case Ok(p) => w.(s := p.0, rollbacks := w.rollbacks + 1) case Err(_) => w)
  }

  ghost function Run(w: World, ops: seq<Op>): World
    decreases |ops|
  {
    if ops == [] then w else Run(Step(w, ops[0]), ops[1..])
  }

  ghost predicate Newer(a: string, b: string) {
    Parse(a).Ok? && Parse(b).Ok? && Less(Parse(a).value, Parse(b).value)
  }

  /** A scheduled release is newer than the running one, which is the one retained; between upgrades
      the retained release is the one that ran before the last completed upgrade. */
  ghost predicate Inv(w: World) {
    && Parse(w.s.version).Ok?
    && (w.s.pending.Some? ==>
         && Newer(w.s.version, w.s.pending.value.version)
         && w.s.previous.Some? && w.s.previous.value.version == w.s.version)
    && (w.s.pending.None? && w.s.previous.Some? ==>
         && w.before == Some(w.s.previous.value.version)
         && Newer(w.s.previous.value.version, w.s.version)
         && w.rollbacks == 0)
    && w.rollbacks <= 1
    && (w.s.pending.Some? ==>
         w.begun.Some? && w.s.pending.value == Release(w.begun.value.version, w.begun.value.wasm))
    && (w.s.previous.Some? ==> w.begun.Some? && w.s.previous.value.wasm == w.begun.value.current)
  }

  lemma StepKeeps(w: World, op: Op)
    requires Inv(w)
    ensures Inv(Step(w, op))
  {
    hide Parse;
  }

  lemma {:induction false} RunKeeps(w: World, ops: seq<Op>)
    requires Inv(w)
    ensures Inv(Run(w, ops))
    decreases |ops|
  {
    if ops != [] {
      StepKeeps(w, ops[0]);
      RunKeeps(Step(w, ops[0]), ops[1..]);
    }
  }

  /** From deployment on: every completed upgrade strictly raises the version, to the one begun last; a
      rollback restores exactly the version that ran before the last completed upgrade, strictly older, and
      the executable that ran when it was begun; and there is at most one rollback between two completed
      upgrades. */
  lemma UpgradesRaiseRollbacksRestore(initial: string, ops: seq<Op>)
    requires Parse(initial).Ok?
    ensures var w := Run(World(Upgrades(initial, None, None), None, 0, None), ops);
            && (Complete(w.s).Ok? ==>
                 && Newer(w.s.version, Complete(w.s).value.version)
                 && w.begun.Some? && Complete(w.s).value.version == w.begun.value.version)
            && (Rollback(w.s).Ok? ==>
                 && w.begun.Some? && Rollback(w.s).value.1 == w.begun.value.current
                 && w.before == Some(Rollback(w.s).value.0.version)
                 && Newer(Rollback(w.s).value.0.version, w.s.version)
                 && w.rollbacks == 0
                 && Rollback(Rollback(w.s).value.0) == Err(RollbackUnavailable))
            && w.rollbacks <= 1
  {
    hide Parse;
    RunKeeps(World(Upgrades(initial, None, None), None, 0, None), ops);
  }

  /** A version by its place in the order of releases: below it come all with a smaller major number, then
      all with a smaller minor one, then all with a smaller patch. */
  ghost function Rank(v: Version): nat { v.major * 0x1_0000_0000_0000_0000 + v.minor * 0x1_0000_0000 + v.patch }

  lemma LessIsRank(v: Version, w: Version)
    requires InRange(v) && InRange(w)
    ensures Less(v, w) <==> Rank(v) < Rank(w)
  {
  }

  /** An upgrade that begins can be completed, which makes its version current, and then rolled back to the
      version and the executable it began from; after that there is nothing to roll back to. */
  lemma RollbackUndoesUpgrade(s: Upgrades, current: Hash, wasm: Hash, version: string)
    requires Begin(s, current, wasm, version).Ok?
    ensures var begun := Begin(s, current, wasm, version).value;
            && begun.pending == Some(Release(version, wasm))
            && Complete(begun).Ok? && Complete(begun).value.version == version
            && Rollback(Complete(begun).value) == Ok((Upgrades(s.version, None, None), current))
  {
    hide Parse;
  }

  /** A refused call is told why, truthfully. */
  lemma RefusalsTell(s: Upgrades, current: Hash, wasm: Hash, version: string)
    ensures Begin(s, current, wasm, version).Err? ==>
              Begin(s, current, wasm, version).error == if s.pending.Some? then UpgradePending else InvalidVersion
    ensures Complete(s).Err? ==> Complete(s).error == UpgradeNotPending
    ensures Rollback(s).Err? ==> Rollback(s).error == if s.pending.Some? then UpgradePending else RollbackUnavailable
  {
    hide Parse;
  }

  /** An upgrade begins exactly when none is under way and the new version is a newer one; it completes
      exactly when one is under way; and it is rolled back exactly when none is and a release is retained. */
  lemma LifecycleCallsCommitIff(s: Upgrades, current: Hash, wasm: Hash, version: string)
    ensures Begin(s, current, wasm, version).Ok? <==> s.pending.None? && Newer(s.version, version)
    ensures Begin(s, current, wasm, version).Ok? ==> Begin(s, current, wasm, version).value.version == s.version
    ensures Complete(s).Ok? <==> s.pending.Some?
    ensures Rollback(s).Ok? <==> s.pending.None? && s.previous.Some?
  {
    hide Parse;
  }
}
