/** A registry that pre-dates its originator index: runs of its entry points with the backfill among
    them, and which of them end with every invoice listed for its current originator. */
module IndexMigration {
  import opened Base
  import opened SortedIds
  import opened RegistrySteps
  import Runs = RegistryRuns

  datatype Op = Call(op: Runs.Op) | PostUpgrade

  /** The registry in time, counting acquisitions since the start, with the originators the backfill
      found if it has run. */
  datatype Migrating = Migrating(w: Runs.World, base: map<Symbol, Address>)

  ghost function Originators(s: Registry): map<Symbol, Address> {
    map id | id in s.invoices :: s.invoices[id].originator
  }

  ghost function Step(m: Migrating, op: Op): Migrating {
    match op
    case Call(c) => m.(w := Runs.Step(m.w, c))
    case PostUpgrade =>
      Migrating(m.w.(reg := Backfill(m.w.reg)), if m.w.reg.index.None? then Originators(m.w.reg) else m.base)
  }

  ghost function Run(m: Migrating, ops: seq<Op>): Migrating
    decreases |ops|
  {
    if ops == [] then m else Run(Step(m, ops[0]), ops[1..])
  }

  /** A deployment whose index has not begun. */
  ghost function Indexless(s: Registry, now: Timestamp): Migrating {
    Migrating(Runs.World(s, now, map[], map[]), map[])
  }

  ghost predicate Acquiring(w: Runs.World, op: Runs.Op) { Runs.Acquires(op).Some? && Runs.Apply(w.reg, op, w.now).Ok? }

  /** A registration or transfer commits before the backfill has been called. */
  ghost predicate Preempted(m: Migrating, ops: seq<Op>)
    decreases |ops|
  {
    && ops != [] && ops[0].Call?
    && (Acquiring(m.w, ops[0].op) || Preempted(Step(m, ops[0]), ops[1..]))
  }

  ghost predicate Listed(s: Registry, id: Symbol) {
    id in s.invoices ==> id in IdsOf(s, s.invoices[id].originator)
  }

  ghost predicate AllListed(s: Registry) { forall id :: Listed(s, id) }

  /** The current originator has acquired the invoice since the start. */
  ghost predicate AcquiredSince(w: Runs.World, id: Symbol) {
    id in w.reg.invoices ==> Runs.Times(w, w.reg.invoices[id].originator, id) > 0
  }

  ghost predicate AllAcquiredSince(w: Runs.World) { forall id :: AcquiredSince(w, id) }

  // ----- the index, entry by entry -----

  ghost function Found(base: map<Symbol, Address>, a: Address, id: Symbol): nat {
    if id in base && base[id] == a then 1 else 0
  }

  /** An address's list is sorted and holds each invoice as often as the address acquired it since, and
      once more if the backfill found it there. */
  ghost predicate ListOk(m: Migrating, a: Address) {
    && Sorted(IdsOf(m.w.reg, a))
    && forall id :: multiset(IdsOf(m.w.reg, a))[id] == Runs.Times(m.w, a, id) + Found(m.base, a, id)
  }

  ghost predicate Inv(m: Migrating) {
    && Runs.TokensOk(m.w.reg)
    && (forall a :: ListOk(m, a))
    && (m.w.reg.index.None? ==> m.w.acquired == map[] && m.base == map[])
  }

  lemma AcquiringKeepsList(m: Migrating, v: Runs.World, a: Address, id: Symbol, b: Address)
    requires ListOk(m, b) && Runs.Acquired(m.w, v, a, id)
    ensures ListOk(m.(w := v), b)
  {
    hide Inserted, Sorted;
    var ids := IdsOf(m.w.reg, b);
    if b == a {
      InsertedCounts(ids, id);
      InsertedSorted(ids, id);
      assert IdsOf(v.reg, b) == Inserted(ids, id);
    } else {
      assert IdsOf(v.reg, b) == ids;
    }
    hide IdsOf, IndexOf, Indexed;
    forall k ensures multiset(IdsOf(v.reg, b))[k] == Runs.Times(v, b, k) + Found(m.base, b, k) {
      assert multiset(ids)[k] == Runs.Times(m.w, b, k) + Found(m.base, b, k);
    }
  }

  lemma AcquiringKeeps(m: Migrating, op: Runs.Op)
    requires Inv(m) && Acquiring(m.w, op)
    ensures Inv(Step(m, Call(op)))
    ensures var (a, id) := Runs.Acquires(op).value; Runs.Acquired(m.w, Step(m, Call(op)).w, a, id)
  {
    var v := Runs.Step(m.w, op);
    var (a, id) := Runs.Acquires(op).value;
    Runs.AcquiringStep(m.w.reg, op, m.w.now);
    Runs.StepKeepsTokens(m.w.reg, op, m.w.now);
    hide ListOk, Runs.Apply, Inserted, Runs.TokensOk;
    assert Runs.Acquired(m.w, v, a, id);
    forall b ensures ListOk(m.(w := v), b) {
      AcquiringKeepsList(m, v, a, id, b);
    }
  }

  /** A call that acquires nothing leaves the index and the originators alone. */
  lemma QuietKeeps(m: Migrating, op: Runs.Op)
    requires Inv(m) && !Acquiring(m.w, op)
    ensures Inv(Step(m, Call(op)))
    ensures var v := Step(m, Call(op)).w;
            && v.reg.index == m.w.reg.index && v.acquired == m.w.acquired
               && v.reg.invoices.Keys == m.w.reg.invoices.Keys
            && forall k :: k in m.w.reg.invoices ==> v.reg.invoices[k].originator == m.w.reg.invoices[k].originator
  {
    if Runs.Apply(m.w.reg, op, m.w.now).Ok? {
      Runs.QuietOnOriginators(m.w.reg, op, m.w.now);
      Runs.StepKeepsTokens(m.w.reg, op, m.w.now);
    }
    hide Runs.Apply, Runs.TokensOk, Sorted;
    var n := Step(m, Call(op));
    forall a ensures ListOk(n, a) {
      assert ListOk(m, a);
      assert IdsOf(n.w.reg, a) == IdsOf(m.w.reg, a);
    }
  }

  lemma BackfillKeepsList(m: Migrating, a: Address)
    requires Inv(m) && m.w.reg.index.None?
    ensures ListOk(Step(m, PostUpgrade), a)
  {
    Runs.BackfillListsCurrentInvoices(m.w.reg, a);
    hide Backfill, Sorted, IdsOf, Runs.TokensOk, ListOk;
    var n := Step(m, PostUpgrade);
    forall id ensures multiset(IdsOf(n.w.reg, a))[id] == Runs.Times(n.w, a, id) + Found(n.base, a, id) {
    }
    ListFrom(n, a);
  }

  lemma ListFrom(m: Migrating, a: Address)
    requires Sorted(IdsOf(m.w.reg, a))
    requires forall id :: multiset(IdsOf(m.w.reg, a))[id] == Runs.Times(m.w, a, id) + Found(m.base, a, id)
    ensures ListOk(m, a)
  {
  }

  lemma BackfillKeeps(m: Migrating)
    requires Inv(m)
    ensures Inv(Step(m, PostUpgrade))
  {
    hide Runs.TokensOk, Sorted, Rebuilt, IdsOf, ListOk;
    var n := Step(m, PostUpgrade);
    if m.w.reg.index.None? {
      forall a ensures ListOk(n, a) {
        BackfillKeepsList(m, a);
      }
    }
    TokensStay(m.w.reg, n.w.reg);
  }

  lemma TokensStay(s: Registry, t: Registry)
    requires Runs.TokensOk(s) && t.tokens == s.tokens && t.invoices == s.invoices
    ensures Runs.TokensOk(t)
  {
    forall id ensures Runs.TokenOk(t, id) {
      assert Runs.TokenOk(s, id);
    }
  }

  lemma StepKeeps(m: Migrating, op: Op)
    requires Inv(m)
    ensures Inv(Step(m, op))
  {
    hide Inv, Step;
    match op
    case Call(c) => if Acquiring(m.w, c) { AcquiringKeeps(m, c); } else { QuietKeeps(m, c); }
    case PostUpgrade => BackfillKeeps(m);
  }

  // ----- who is listed -----

  /** Each invoice's current originator was found by the backfill or has acquired it since. */
  ghost predicate KnownAt(m: Migrating, id: Symbol) {
    id in m.w.reg.invoices ==>
      AcquiredSince(m.w, id) || Found(m.base, m.w.reg.invoices[id].originator, id) == 1
  }

  ghost predicate Complete(m: Migrating) { forall id :: KnownAt(m, id) }

  lemma ListedIffKnown(m: Migrating, id: Symbol)
    requires Inv(m)
    ensures Listed(m.w.reg, id) <==> KnownAt(m, id)
  {
    hide Sorted, Runs.TokensOk;
    if id in m.w.reg.invoices {
      var a := m.w.reg.invoices[id].originator;
      assert ListOk(m, a);
      assert multiset(IdsOf(m.w.reg, a))[id] > 0 <==> id in IdsOf(m.w.reg, a);
    }
  }

  lemma AllListedIffComplete(m: Migrating)
    requires Inv(m)
    ensures AllListed(m.w.reg) <==> Complete(m)
  {
    hide Inv, Listed, KnownAt;
    forall id ensures Listed(m.w.reg, id) <==> KnownAt(m, id) {
      ListedIffKnown(m, id);
    }
  }

  /** Once complete, always complete. */
  lemma CompleteStep(m: Migrating, op: Op)
    requires Inv(m) && Complete(m)
    ensures Complete(Step(m, op))
  {
    var n := Step(m, op);
    if op.Call? {
      if Acquiring(m.w, op.op) { AcquiringKeeps(m, op.op); } else { QuietKeeps(m, op.op); }
    }
    hide Inv, Runs.Apply, Acquiring;
    forall id ensures KnownAt(n, id) {
      assert KnownAt(m, id);
    }
  }

  lemma {:induction false} CompleteStays(m: Migrating, ops: seq<Op>)
    requires Inv(m) && Complete(m)
    ensures Inv(Run(m, ops)) && Complete(Run(m, ops))
    decreases |ops|
  {
    hide Inv, Complete, Step;
    if ops != [] {
      StepKeeps(m, ops[0]);
      CompleteStep(m, ops[0]);
      CompleteStays(Step(m, ops[0]), ops[1..]);
    }
  }

  lemma BackfillCompletes(m: Migrating)
    requires Inv(m) && m.w.reg.index.None?
    ensures Complete(Step(m, PostUpgrade))
  {
    hide Inv, Rebuilt;
    var n := Step(m, PostUpgrade);
    forall id ensures KnownAt(n, id) {
    }
  }

  lemma RunCons(m: Migrating, ops: seq<Op>, last: Op)
    requires ops != []
    ensures Run(m, ops + [last]) == Run(Step(m, ops[0]), ops[1..] + [last])
  {
    hide Step;
    assert (ops + [last])[1..] == ops[1..] + [last];
  }

  /** A backfill called before anything is acquired completes the index for good. */
  lemma {:induction false} InTimeCompletes(m: Migrating, ops: seq<Op>)
    requires Inv(m) && m.w.reg.index.None? && !Preempted(m, ops)
    ensures var n := Run(m, ops + [PostUpgrade]); Inv(n) && Complete(n)
    decreases |ops|
  {
    var op := if ops == [] then PostUpgrade else ops[0];
    StepKeeps(m, op);
    if ops != [] { RunCons(m, ops, PostUpgrade); }
    if op.PostUpgrade? {
      BackfillCompletes(m);
      hide Inv, Complete, Step;
      CompleteStays(Step(m, op), if ops == [] then [] else ops[1..] + [PostUpgrade]);
      assert ops == [] ==> Run(m, ops + [PostUpgrade]) == Run(Step(m, op), []) by {
        assert [PostUpgrade][1..] == [];
      }
    } else {
      QuietKeeps(m, op.op);
      hide Inv, Complete, Step;
      InTimeCompletes(Step(m, op), ops[1..]);
    }
  }

  /** With the index begun and nothing found, the backfill never finds anything. */
  lemma {:induction false} BegunStays(m: Migrating, ops: seq<Op>)
    requires Inv(m) && m.w.reg.index.Some? && m.base == map[]
    ensures var n := Run(m, ops); Inv(n) && n.base == map[]
    decreases |ops|
  {
    if ops != [] {
      StepKeeps(m, ops[0]);
      if ops[0].Call? {
        if Acquiring(m.w, ops[0].op) { AcquiringKeeps(m, ops[0].op); } else { QuietKeeps(m, ops[0].op); }
      }
      hide Inv, Runs.Step;
      BegunStays(Step(m, ops[0]), ops[1..]);
    }
  }

  lemma {:induction false} PreemptedFindsNothing(m: Migrating, ops: seq<Op>)
    requires Inv(m) && m.w.reg.index.None? && Preempted(m, ops)
    ensures var n := Run(m, ops + [PostUpgrade]); Inv(n) && n.base == map[]
    decreases |ops|
  {
    StepKeeps(m, ops[0]);
    RunCons(m, ops, PostUpgrade);
    if Acquiring(m.w, ops[0].op) {
      AcquiringKeeps(m, ops[0].op);
      hide Runs.Apply;
      BegunStays(Step(m, ops[0]), ops[1..] + [PostUpgrade]);
    } else {
      QuietKeeps(m, ops[0].op);
      PreemptedFindsNothing(Step(m, ops[0]), ops[1..]);
    }
  }

  /** From a registry without an index, on any run that ends with the backfill: every invoice is listed
      for its current originator if and only if nothing was registered or transferred before the backfill
      was first called, or each invoice's current originator has acquired it since. */
  lemma BackfillCompletesIff(s: Registry, now: Timestamp, ops: seq<Op>)
    requires Runs.TokensOk(s) && s.index.None?
    ensures var m := Run(Indexless(s, now), ops + [PostUpgrade]);
            AllListed(m.w.reg) <==> !Preempted(Indexless(s, now), ops) || AllAcquiredSince(m.w)
  {
    var start := Indexless(s, now);
    var m := Run(start, ops + [PostUpgrade]);
    assert Inv(start) by { StartSound(s, now); }
    hide Inv, Run;
    if Preempted(start, ops) {
      PreemptedFindsNothing(start, ops);
      AllListedIffComplete(m);
      assert Complete(m) <==> AllAcquiredSince(m.w) by { NothingFound(m); }
    } else {
      InTimeCompletes(start, ops);
      AllListedIffComplete(m);
    }
  }

  lemma NothingFound(m: Migrating)
    requires m.base == map[]
    ensures Complete(m) <==> AllAcquiredSince(m.w)
  {
    assert forall id :: KnownAt(m, id) <==> AcquiredSince(m.w, id);
  }

  lemma StartSound(s: Registry, now: Timestamp)
    requires Runs.TokensOk(s) && s.index.None?
    ensures Inv(Indexless(s, now))
  {
    hide Runs.TokensOk;
  }

  /** One registration ahead of the backfill is enough: the backfill finds an index and returns, and an
      invoice from before stays unlisted. */
  lemma RegistrationPreemptsBackfill(s: Registry, now: Timestamp, older: Symbol, id: Symbol, a: Address, amount: int,
                                     currency: Symbol, due: Timestamp)
    requires Runs.TokensOk(s) && s.index.None? && older in s.invoices
    requires id !in s.invoices && a !in s.blacklist && amount >= MIN_INVOICE_AMOUNT && due > now
    ensures var t := Run(Indexless(s, now), [Call(Runs.DoRegister(id, a, amount, currency, due)), PostUpgrade]).w.reg;
            && t == Register(s, id, a, amount, currency, due, now).value
            && older in t.invoices && !Listed(t, older)
  {
    var start, op := Indexless(s, now), Call(Runs.DoRegister(id, a, amount, currency, due));
    var m := Step(start, op);
    assert [op, PostUpgrade][1..] == [PostUpgrade] && [PostUpgrade][1..] == [];
    assert Run(start, [op, PostUpgrade]) == Run(m, [PostUpgrade]) == Step(m, PostUpgrade);
    assert m.w.reg == Register(s, id, a, amount, currency, due, now).value;
    assert Inserted([], id) == [id];
  }
}
