/** The event index as a value: the records, the two secondary indices and the global list. */
module EventLog {
  import opened Base

  datatype EventRecord = EventRecord(id: nat, eventType: Symbol, timestamp: Timestamp, actor: Address, dataKey: Symbol)

  /** What a query selects by. */
  datatype Key = ByType(t: Symbol) | ByActor(a: Address) | Within(start: nat, end: nat) | Since(from: nat)

  predicate Matches(r: EventRecord, key: Key) {
    match key
    case ByType(t) => r.eventType == t
    case ByActor(a) => r.actor == a
    case Within(start, end) => start <= r.timestamp <= end
    case Since(from) => r.timestamp >= from
  }

  type Log = seq<EventRecord>

  /** The plain scan every index has to agree with. */
  function Where(log: Log, key: Key): Log {
    if log == [] then [] else (if Matches(log[0], key) then [log[0]] else []) + Where(log[1..], key)
  }

  lemma {:induction false} WhereConcat(a: Log, b: Log, key: Key)
    ensures Where(a + b, key) == Where(a, key) + Where(b, key)
  {
    if a == [] {
      assert a + b == b;
    } else {
      WhereConcat(a[1..], b, key);
      assert (a + b)[1..] == a[1..] + b;
      var head, x, y := if Matches(a[0], key) then [a[0]] else [], Where(a[1..], key), Where(b, key);
      assert Where(a + b, key) == head + (x + y);
      assert head + (x + y) == (head + x) + y;
    }
  }

  lemma {:induction false} WhereSubset(log: Log, key: Key)
    ensures forall r :: r in Where(log, key) <==> r in log && Matches(r, key)
    ensures |Where(log, key)| <= |log|
  {
    if log != [] {
      WhereSubset(log[1..], key);
      assert forall r :: r in log <==> r == log[0] || r in log[1..];
    }
  }

  function Ids(log: Log): (ids: seq<nat>)
    ensures |ids| == |log| && forall i :: 0 <= i < |log| ==> ids[i] == log[i].id
  {
    seq(|log|, i requires 0 <= i < |log| => log[i].id)
  }

  lemma IdsConcat(a: Log, b: Log)
    ensures Ids(a + b) == Ids(a) + Ids(b)
  {
  }

  datatype Store = Store(
    events: map<nat, EventRecord>,
    byType: map<Symbol, seq<nat>>,
    byActor: map<Address, seq<nat>>,
    allIds: seq<nat>,
    nextId: nat,
    count: nat)

  ghost predicate Stored(s: Store) {
    forall id :: id in s.allIds ==> id in s.events
  }

  /** The records in the order of the global list. */
  ghost function LogOf(s: Store): Log
    requires Stored(s)
  {
    seq(|s.allIds|, i requires 0 <= i < |s.allIds| => s.events[s.allIds[i]])
  }

  ghost predicate Chronological(log: Log) {
    && (forall i, j :: 0 <= i < j < |log| ==> log[i].id < log[j].id)
    && (forall i, j :: 0 <= i < j < |log| ==> log[i].timestamp <= log[j].timestamp)
  }

  /** The store and its indices say the same as a scan of the log. */
  ghost predicate Agrees(s: Store, log: Log) {
    && s.allIds == Ids(log)
    && (forall r :: r in log ==> r.id in s.events && s.events[r.id] == r)
    && (forall id :: id in s.events ==> id in s.allIds)
    && (forall t :: GetOr(s.byType, t, []) == Ids(Where(log, ByType(t))))
    && (forall a :: GetOr(s.byActor, a, []) == Ids(Where(log, ByActor(a))))
  }

  /** Every reachable store: the ids increase strictly and lie below the next one, time never runs
      backwards along the log, and the count is its length. */
  ghost predicate Valid(s: Store) {
    && Stored(s)
    && Chronological(LogOf(s))
    && (forall r :: r in LogOf(s) ==> r.id < s.nextId)
    && Agrees(s, LogOf(s))
    && s.count == |LogOf(s)|
  }

  ghost predicate NotAfter(log: Log, now: Timestamp) {
    forall r :: r in log ==> r.timestamp <= now
  }

  function Record(s: Store, eventType: Symbol, actor: Address, dataKey: Symbol, now: Timestamp): Store {
    var id := s.nextId;
    Store(s.events[id := EventRecord(id, eventType, now, actor, dataKey)],
          s.byType[eventType := GetOr(s.byType, eventType, []) + [id]],
          s.byActor[actor := GetOr(s.byActor, actor, []) + [id]],
          s.allIds + [id],
          id + 1,
          s.count + 1)
  }

  lemma WhereAppend(log: Log, r: EventRecord, key: Key)
    ensures Where(log + [r], key) == Where(log, key) + if Matches(r, key) then [r] else []
    ensures Ids(Where(log + [r], key)) == Ids(Where(log, key)) + if Matches(r, key) then [r.id] else []
  {
    WhereConcat(log, [r], key);
    assert Where([r], key) == if Matches(r, key) then [r] else [];
  }

  lemma ChronologicalAppend(log: Log, r: EventRecord)
    requires Chronological(log) && forall q :: q in log ==> q.id < r.id && q.timestamp <= r.timestamp
    ensures Chronological(log + [r])
  {
    forall i, j | 0 <= i < j < |log + [r]|
      ensures (log + [r])[i].id < (log + [r])[j].id && (log + [r])[i].timestamp <= (log + [r])[j].timestamp
    {
      assert (log + [r])[i] in log;
    }
  }

  lemma IdsOfLog(s: Store)
    requires Stored(s) && Agrees(s, LogOf(s))
    ensures forall id :: id in s.allIds ==> exists r :: r in LogOf(s) && r.id == id
  {
    var log := LogOf(s);
    forall id | id in s.allIds ensures exists r :: r in log && r.id == id {
      var i :| 0 <= i < |s.allIds| && s.allIds[i] == id;
      assert log[i] in log && Ids(log)[i] == log[i].id;
    }
  }

  lemma RecordExtendsLog(s: Store, eventType: Symbol, actor: Address, dataKey: Symbol, now: Timestamp)
    requires Valid(s)
    ensures var s' := Record(s, eventType, actor, dataKey, now);
            && Stored(s')
            && LogOf(s') == LogOf(s) + [EventRecord(s.nextId, eventType, now, actor, dataKey)]
            && s.nextId !in s.events
  {
    hide Where, Agrees, Chronological;
    IdsOfLog(s);
    assert s.nextId !in s.allIds by { FreshId(s); }
    assert s.nextId !in s.events by { FreshEvent(s); }
    hide Valid;
  }

  lemma FreshEvent(s: Store)
    requires Valid(s) && s.nextId !in s.allIds
    ensures s.nextId !in s.events
  {
    hide Where, Chronological;
  }

  lemma FreshId(s: Store)
    requires Valid(s)
    ensures s.nextId !in s.allIds
  {
    hide Where, Chronological;
    IdsOfLog(s);
    forall i | 0 <= i < |s.allIds| ensures s.allIds[i] < s.nextId {
      assert LogOf(s)[i] in LogOf(s);
    }
  }

  /** The index entry of each key value after one more record. */
  lemma IndexAppend(m: map<nat, seq<nat>>, log: Log, r: EventRecord, own: nat, keyOf: nat -> Key)
    requires forall x :: GetOr(m, x, []) == Ids(Where(log, keyOf(x)))
    requires forall x :: Matches(r, keyOf(x)) <==> x == own
    ensures var m' := m[own := GetOr(m, own, []) + [r.id]];
            forall x :: GetOr(m', x, []) == Ids(Where(log + [r], keyOf(x)))
  {
    hide Where, Ids;
    var m' := m[own := GetOr(m, own, []) + [r.id]];
    forall x ensures GetOr(m', x, []) == Ids(Where(log + [r], keyOf(x))) {
      WhereAppend(log, r, keyOf(x));
    }
  }

  lemma RecordTypes(s: Store, log: Log, r: EventRecord)
    requires Agrees(s, log)
    ensures forall t :: GetOr(s.byType[r.eventType := GetOr(s.byType, r.eventType, []) + [r.id]], t, [])
                        == Ids(Where(log + [r], ByType(t)))
  {
    hide Where;
    IndexAppend(s.byType, log, r, r.eventType, (t: nat) => ByType(t));
    forall t ensures ((t: nat) => ByType(t))(t) == ByType(t) {}
  }

  lemma RecordActors(s: Store, log: Log, r: EventRecord)
    requires Agrees(s, log)
    ensures forall a :: GetOr(s.byActor[r.actor := GetOr(s.byActor, r.actor, []) + [r.id]], a, [])
                        == Ids(Where(log + [r], ByActor(a)))
  {
    hide Where;
    IndexAppend(s.byActor, log, r, r.actor, (a: nat) => ByActor(a));
    forall a ensures ((a: nat) => ByActor(a))(a) == ByActor(a) {}
  }

  lemma RecordAgrees(s: Store, eventType: Symbol, actor: Address, dataKey: Symbol, now: Timestamp)
    requires Valid(s)
    ensures Agrees(Record(s, eventType, actor, dataKey, now),
                   LogOf(s) + [EventRecord(s.nextId, eventType, now, actor, dataKey)])
  {
    hide Where, Chronological;
    var s', log, r := Record(s, eventType, actor, dataKey, now), LogOf(s),
        EventRecord(s.nextId, eventType, now, actor, dataKey);
    RecordExtendsLog(s, eventType, actor, dataKey, now);
    IdsConcat(log, [r]);
    RecordTypes(s, log, r);
    RecordActors(s, log, r);
    assert forall q :: q in log + [r] ==> q == r || q in log;
  }

  /** Recording appends one record to the log and keeps every index in agreement with it. */
  lemma RecordAppends(s: Store, eventType: Symbol, actor: Address, dataKey: Symbol, now: Timestamp)
    requires Valid(s) && NotAfter(LogOf(s), now)
    ensures var s' := Record(s, eventType, actor, dataKey, now);
            Valid(s') && LogOf(s') == LogOf(s) + [EventRecord(s.nextId, eventType, now, actor, dataKey)]
  {
    hide Agrees;
    var r := EventRecord(s.nextId, eventType, now, actor, dataKey);
    RecordExtendsLog(s, eventType, actor, dataKey, now);
    RecordAgrees(s, eventType, actor, dataKey, now);
    ChronologicalAppend(LogOf(s), r);
    assert forall q :: q in LogOf(s) + [r] ==> q == r || q in LogOf(s);
  }

  // ----- pruning -----

  ghost function EventsOf(s: Store, log: Log): map<nat, EventRecord> {
    map id | id in s.events && id in Ids(log) :: s.events[id]
  }

  ghost function TypesOf(s: Store, log: Log): map<Symbol, seq<nat>> {
    map t | t in s.byType :: Ids(Where(log, ByType(t)))
  }

  ghost function ActorsOf(s: Store, log: Log): map<Address, seq<nat>> {
    map a | a in s.byActor :: Ids(Where(log, ByActor(a)))
  }

  /** The store rebuilt from the records no older than `from`. */
  ghost function Pruned(s: Store, from: nat): Store
    requires Stored(s)
  {
    var log := Where(LogOf(s), Since(from));
    Store(EventsOf(s, log), TypesOf(s, log), ActorsOf(s, log), Ids(log), s.nextId, |log|)
  }

  /** How many records precede a time. */
  ghost function Before(log: Log, from: nat): nat {
    if log == [] || log[0].timestamp >= from then 0 else 1 + Before(log[1..], from)
  }

  /** In a chronological log the records from a time on are a suffix. */
  lemma {:induction false} SinceIsSuffix(log: Log, from: nat)
    requires Chronological(log)
    ensures Before(log, from) <= |log|
    ensures Where(log, Since(from)) == log[Before(log, from)..]
    ensures forall i :: 0 <= i < |log| ==> (log[i].timestamp < from <==> i < Before(log, from))
  {
    if log != [] {
      if log[0].timestamp >= from {
        AllSince(log, from);
      } else {
        SinceIsSuffix(log[1..], from);
        forall i | 0 <= i < |log| ensures log[i].timestamp < from <==> i < Before(log, from) {
          assert i > 0 ==> log[i] == log[1..][i - 1];
        }
      }
    }
  }

  lemma {:induction false} AllSince(log: Log, from: nat)
    requires forall i :: 0 <= i < |log| ==> log[i].timestamp >= from
    ensures Where(log, Since(from)) == log
  {
    if log != [] {
      AllSince(log[1..], from);
    }
  }

  lemma LogOfIds(s: Store, log: Log)
    requires s.allIds == Ids(log) && forall r :: r in log ==> r.id in s.events && s.events[r.id] == r
    ensures Stored(s) && LogOf(s) == log
  {
    forall id | id in s.allIds ensures id in s.events {
      var i :| 0 <= i < |s.allIds| && s.allIds[i] == id;
      assert log[i] in log;
    }
    forall i | 0 <= i < |log| ensures s.events[s.allIds[i]] == log[i] {
      assert log[i] in log;
    }
  }

  lemma {:induction false} WhereCommutes(log: Log, k: Key, l: Key)
    ensures Where(Where(log, k), l) == Where(Where(log, l), k)
  {
    if log != [] {
      WhereCommutes(log[1..], k, l);
      WhereConcat(if Matches(log[0], k) then [log[0]] else [], Where(log[1..], k), l);
      WhereConcat(if Matches(log[0], l) then [log[0]] else [], Where(log[1..], l), k);
    }
  }

  lemma SuffixChronological(log: Log, k: nat)
    requires Chronological(log) && k <= |log|
    ensures Chronological(log[k..])
  {
  }

  lemma PrunedAgrees(s: Store, from: nat)
    requires Valid(s)
    ensures Agrees(Pruned(s, from), Where(LogOf(s), Since(from)))
  {
    hide Where, Chronological;
    var s', log := Pruned(s, from), LogOf(s);
    var rest := Where(log, Since(from));
    WhereSubset(log, Since(from));
    forall r | r in rest ensures r.id in s'.events && s'.events[r.id] == r {
      var i :| 0 <= i < |rest| && rest[i] == r;
      assert Ids(rest)[i] == r.id;
    }
    forall t ensures GetOr(s'.byType, t, []) == Ids(Where(rest, ByType(t))) {
      if t !in s.byType {
        assert Where(log, ByType(t)) == [];
        WhereCommutes(log, ByType(t), Since(from));
        WhereNothing(Since(from));
      }
    }
    forall a ensures GetOr(s'.byActor, a, []) == Ids(Where(rest, ByActor(a))) {
      if a !in s.byActor {
        assert Where(log, ByActor(a)) == [];
        WhereCommutes(log, ByActor(a), Since(from));
        WhereNothing(Since(from));
      }
    }
  }

  lemma WhereNothing(key: Key)
    ensures Where([], key) == []
  {
  }

  /** Pruning removes exactly the records older than the given time -- a prefix of the log -- and
      keeps all indices in agreement with what remains. */
  lemma PruneRemovesPrefix(s: Store, from: nat)
    requires Valid(s)
    ensures var s' := Pruned(s, from); var k := Before(LogOf(s), from);
            && Valid(s')
            && k <= |LogOf(s)| && LogOf(s') == LogOf(s)[k..]
            && (forall i :: 0 <= i < |LogOf(s)| ==> (LogOf(s)[i].timestamp < from <==> i < k))
            && s'.count == s.count - k
  {
    hide Where;
    var s', log, k := Pruned(s, from), LogOf(s), Before(LogOf(s), from);
    SinceIsSuffix(log, from);
    PrunedAgrees(s, from);
    LogOfIds(s', log[k..]);
    SuffixChronological(log, k);
    assert forall r :: r in log[k..] ==> r in log;
  }

  // ----- removing the oldest record -----

  lemma LaterIds(log: Log, i: nat)
    requires Chronological(log) && i < |log|
    ensures log[i].id !in Ids(log[i + 1..])
    ensures forall key {:trigger Where(log[i + 1..], key)} :: log[i].id !in Ids(Where(log[i + 1..], key))
  {
    var r, rest := log[i], log[i + 1..];
    forall j | 0 <= j < |rest| ensures Ids(rest)[j] != r.id {
      assert rest[j] == log[i + 1 + j];
    }
    forall key ensures r.id !in Ids(Where(rest, key)) {
      WhereSubset(rest, key);
      var w := Where(rest, key);
      forall j | 0 <= j < |w| ensures Ids(w)[j] != r.id {
        assert w[j] in rest;
        var m :| 0 <= m < |rest| && rest[m] == w[j];
        assert Ids(rest)[m] == w[j].id;
      }
    }
  }

  lemma WhereHead(log: Log, i: nat, key: Key)
    requires i < |log|
    ensures Where(log[i..], key) == (if Matches(log[i], key) then [log[i]] else []) + Where(log[i + 1..], key)
    ensures Ids(Where(log[i..], key))
            == (if Matches(log[i], key) then [log[i].id] else []) + Ids(Where(log[i + 1..], key))
  {
    assert log[i..][1..] == log[i + 1..];
  }

  lemma EventsStep(s: Store, log: Log, i: nat)
    requires i < |log| && Chronological(log)
    ensures EventsOf(s, log[i..]) - {log[i].id} == EventsOf(s, log[i + 1..])
  {
    hide Where, Chronological;
    LaterIds(log, i);
    assert log[i..] == [log[i]] + log[i + 1..];
    IdsConcat([log[i]], log[i + 1..]);
    assert Ids([log[i]]) == [log[i].id];
  }

  lemma TypesStep(s: Store, log: Log, i: nat)
    requires i < |log| && log[i].eventType in s.byType
    ensures TypesOf(s, log[i..])[log[i].eventType := Ids(Where(log[i + 1..], ByType(log[i].eventType)))]
         == TypesOf(s, log[i + 1..])
  {
    hide Where;
    forall t | t in s.byType && t != log[i].eventType
      ensures Ids(Where(log[i..], ByType(t))) == Ids(Where(log[i + 1..], ByType(t)))
    {
      WhereHead(log, i, ByType(t));
    }
  }

  lemma ActorsStep(s: Store, log: Log, i: nat)
    requires i < |log| && log[i].actor in s.byActor
    ensures ActorsOf(s, log[i..])[log[i].actor := Ids(Where(log[i + 1..], ByActor(log[i].actor)))]
         == ActorsOf(s, log[i + 1..])
  {
    hide Where;
    forall a | a in s.byActor && a != log[i].actor
      ensures Ids(Where(log[i..], ByActor(a))) == Ids(Where(log[i + 1..], ByActor(a)))
    {
      WhereHead(log, i, ByActor(a));
    }
  }

  lemma Indexed(s: Store, log: Log, i: nat)
    requires Agrees(s, log) && i < |log|
    ensures log[i].eventType in s.byType && log[i].actor in s.byActor
    ensures log[i].id in s.events && s.events[log[i].id] == log[i]
  {
    hide Where;
    assert log[i] in log;
    WhereSubset(log, ByType(log[i].eventType));
    WhereSubset(log, ByActor(log[i].actor));
  }

  /** The pruned store, written from the part of the log that remains. */
  lemma PrunedTo(s: Store, from: nat)
    requires Valid(s)
    ensures var log := LogOf(s); var k := Before(log, from);
            && k <= |log| == |s.allIds|
            && Pruned(s, from) == Store(EventsOf(s, log[k..]), TypesOf(s, log[k..]), ActorsOf(s, log[k..]),
                                        s.allIds[k..], s.nextId, s.count - k)
  {
    hide Where, EventsOf, TypesOf, ActorsOf;
    var log, k := LogOf(s), Before(LogOf(s), from);
    SinceIsSuffix(log, from);
    assert Ids(log[k..]) == s.allIds[k..];
  }

  // ----- runs -----

  datatype Op = DoRecord(eventType: Symbol, actor: Address, dataKey: Symbol) | DoPrune(from: nat) | Tick(secs: nat)

  datatype World = World(store: Store, now: Timestamp)

  ghost predicate Reachable(w: World) {
    Valid(w.store) && NotAfter(LogOf(w.store), w.now)
  }

  ghost function Step(w: World, op: Op): World
    requires Stored(w.store)
  {
    match op
    case DoRecord(t, a, k) => w.(store := Record(w.store, t, a, k, w.now))
    case DoPrune(from) => w.(store := Pruned(w.store, from))
    case Tick(secs) => w.(now := SaturatingAdd(w.now, secs))
  }

  lemma StepKeeps(w: World, op: Op)
    requires Reachable(w)
    ensures Reachable(Step(w, op))
  {
    hide Agrees;
    match op
    case DoRecord(t, a, k) => RecordAppends(w.store, t, a, k, w.now);
    case DoPrune(from) =>
      PruneRemovesPrefix(w.store, from);
      assert forall r :: r in LogOf(Step(w, op).store) ==> r in LogOf(w.store);
    case Tick(_) =>
  }

  ghost function Run(w: World, ops: seq<Op>): World
    requires Reachable(w)
    decreases |ops|
  {
    if ops == [] then w
    else
      StepKeeps(w, ops[0]);
      Run(Step(w, ops[0]), ops[1..])
  }

  /** In every reachable state the indices agree with the log. */
  lemma {:induction false} RunKeeps(w: World, ops: seq<Op>)
    requires Reachable(w)
    ensures Reachable(Run(w, ops))
    decreases |ops|
  {
    if ops != [] {
      StepKeeps(w, ops[0]);
      RunKeeps(Step(w, ops[0]), ops[1..]);
    }
  }

  /** A new indexer. */
  function Blank(): Store { Store(map[], map[], map[], [], 1, 0) }

  lemma DeployedReachable(now: Timestamp)
    ensures Reachable(World(Blank(), now))
  {
  }

  /** The same operations on a plain list: recording appends, pruning filters. */
  ghost function Listed(log: Log, next: nat, ops: seq<Op>, now: Timestamp): Log
    decreases |ops|
  {
    if ops == [] then log
    else
      match ops[0]
      case DoRecord(t, a, k) => Listed(log + [EventRecord(next, t, now, a, k)], next + 1, ops[1..], now)
      case DoPrune(from) => Listed(Where(log, Since(from)), next, ops[1..], now)
      case Tick(secs) => Listed(log, next, ops[1..], SaturatingAdd(now, secs))
  }

  /** The indexer refines the plain list, whatever is recorded and pruned. */
  lemma {:induction false} RunRefinesList(w: World, ops: seq<Op>)
    requires Reachable(w)
    ensures Reachable(Run(w, ops)) && LogOf(Run(w, ops).store) == Listed(LogOf(w.store), w.store.nextId, ops, w.now)
    decreases |ops|
  {
    hide Agrees, LogOf, Where, Chronological;
    if ops != [] {
      StepKeeps(w, ops[0]);
      StepRefines(w, ops[0]);
      RunRefinesList(Step(w, ops[0]), ops[1..]);
    }
  }

  lemma StepRefines(w: World, op: Op)
    requires Reachable(w) && Reachable(Step(w, op))
    ensures match op
            case DoRecord(t, a, k) =>
              && LogOf(Step(w, op).store) == LogOf(w.store) + [EventRecord(w.store.nextId, t, w.now, a, k)]
              && Step(w, op).store.nextId == w.store.nextId + 1
            case DoPrune(from) =>
              LogOf(Step(w, op).store) == Where(LogOf(w.store), Since(from))
                && Step(w, op).store.nextId == w.store.nextId
            case Tick(_) => Step(w, op).store == w.store
  {
    hide Agrees, Where;
    match op
    case DoRecord(t, a, k) => RecordAppends(w.store, t, a, k, w.now);
    case DoPrune(from) => PruneRemovesPrefix(w.store, from); SinceIsSuffix(LogOf(w.store), from);
    case Tick(_) =>
  }

  /** What the scans behind the queries mean: every record of the type, by the actor, or from the first second
      asked for to the last, both included, and no other, in the order of recording. */
  lemma ScansMean(log: Log, t: Symbol, a: Address, start: nat, end: nat, r: EventRecord)
    requires Chronological(log)
    ensures r in Where(log, ByType(t)) <==> r in log && r.eventType == t
    ensures r in Where(log, ByActor(a)) <==> r in log && r.actor == a
    ensures r in Where(log, Within(start, end)) <==> r in log && start <= r.timestamp && r.timestamp <= end
    ensures Ordered(Where(log, ByType(t))) && Ordered(Where(log, ByActor(a))) && Ordered(Where(log, Within(start, end)))
  {
    WhereSubset(log, ByType(t));
    WhereSubset(log, ByActor(a));
    WhereSubset(log, Within(start, end));
    WhereOrdered(log, ByType(t));
    WhereOrdered(log, ByActor(a));
    WhereOrdered(log, Within(start, end));
    hide Where;
  }

  ghost predicate Ordered(log: Log) { forall i, j :: 0 <= i < j < |log| ==> log[i].id < log[j].id }

  lemma {:induction false} WhereOrdered(log: Log, key: Key)
    requires Ordered(log)
    ensures Ordered(Where(log, key))
  {
    if log != [] {
      WhereOrdered(log[1..], key);
      WhereSubset(log[1..], key);
      forall r | r in Where(log[1..], key) ensures log[0].id < r.id {
        var i :| 0 <= i < |log[1..]| && log[1..][i] == r;
        assert log[i + 1] == r;
      }
    }
  }

  /** From deployment on, the global list and both indices say what a scan of the plain list says, the
      ids increase strictly, and the count is the list's length. */
  lemma IndicesFromDeployment(now: Timestamp, ops: seq<Op>, t: Symbol, a: Address)
    ensures Reachable(World(Blank(), now))
    ensures var s, log := Run(World(Blank(), now), ops).store, Listed([], 1, ops, now);
            && s.allIds == Ids(log)
            && GetOr(s.byType, t, []) == Ids(Where(log, ByType(t)))
            && GetOr(s.byActor, a, []) == Ids(Where(log, ByActor(a)))
            && s.count == |log|
            && Chronological(log)
            && (forall r :: r in log ==> r.id in s.events && s.events[r.id] == r)
  {
    DeployedReachable(now);
    RunRefinesList(World(Blank(), now), ops);
    assert LogOf(Blank()) == [];
    hide Where, Run, Listed, Chronological, LogOf;
  }
}
