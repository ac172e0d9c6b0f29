/** The event indexer as deployed. */
module EventIndexer {
  import opened Base
  import opened Paging
  import opened EventLog

  /** Every record of a log can be loaded by its id. */
  ghost predicate Loads(events: map<nat, EventRecord>, log: Log) {
    forall r :: r in log ==> r.id in events && events[r.id] == r
  }

  /** The page loop of the two indexed queries. */
  method Collect(events: map<nat, EventRecord>, ids: seq<nat>, ghost selected: Log, offset: nat, limit: nat)
    returns (result: Log)
    requires ids == Ids(selected) && Loads(events, selected)
    ensures result == Page(selected, offset, limit)
  {
    result := [];
    for i := 0 to |ids|
      invariant result == Page(selected[..i], offset, limit)
    {
      hide Page;
      assert selected[i] in selected && ids[i] == selected[i].id;
      assert selected[..i + 1] == selected[..i] + [selected[i]];
      PageSnoc(selected[..i], selected[i], offset, limit);
      if i >= offset && |result| < limit {
        if ids[i] in events {
          result := result + [events[ids[i]]];
        }
      }
      if |result| >= limit {
        assert selected == selected[..i + 1] + selected[i + 1..];
        PageFull(selected[..i + 1], selected[i + 1..], offset, limit);
        return;
      }
    }
    assert selected[..|ids|] == selected;
  }

  lemma Loaded(events: map<nat, EventRecord>, ids: seq<nat>, log: Log, i: nat)
    requires ids == Ids(log) && Loads(events, log) && i < |ids|
    ensures ids[i] in events && events[ids[i]] == log[i]
  {
    assert log[i] in log;
  }

  /** One more record in the scan. */
  lemma ScanStep(log: Log, i: nat, key: Key, offset: nat, limit: nat)
    requires i < |log|
    ensures var found, page := Where(log[..i], key), Page(Where(log[..i], key), offset, limit);
            && |Where(log[..i + 1], key)| == |found| + (if Matches(log[i], key) then 1 else 0)
            && Page(Where(log[..i + 1], key), offset, limit)
               == page + if Matches(log[i], key) && |found| >= offset && |page| < limit then [log[i]] else []
  {
    hide Where, Page;
    assert log[..i + 1] == log[..i] + [log[i]];
    WhereAppend(log[..i], log[i], key);
    assert Where(log[..i], key) + [] == Where(log[..i], key);
    PageSnoc(Where(log[..i], key), log[i], offset, limit);
  }

  lemma ScanFull(log: Log, i: nat, key: Key, offset: nat, limit: nat)
    requires i <= |log| && |Page(Where(log[..i], key), offset, limit)| >= limit
    ensures Page(Where(log, key), offset, limit) == Page(Where(log[..i], key), offset, limit)
  {
    hide Where, Page;
    assert log == log[..i] + log[i..];
    WhereConcat(log[..i], log[i..], key);
    PageFull(Where(log[..i], key), Where(log[i..], key), offset, limit);
  }

  /** The scan of the time-range query. */
  method Scan(events: map<nat, EventRecord>, ids: seq<nat>, ghost log: Log, start: nat, end: nat, offset: nat,
              limit: nat)
    returns (result: Log)
    requires ids == Ids(log) && Loads(events, log)
    ensures result == Page(Where(log, Within(start, end)), offset, limit)
  {
    ghost var key := Within(start, end);
    var skipped := 0;
    result := [];
    assert log[..0] == [];
    for i := 0 to |ids|
      invariant skipped == Min(|Where(log[..i], key)|, offset)
      invariant result == Page(Where(log[..i], key), offset, limit)
    {
      hide Where, Page, Loads;
      Loaded(events, ids, log, i);
      ScanStep(log, i, key, offset, limit);
      if ids[i] in events {
        var record := events[ids[i]];
        if start <= record.timestamp <= end {
          if skipped < offset {
            skipped := skipped + 1;
          } else if |result| < limit {
            result := result + [record];
          }
        }
      }
      if |result| >= limit {
        ScanFull(log, i + 1, key, offset, limit);
        return;
      }
    }
    assert log[..|ids|] == log;
  }

  /** Separate the ids to prune from those to keep. */
  method Partition(events: map<nat, EventRecord>, ids: seq<nat>, ghost log: Log, from: nat)
    returns (toPrune: seq<nat>, kept: seq<nat>)
    requires ids == Ids(log) && Loads(events, log) && Chronological(log)
    ensures Before(log, from) <= |log|
    ensures toPrune == ids[..Before(log, from)] && kept == ids[Before(log, from)..]
  {
    SinceIsSuffix(log, from);
    ghost var k := Before(log, from);
    hide Before, Chronological, Where, Loads, Ids;
    toPrune, kept := [], [];
    for i := 0 to |ids|
      invariant toPrune == if i <= k then ids[..i] else ids[..k]
      invariant kept == if i <= k then [] else ids[k..i]
    {
      Loaded(events, ids, log, i);
      if ids[i] in events {
        if events[ids[i]].timestamp < from {
          SliceGrows(ids, 0, i);
          toPrune := toPrune + [ids[i]];
        } else {
          SliceGrows(ids, k, i);
          kept := kept + [ids[i]];
        }
      }
    }
    assert ids[k..|ids|] == ids[k..];
  }

  lemma SliceGrows(ids: seq<nat>, from: nat, i: nat)
    requires from <= i < |ids|
    ensures ids[from..i + 1] == ids[from..i] + [ids[i]]
  {
  }

  /** Drop one id from an index entry. */
  method Remove(ids: seq<nat>, id: nat, ghost rest: seq<nat>) returns (kept: seq<nat>)
    requires id !in rest && (ids == rest || ids == [id] + rest)
    ensures kept == rest
  {
    kept := [];
    for i := 0 to |ids|
      invariant kept == if ids == rest then rest[..i] else if i == 0 then [] else rest[..i - 1]
    {
      if ids[i] != id { kept := kept + [ids[i]]; }
    }
  }

  class Contract {
    var recorders: seq<Address>
    var events: map<nat, EventRecord>
    var byType: map<Symbol, seq<nat>>
    var byActor: map<Address, seq<nat>>
    var allIds: seq<nat>
    var nextId: nat
    var count: nat

    function State(): Store
      reads this
    {
      Store(events, byType, byActor, allIds, nextId, count)
    }

    constructor ()
      ensures State() == Store(map[], map[], map[], [], 1, 0) && recorders == []
    {
      recorders, events, byType, byActor, allIds, nextId, count := [], map[], map[], map[], [], 1, 0;
    }

    method AddRecorder(r: Address)
      modifies this`recorders
      ensures recorders == if r in old(recorders) then old(recorders) else old(recorders) + [r]
    {
      if r !in recorders { recorders := recorders + [r]; }
    }

    method RecordEvent(caller: Address, eventType: Symbol, actor: Address, dataKey: Symbol, now: Timestamp)
      returns (r: Result<nat>)
      modifies this
      ensures recorders == old(recorders)
      ensures caller in recorders ==>
                r == Ok(old(nextId)) && State() == Record(old(State()), eventType, actor, dataKey, now)
      ensures caller !in recorders ==> r == Err(Trap) && State() == old(State())
    {
      if caller !in recorders { return Err(Trap); }
      var id := nextId;
      events := events[id := EventRecord(id, eventType, now, actor, dataKey)];
      byType := byType[eventType := GetOr(byType, eventType, []) + [id]];
      byActor := byActor[actor := GetOr(byActor, actor, []) + [id]];
      allIds := allIds + [id];
      nextId, count := id + 1, count + 1;
      return Ok(id);
    }

    method EventsByType(t: Symbol, offset: nat, limit: nat) returns (result: Log)
      requires Valid(State())
      ensures result == Page(Where(LogOf(State()), ByType(t)), offset, limit)
    {
      hide Where, Chronological, Page;
      WhereSubset(LogOf(State()), ByType(t));
      result := Collect(events, GetOr(byType, t, []), Where(LogOf(State()), ByType(t)), offset, limit);
    }

    method EventsByActor(a: Address, offset: nat, limit: nat) returns (result: Log)
      requires Valid(State())
      ensures result == Page(Where(LogOf(State()), ByActor(a)), offset, limit)
    {
      hide Where, Chronological, Page;
      WhereSubset(LogOf(State()), ByActor(a));
      result := Collect(events, GetOr(byActor, a, []), Where(LogOf(State()), ByActor(a)), offset, limit);
    }

    method EventsByTime(start: nat, end: nat, offset: nat, limit: nat) returns (r: Result<Log>)
      requires Valid(State())
      ensures r == if start <= end then Ok(Page(Where(LogOf(State()), Within(start, end)), offset, limit))
                   else Err(Trap)
    {
      hide Where, Chronological, Page;
      if start > end { return Err(Trap); }
      var result := Scan(events, allIds, LogOf(State()), start, end, offset, limit);
      return Ok(result);
    }

    /** The records and both indices restricted to a part of the log. */
    ghost predicate Holds(s: Store, log: Log)
      reads this
    {
      events == EventsOf(s, log) && byType == TypesOf(s, log) && byActor == ActorsOf(s, log)
    }

    /** Remove the oldest remaining record. */
    method PruneRecord(id: nat, ghost s: Store, ghost log: Log, ghost i: nat)
      requires Agrees(s, log) && Chronological(log) && i < |log| && id == log[i].id
      requires Holds(s, log[i..])
      modifies this`events, this`byType, this`byActor
      ensures Holds(s, log[i + 1..])
    {
      hide Where, Chronological, EventsOf, TypesOf, ActorsOf, Agrees, Ids;
      Oldest(s, log, i);
      var record := events[id];
      EventsStep(s, log, i);
      TypesStep(s, log, i);
      ActorsStep(s, log, i);
      var typeIds :=
          Remove(GetOr(byType, record.eventType, []), id, Ids(Where(log[i + 1..], ByType(record.eventType))));
      byType := byType[record.eventType := typeIds];
      var actorIds := Remove(GetOr(byActor, record.actor, []), id, Ids(Where(log[i + 1..], ByActor(record.actor))));
      byActor := byActor[record.actor := actorIds];
      events := events - {id};
    }

    /** Where the oldest remaining record sits in the remaining index entries. */
    lemma Oldest(s: Store, log: Log, i: nat)
      requires Agrees(s, log) && Chronological(log) && i < |log|
      ensures var r := log[i];
              && r.id in EventsOf(s, log[i..]) && EventsOf(s, log[i..])[r.id] == r
              && r.eventType in s.byType && r.actor in s.byActor
              && r.eventType in TypesOf(s, log[i..]) && r.actor in ActorsOf(s, log[i..])
              && TypesOf(s, log[i..])[r.eventType] == [r.id] + Ids(Where(log[i + 1..], ByType(r.eventType)))
              && ActorsOf(s, log[i..])[r.actor] == [r.id] + Ids(Where(log[i + 1..], ByActor(r.actor)))
              && r.id !in Ids(Where(log[i + 1..], ByType(r.eventType)))
              && r.id !in Ids(Where(log[i + 1..], ByActor(r.actor)))
    {
      Indexed(s, log, i);
      LaterIds(log, i);
      WhereHead(log, i, ByType(log[i].eventType));
      WhereHead(log, i, ByActor(log[i].actor));
      hide Where, Chronological, Agrees;
      assert Ids(log[i..])[0] == log[i].id;
    }

    method PruneEvents(from: nat) returns (pruned: nat)
      requires Valid(State())
      modifies this
      ensures recorders == old(recorders)
      ensures State() == Pruned(old(State()), from)
      ensures pruned == Before(LogOf(old(State())), from)
    {
      ghost var s, log := State(), LogOf(State());
      PrunedTo(s, from);
      NothingPruned(s, log);
      var toPrune, kept := Partition(events, allIds, log, from);
      pruned := RemoveAll(toPrune, s, log);
      hide Pruned, LogOf, Valid, Before, EventsOf, TypesOf, ActorsOf;
      allIds, count := kept, count - pruned;
    }

    /** Remove the records of the given ids, oldest first, from the store and both indices. */
    method RemoveAll(toPrune: seq<nat>, ghost s: Store, ghost log: Log) returns (pruned: nat)
      requires Agrees(s, log) && Chronological(log) && |toPrune| <= |log| && toPrune == Ids(log)[..|toPrune|]
      requires Holds(s, log[0..])
      modifies this`events, this`byType, this`byActor
      ensures pruned == |toPrune| && Holds(s, log[|toPrune|..])
    {
      pruned := 0;
      for i := 0 to |toPrune|
        invariant pruned == i && Holds(s, log[i..])
      {
        hide Holds, Agrees, Chronological;
        PruneRecord(toPrune[i], s, log, i);
        pruned := pruned + 1;
      }
    }

    lemma NothingPruned(s: Store, log: Log)
      requires Agrees(s, log) && State() == s
      ensures Holds(s, log[0..])
    {
      hide Where;
      assert log[0..] == log;
      assert events == EventsOf(s, log);
      assert byType == TypesOf(s, log) by {
        forall t | t in byType ensures byType[t] == Ids(Where(log, ByType(t))) {
          assert GetOr(s.byType, t, []) == Ids(Where(log, ByType(t)));
        }
      }
      assert byActor == ActorsOf(s, log) by {
        forall a | a in byActor ensures byActor[a] == Ids(Where(log, ByActor(a))) {
          assert GetOr(s.byActor, a, []) == Ids(Where(log, ByActor(a)));
        }
      }
    }
  }
}
