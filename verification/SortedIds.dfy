/** Ascending id lists with repetition. */
module SortedIds {

  predicate Sorted(ids: seq<nat>) {
    forall i, j :: 0 <= i < j < |ids| ==> ids[i] <= ids[j]
  }

  /** Insert before the first id that is not smaller. */
  function Inserted(ids: seq<nat>, id: nat): seq<nat> {
    if ids == [] then [id]
    else if ids[0] >= id then [id] + ids
    else [ids[0]] + Inserted(ids[1..], id)
  }

  method InsertSorted(ids: seq<nat>, id: nat) returns (r: seq<nat>)
    ensures r == Inserted(ids, id)
  {
    var pos := |ids|;
    for i := 0 to |ids|
      invariant pos == |ids| && forall j :: 0 <= j < i ==> ids[j] < id
    {
      if ids[i] >= id {
        pos := i;
        break;
      }
    }
    InsertedAt(ids, id, pos);
    r := if pos == |ids| then ids + [id] else ids[..pos] + [id] + ids[pos..];
  }

  lemma {:induction false} InsertedAt(ids: seq<nat>, id: nat, pos: nat)
    requires pos <= |ids| && (forall j :: 0 <= j < pos ==> ids[j] < id) && (pos < |ids| ==> ids[pos] >= id)
    ensures Inserted(ids, id) == ids[..pos] + [id] + ids[pos..]
  {
    if pos > 0 {
      InsertedAt(ids[1..], id, pos - 1);
      assert ids[..pos] == [ids[0]] + ids[1..][..pos - 1];
    }
  }

  lemma {:induction false} InsertedCounts(ids: seq<nat>, id: nat)
    ensures multiset(Inserted(ids, id)) == multiset(ids) + multiset{id}
  {
    if ids != [] {
      assert ids == [ids[0]] + ids[1..];
      if ids[0] < id {
        InsertedCounts(ids[1..], id);
      }
    }
  }

  lemma SortedCons(x: nat, rest: seq<nat>)
    requires Sorted(rest) && forall y :: y in multiset(rest) ==> x <= y
    ensures Sorted([x] + rest)
  {
    forall i | 0 <= i < |rest| ensures x <= rest[i] {
      assert rest[i] in multiset(rest);
    }
  }

  lemma {:induction false} InsertedSorted(ids: seq<nat>, id: nat)
    requires Sorted(ids)
    ensures Sorted(Inserted(ids, id))
  {
    if ids != [] && ids[0] < id {
      TailAbove(ids);
      hide Sorted;
      InsertedSorted(ids[1..], id);
      InsertedCounts(ids[1..], id);
      SortedCons(ids[0], Inserted(ids[1..], id));
    }
  }

  lemma TailAbove(ids: seq<nat>)
    requires Sorted(ids) && ids != []
    ensures Sorted(ids[1..]) && forall y :: y in multiset(ids[1..]) ==> ids[0] <= y
  {
    forall y | y in multiset(ids[1..]) ensures ids[0] <= y {
      assert y in ids[1..];
    }
  }

  lemma Uncons(a: seq<nat>)
    requires a != []
    ensures a == [a[0]] + a[1..] && multiset(a) == multiset{a[0]} + multiset(a[1..])
  {
    assert a == [a[0]] + a[1..];
  }

  lemma HeadIsLeast(a: seq<nat>, x: nat)
    requires Sorted(a) && x in multiset(a)
    ensures a != [] && a[0] <= x
  {
  }

  lemma CancelHead(x: nat, m: multiset<nat>, n: multiset<nat>)
    requires multiset{x} + m == multiset{x} + n
    ensures m == n
  {
    assert m == multiset{x} + m - multiset{x};
    assert n == multiset{x} + n - multiset{x};
  }

  lemma SameHead(a: seq<nat>, b: seq<nat>)
    requires Sorted(a) && Sorted(b) && multiset(a) == multiset(b) && a != []
    ensures b != [] && a[0] == b[0]
  {
    assert a[0] in multiset(a);
    HeadIsLeast(b, a[0]);
    assert b[0] in multiset(b);
    HeadIsLeast(a, b[0]);
  }

  /** A sorted list is determined by how often it holds each id. */
  lemma {:induction false} SortedUnique(a: seq<nat>, b: seq<nat>)
    requires Sorted(a) && Sorted(b) && multiset(a) == multiset(b)
    ensures a == b
  {
    if a != [] {
      SameHead(a, b);
      Uncons(a);
      Uncons(b);
      CancelHead(a[0], multiset(a[1..]), multiset(b[1..]));
      SortedUnique(a[1..], b[1..]);
    } else if b != [] {
      SameHead(b, a);
    }
  }
}
