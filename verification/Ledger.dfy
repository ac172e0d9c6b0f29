/** Totals over a balance map, and the ascending key order in which the host iterates one. */
module Ledger {
  import opened Base

  /** The sum of all balances. */
  ghost function Total<K>(m: map<K, int>): int
    decreases |m|
  {
    if m == map[] then 0 else
      var k :| k in m;
      assert |m - {k}| < |m| by { Shrinks(m, k); }
      m[k] + Total(m - {k})
  }

  lemma Shrinks<K>(m: map<K, int>, k: K)
    requires k in m
    ensures |m - {k}| == |m| - 1
  {
    assert (m - {k}).Keys == m.Keys - {k};
  }

  /** Any key may be taken out first: the total does not depend on an order. */
  lemma {:induction false} TotalPick<K>(m: map<K, int>, k: K)
    requires k in m
    ensures Total(m) == m[k] + Total(m - {k})
    decreases |m|
  {
    var c :| c in m && Total(m) == m[c] + Total(m - {c});
    if c != k {
      Shrinks(m, c);
      Shrinks(m, k);
      TotalPick(m - {c}, k);
      TotalPick(m - {k}, c);
      assert m - {c} - {k} == m - {k} - {c};
    }
  }

  lemma TotalSet<K>(m: map<K, int>, k: K, v: int)
    ensures Total(m[k := v]) == Total(m) - GetOr(m, k, 0) + v
  {
    TotalPick(m[k := v], k);
    if k in m {
      TotalPick(m, k);
      assert m[k := v] - {k} == m - {k};
    } else {
      assert m[k := v] - {k} == m;
    }
  }

  lemma TotalRemove<K>(m: map<K, int>, k: K)
    ensures Total(m - {k}) == Total(m) - GetOr(m, k, 0)
  {
    if k in m {
      TotalPick(m, k);
    } else {
      assert m - {k} == m;
    }
  }

  /** A map of non-negative balances has a non-negative total, at least as large as each balance. */
  lemma {:induction false} TotalBounds<K>(m: map<K, int>)
    requires forall k :: k in m ==> m[k] >= 0
    ensures Total(m) >= 0
    ensures forall k :: k in m ==> m[k] <= Total(m)
    decreases |m|
  {
    forall k | k in m
      ensures 0 <= m[k] <= Total(m)
    {
      Shrinks(m, k);
      TotalBounds(m - {k});
      TotalPick(m, k);
    }
  }

  ghost function Elements<T>(s: seq<T>): set<T> { set x | x in s }

  predicate Distinct<T(==)>(s: seq<T>) {
    forall i, j :: 0 <= i < j < |s| ==> s[i] != s[j]
  }

  lemma DistinctAppend<T>(s: seq<T>, x: T)
    requires Distinct(s) && x !in s
    ensures Distinct(s + [x])
  {
  }

  predicate Ascending(keys: seq<nat>) {
    forall i, j :: 0 <= i < j < |keys| ==> keys[i] < keys[j]
  }

  lemma {:induction false} LeastExists(s: set<nat>) returns (least: nat)
    requires s != {}
    ensures least in s && forall j :: j in s ==> least <= j
  {
    least :| least in s;
    var rest := s - {least};
    if rest != {} {
      var k := LeastExists(rest);
      least := if least < k then least else k;
    }
    assert forall j :: j in s ==> j in rest || least <= j;
  }

  predicate IsLeast(k: nat, s: set<nat>) {
    k in s && forall j :: j in s ==> k <= j
  }

  /** The keys of a host map, in the ascending order of its iteration. */
  function SortedKeys(s: set<nat>): (keys: seq<nat>)
    ensures Ascending(keys)
    ensures forall k :: k in keys <==> k in s
  {
    if s == {} then [] else
      assert exists k :: IsLeast(k, s) by {
        var least := LeastExists(s);
        assert IsLeast(least, s);
      }
      var k :| IsLeast(k, s);
      [k] + SortedKeys(s - {k})
  }
}
