/** Sums over the entries of a finite map: every ledger of the program is one of these. */
module Sums {
  ghost function MapSum<V>(m: map<nat, V>, f: V -> int): int {
    if m == map[] then 0
    else
      var k :| k in m;
      f(m[k]) + MapSum(m - {k}, f)
  }

  lemma {:induction false} MapSumRemove<V>(m: map<nat, V>, k: nat, f: V -> int)
    requires k in m
    ensures MapSum(m, f) == f(m[k]) + MapSum(m - {k}, f)
  {
    var j :| j in m && MapSum(m, f) == f(m[j]) + MapSum(m - {j}, f);
    if j != k {
      MapSumRemove(m - {j}, k, f);
      MapSumRemove(m - {k}, j, f);
      assert m - {j} - {k} == m - {k} - {j};
    }
  }

  lemma MapSumUpdate<V>(m: map<nat, V>, k: nat, v: V, f: V -> int)
    ensures MapSum(m[k := v], f) == MapSum(m, f) + f(v) - (if k in m then f(m[k]) else 0)
  {
    MapSumRemove(m[k := v], k, f);
    assert m[k := v] - {k} == m - {k};
    if k in m {
      MapSumRemove(m, k, f);
    } else {
      assert m - {k} == m;
    }
  }

  function Restrict<V>(m: map<nat, V>, s: set<nat>): map<nat, V> {
    map k | k in m && k in s :: m[k]
  }

  lemma {:induction false} MapSumSplit<V>(m: map<nat, V>, s: set<nat>, f: V -> int)
    ensures MapSum(m, f) == MapSum(Restrict(m, s), f) + MapSum(m - s, f)
    decreases |m|
  {
    if m == map[] {
      assert Restrict(m, s) == m && m - s == m;
    } else {
      var k :| k in m;
      MapSumRemove(m, k, f);
      MapSumSplit(m - {k}, s, f);
      if k in s {
        MapSumRemove(Restrict(m, s), k, f);
        assert Restrict(m, s) - {k} == Restrict(m - {k}, s);
        assert m - {k} - s == m - s;
      } else {
        MapSumRemove(m - s, k, f);
        assert m - s - {k} == m - {k} - s;
        assert Restrict(m - {k}, s) == Restrict(m, s);
      }
    }
  }

  lemma {:induction false} MapSumNonNegative<V>(m: map<nat, V>, f: V -> int)
    requires forall k :: k in m ==> 0 <= f(m[k])
    ensures 0 <= MapSum(m, f)
    decreases |m|
  {
    if m != map[] {
      var k :| k in m;
      MapSumRemove(m, k, f);
      MapSumNonNegative(m - {k}, f);
    }
  }

  lemma {:induction false} MapSumAtMost<V>(m: map<nat, V>, f: V -> int, g: V -> int)
    requires forall k :: k in m ==> f(m[k]) <= g(m[k])
    ensures MapSum(m, f) <= MapSum(m, g)
    decreases |m|
  {
    if m != map[] {
      var k :| k in m;
      MapSumRemove(m, k, f);
      MapSumRemove(m, k, g);
      MapSumAtMost(m - {k}, f, g);
    }
  }

  /** One entry never exceeds the sum of nonnegative entries. */
  lemma MapSumAtLeast<V>(m: map<nat, V>, k: nat, f: V -> int)
    requires k in m
    requires forall j :: j in m ==> 0 <= f(m[j])
    ensures f(m[k]) <= MapSum(m, f)
  {
    MapSumRemove(m, k, f);
    MapSumNonNegative(m - {k}, f);
  }

  /** The entries with key below k. */
  function Below<V>(m: map<nat, V>, k: nat): map<nat, V> {
    map j | j in m && j < k :: m[j]
  }

  lemma BelowSumUpdate<V>(m: map<nat, V>, k: nat, j: nat, v: V, f: V -> int)
    requires j in m
    ensures MapSum(Below(m[j := v], k), f)
         == MapSum(Below(m, k), f) + (if j < k then f(v) - f(m[j]) else 0)
  {
    if j < k {
      assert Below(m[j := v], k) == Below(m, k)[j := v];
      MapSumUpdate(Below(m, k), j, v, f);
    } else {
      assert Below(m[j := v], k) == Below(m, k);
    }
  }

  /** Adding one new entry to a restricted sum. */
  lemma RestrictSumInsert<V>(m: map<nat, V>, s: set<nat>, k: nat, f: V -> int)
    requires k in m && k !in s
    ensures MapSum(Restrict(m, s + {k}), f) == MapSum(Restrict(m, s), f) + f(m[k])
  {
    assert Restrict(m, s + {k}) == Restrict(m, s)[k := m[k]];
    MapSumUpdate(Restrict(m, s), k, m[k], f);
  }

  lemma RestrictEmpty<V>(m: map<nat, V>, f: V -> int)
    ensures MapSum(Restrict(m, {}), f) == 0
  {
    assert Restrict(m, {}) == map[];
  }
}
