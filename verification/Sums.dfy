/** Totals over the rows of a table. */
module Sums {

  ghost function Total<K, V>(m: map<K, V>, f: V -> int): int {
    if m == map[] then 0
    else
      var k :| k in m;
      f(m[k]) + Total(m - {k}, f)
  }

  /** The total does not depend on the order in which rows are visited. */
  lemma {:induction false} TotalSplit<K, V>(m: map<K, V>, f: V -> int, key: K)
    requires key in m
    ensures Total(m, f) == f(m[key]) + Total(m - {key}, f)
    decreases |m|
  {
    var k :| k in m && Total(m, f) == f(m[k]) + Total(m - {k}, f);
    if k != key {
      TotalSplit(m - {k}, f, key);
      TotalSplit(m - {key}, f, k);
      assert m - {k} - {key} == m - {key} - {k};
    }
  }

  lemma TotalUpdate<K, V>(m: map<K, V>, f: V -> int, key: K, value: V)
    ensures Total(m[key := value], f) == Total(m, f) + f(value) - (if key in m then f(m[key]) else 0)
  {
    var n := m[key := value];
    TotalSplit(n, f, key);
    assert n - {key} == m - {key};
    if key in m {
      TotalSplit(m, f, key);
    } else {
      assert m - {key} == m;
    }
  }

  lemma {:induction false} TotalUnion<K, V>(m: map<K, V>, n: map<K, V>, f: V -> int)
    requires m.Keys !! n.Keys
    ensures Total(m + n, f) == Total(m, f) + Total(n, f)
    decreases |n|
  {
    if n == map[] {
      assert m + n == m;
    } else {
      var k :| k in n && Total(n, f) == f(n[k]) + Total(n - {k}, f);
      TotalUnion(m, n - {k}, f);
      UnionWithout(m, n, k);
      TotalSplit(m + n, f, k);
    }
  }

  lemma UnionWithout<K, V>(m: map<K, V>, n: map<K, V>, k: K)
    requires m.Keys !! n.Keys && k in n
    ensures (m + n) - {k} == m + (n - {k}) && (m + n)[k] == n[k]
  {
  }

  lemma {:induction false} TotalNonNegative<K, V>(m: map<K, V>, f: V -> int)
    requires forall k :: k in m ==> f(m[k]) >= 0
    ensures Total(m, f) >= 0
    decreases |m|
  {
    if m != map[] {
      var k :| k in m && Total(m, f) == f(m[k]) + Total(m - {k}, f);
      TotalNonNegative(m - {k}, f);
    }
  }
}
