/** Totals over the rows of a table, and how one insertion changes them. */
module MapSum {

  ghost function Sum<K(!new)>(m: map<K, int>): int
    decreases |m|
  {
    if m == map[] then 0
    else
      var k :| k in m;
      assert |m - {k}| < |m| by { Shrinks(m, k); }
      m[k] + Sum(m - {k})
  }

  lemma Shrinks<K, V>(m: map<K, V>, k: K)
    requires k in m
    ensures |m - {k}| == |m| - 1
  {
    assert m.Keys == (m - {k}).Keys + {k};
  }

  /** Any row may be taken out first. */
  lemma {:induction false} SumRemove<K(!new)>(m: map<K, int>, k: K)
    requires k in m
    ensures Sum(m) == m[k] + Sum(m - {k})
    decreases |m|
  {
    var k0 :| k0 in m && Sum(m) == m[k0] + Sum(m - {k0});
    if k0 != k {
      Shrinks(m, k0);
      Shrinks(m, k);
      SumRemove(m - {k0}, k);
      SumRemove(m - {k}, k0);
      assert m - {k0} - {k} == m - {k} - {k0};
    }
  }

  /** Inserting a fresh row adds its value. */
  lemma SumInsert<K(!new)>(m: map<K, int>, k: K, v: int)
    requires k !in m
    ensures Sum(m[k := v]) == Sum(m) + v
  {
    SumRemove(m[k := v], k);
    assert m[k := v] - {k} == m;
  }

  lemma MergeEmpty<K, V>(a: map<K, V>, b: map<K, V>)
    requires |b| == 0
    ensures a + b == a
  {
  }

  lemma MergeInsert<K, V>(a: map<K, V>, b: map<K, V>, k: K, v: V)
    ensures a + b[k := v] == (a + b)[k := v]
  {
  }

  lemma Reinsert<K, V>(m: map<K, V>, k: K)
    requires k in m
    ensures (m - {k})[k := m[k]] == m
  {
  }

  /** The total of two tables without a common key. */
  lemma {:induction false} SumUnion<K(!new)>(a: map<K, int>, b: map<K, int>)
    requires a.Keys !! b.Keys
    ensures Sum(a + b) == Sum(a) + Sum(b)
    decreases |b|
  {
    if |b| == 0 {
      MergeEmpty(a, b);
    } else {
      var k :| k in b.Keys;
      var rest := b - {k};
      Shrinks(b, k);
      SumUnion(a, rest);
      Reinsert(b, k);
      MergeInsert(a, rest, k, b[k]);
      SumInsert(rest, k, b[k]);
      SumInsert(a + rest, k, b[k]);
    }
  }

  lemma {:induction false} SumAtLeastSize<K(!new)>(m: map<K, int>)
    requires forall k :: k in m ==> m[k] >= 1
    ensures Sum(m) >= |m|
    decreases |m|
  {
    if |m| == 0 {
      assert m == map[];
    } else {
      var k :| k in m.Keys;
      Shrinks(m, k);
      SumRemove(m, k);
      SumAtLeastSize(m - {k});
    }
  }
}
