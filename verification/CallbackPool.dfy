/** The multiset union of all values of a map: what is pending in a table of callbacks. */
module CallbackPool {
  ghost function Pool<K, V>(m: map<K, multiset<V>>): multiset<V>
    decreases m.Keys
  {
    if m.Keys == {} then multiset{}
    else
      var k :| k in m;
      m[k] + Pool(m - {k})
  }

  lemma {:induction false} PoolRemove<K, V>(m: map<K, multiset<V>>, k: K)
    requires k in m
    ensures Pool(m) == m[k] + Pool(m - {k})
    decreases m.Keys
  {
    var j :| j in m && Pool(m) == m[j] + Pool(m - {j});
    if j != k {
      PoolRemove(m - {j}, k);
      PoolRemove(m - {k}, j);
      assert m - {j} - {k} == m - {k} - {j};
    }
  }

  /** Replacing one value (absent counts as empty) changes the pool by the difference. */
  lemma PoolUpdate<K, V>(m: map<K, multiset<V>>, k: K, v: multiset<V>)
    ensures Pool(m[k := v]) + (if k in m then m[k] else multiset{}) == Pool(m) + v
  {
    PoolRemove(m[k := v], k);
    assert m[k := v] - {k} == m - {k};
    if k in m {
      PoolRemove(m, k);
    } else {
      assert m - {k} == m;
    }
  }

  /** The entries of m with the given keys. */
  ghost function Part<K, V>(m: map<K, V>, keys: set<K>): map<K, V>
    requires keys <= m.Keys
  {
    map k | k in keys :: m[k]
  }
}
