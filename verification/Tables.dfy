/** What every table of the model shares: optional columns, the outcome of a
    transaction, cardinalities and sums over the rows of a table. */
module Tables {

  datatype Option<+T> = None | Some(value: T)

  /** A transaction either commits a new state or throws, which rolls back. */
  datatype Tx<+S> = Committed(state: S) | Rejected(code: string)

  lemma SubsetCardinality<T>(a: set<T>, b: set<T>)
    requires a <= b
    ensures |a| <= |b|
    ensures |a| == |b| ==> a == b
  {
    assert b == a + (b - a);
    assert |b| == |a| + |b - a|;
  }

  lemma SameKeysSameSize<K, V, W>(m: map<K, V>, n: map<K, W>)
    requires m.Keys == n.Keys
    ensures |m| == |n|
  {
    assert |m| == |m.Keys| && |n| == |n.Keys|;
  }

  /** The sum of one integer column over all rows. */
  ghost function Sum<K(!new)>(m: map<K, int>): int
    decreases |m|
  {
    if m == map[] then 0 else
      var k :| k in m;
      m[k] + Sum(m - {k})
  }

  lemma {:induction false} SumRemove<K(!new)>(m: map<K, int>, k: K)
    requires k in m
    ensures Sum(m) == m[k] + Sum(m - {k})
    decreases |m|
  {
    var j :| j in m && Sum(m) == m[j] + Sum(m - {j});
    if j != k {
      SumRemove(m - {j}, k);
      SumRemove(m - {k}, j);
      assert m - {j} - {k} == m - {k} - {j};
    }
  }

  lemma SumInsert<K(!new)>(m: map<K, int>, k: K, v: int)
    requires k !in m
    ensures Sum(m[k := v]) == Sum(m) + v
  {
    SumRemove(m[k := v], k);
    assert m[k := v] - {k} == m;
  }

  /** Taking a group of rows out of a table takes their sum out. */
  lemma {:induction false} SumSplit<K(!new)>(m: map<K, int>, group: set<K>)
    requires group <= m.Keys
    ensures Sum(m) == Sum(m - group) + Sum(map k | k in group :: m[k])
    decreases |group|
  {
    if group == {} {
      assert m - group == m;
      assert (map k | k in group :: m[k]) == map[];
    } else {
      var k :| k in group;
      SumRemove(m, k);
      var g := map j | j in group :: m[j];
      SumRemove(g, k);
      var rest := group - {k};
      SumSplit(m - {k}, rest);
      assert m - {k} - rest == m - group;
      assert g - {k} == (map j | j in rest :: (m - {k})[j]);
    }
  }

  lemma {:induction false} SumNonNegative<K(!new)>(m: map<K, int>)
    requires forall k | k in m :: 0 <= m[k]
    ensures 0 <= Sum(m)
    ensures forall k | k in m :: m[k] <= Sum(m)
    decreases |m|
  {
    if m != map[] {
      forall k | k in m ensures m[k] <= Sum(m) {
        SumRemove(m, k);
        SumNonNegative(m - {k});
      }
      var k :| k in m;
      assert m[k] <= Sum(m);
    }
  }
}
