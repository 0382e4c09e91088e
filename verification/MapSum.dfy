/** Sums over the values of a finite map. */
module MapSum {
  import opened Collections

  ghost function SumOf<K>(m: map<K, nat>): nat
    decreases |m|
  {
    if m == map[] then 0
    else
      assert m.Keys != {};
      var k := Choose(m.Keys);
      m[k] + SumOf(m - {k})
  }

  /** The order in which values are added does not matter. */
  lemma {:induction false} SumWithout<K>(m: map<K, nat>, k: K)
    requires k in m
    ensures SumOf(m) == m[k] + SumOf(m - {k})
    decreases |m|
  {
    var p := Choose(m.Keys);
    if p != k {
      SumWithout(m - {p}, k);
      SumWithout(m - {k}, p);
      assert m - {p} - {k} == m - {k} - {p};
    }
  }

  lemma SumWith<K>(m: map<K, nat>, k: K, v: nat)
    ensures SumOf(m[k := v]) == v + SumOf(m - {k})
    ensures k !in m ==> SumOf(m[k := v]) == v + SumOf(m)
    ensures k in m ==> SumOf(m[k := v]) + m[k] == v + SumOf(m)
  {
    SumWithout(m[k := v], k);
    assert m[k := v] - {k} == m - {k};
    if k in m {
      SumWithout(m, k);
    } else {
      assert m - {k} == m;
    }
  }

  /** One value grows by `g`. */
  lemma SumBump<K>(m: map<K, nat>, m': map<K, nat>, k: K, g: nat)
    requires m.Keys == m'.Keys && k in m && m'[k] == m[k] + g
    requires forall j :: j in m && j != k ==> m'[j] == m[j]
    ensures SumOf(m') == SumOf(m) + g
  {
    SumWithout(m, k);
    SumWithout(m', k);
    assert m' - {k} == m - {k};
  }
}
