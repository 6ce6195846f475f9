/** Sums of a real weight over all values of a map, in no particular order. */
module MapSums {

  ghost function Total<K(!new), V(!new)>(m: map<K, V>, w: V -> real): real
    decreases m.Keys
  {
    if m == map[] then 0.0
    else
      var k :| k in m;
      w(m[k]) + Total(m - {k}, w)
  }

  /** The sum does not depend on which key is taken first. */
  lemma {:induction false} TotalRemove<K(!new), V(!new)>(m: map<K, V>, k: K, w: V -> real)
    requires k in m
    ensures Total(m, w) == w(m[k]) + Total(m - {k}, w)
    decreases m.Keys
  {
    var j :| j in m && Total(m, w) == w(m[j]) + Total(m - {j}, w);
    if j != k {
      TotalRemove(m - {j}, k, w);
      TotalRemove(m - {k}, j, w);
      assert m - {j} - {k} == m - {k} - {j};
    }
  }

  ghost function WeightAt<K, V>(m: map<K, V>, k: K, w: V -> real): real {
    if k in m then w(m[k]) else 0.0
  }

  lemma TotalUpdate<K(!new), V(!new)>(m: map<K, V>, k: K, v: V, w: V -> real)
    ensures Total(m[k := v], w) == Total(m, w) - WeightAt(m, k, w) + w(v)
  {
    TotalRemove(m[k := v], k, w);
    assert m[k := v] - {k} == m - {k};
    if k in m {
      TotalRemove(m, k, w);
    } else {
      assert m - {k} == m;
    }
  }

  lemma TotalDelete<K(!new), V(!new)>(m: map<K, V>, k: K, w: V -> real)
    ensures Total(m - {k}, w) == Total(m, w) - WeightAt(m, k, w)
  {
    if k in m {
      TotalRemove(m, k, w);
    } else {
      assert m - {k} == m;
    }
  }

  /** Lowering every weight lowers the sum; entries missing on the left count as zero. */
  lemma {:induction false} TotalMonotone<K(!new), V(!new), U(!new)>(
    m: map<K, V>, w: V -> real, n: map<K, U>, u: U -> real)
    requires forall k | k in m :: w(m[k]) <= WeightAt(n, k, u)
    requires forall k | k in n :: 0.0 <= u(n[k]) || k in m
    ensures Total(m, w) <= Total(n, u)
    decreases m.Keys + n.Keys
  {
    if n != map[] {
      var k :| k in n;
      TotalDelete(m, k, w);
      TotalRemove(n, k, u);
      TotalMonotone(m - {k}, w, n - {k}, u);
    } else if m != map[] {
      var k :| k in m;
      TotalRemove(m, k, w);
      TotalMonotone(m - {k}, w, n, u);
    }
  }

  /** Lowering every weight, and one of them by a given amount, lowers the sum by that amount. */
  lemma TotalDrop<K(!new), V(!new)>(m: map<K, V>, w: V -> real, n: map<K, V>, u: V -> real, k: K, drop: real)
    requires m.Keys == n.Keys && k in m
    requires forall j | j in m && j != k :: w(m[j]) <= u(n[j])
    requires w(m[k]) <= u(n[k]) - drop
    ensures Total(m, w) <= Total(n, u) - drop
  {
    TotalRemove(m, k, w);
    TotalRemove(n, k, u);
    TotalMonotone(m - {k}, w, n - {k}, u);
  }

  lemma TotalNonnegative<K(!new), V(!new)>(m: map<K, V>, w: V -> real)
    requires forall k | k in m :: 0.0 <= w(m[k])
    ensures 0.0 <= Total(m, w)
  {
    var none: map<K, V> := map[];
    TotalMonotone(none, w, m, w);
  }

  /** Weights that agree on every value give the same sum. */
  lemma TotalCongruent<K(!new), V(!new), U(!new)>(m: map<K, V>, w: V -> real, n: map<K, U>, u: U -> real)
    requires m.Keys == n.Keys
    requires forall k | k in m :: w(m[k]) == u(n[k])
    ensures Total(m, w) == Total(n, u)
  {
    TotalMonotone(m, w, n, u);
    TotalMonotone(n, u, m, w);
  }

  /** Adding weights adds sums. */
  lemma {:induction false} TotalPlus<K(!new), V(!new)>(m: map<K, V>, w: V -> real, u: V -> real, sum: V -> real)
    requires forall k | k in m :: sum(m[k]) == w(m[k]) + u(m[k])
    ensures Total(m, sum) == Total(m, w) + Total(m, u)
    decreases m.Keys
  {
    if m != map[] {
      var k :| k in m;
      TotalRemove(m, k, w);
      TotalRemove(m, k, u);
      TotalRemove(m, k, sum);
      TotalPlus(m - {k}, w, u, sum);
    }
  }
}
