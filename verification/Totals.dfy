/** Sums of a weight over the values of a finite map.  The drain protocol keeps
    its counters equal to such sums over the running processes. */
module Totals {

  ghost function Total<V(!new)>(m: map<nat, V>, weight: V -> nat): nat
    decreases |m|
  {
    if m == map[] then 0
    else
      var k :| k in m;
      weight(m[k]) + Total(m - {k}, weight)
  }

  /** The choice made inside `Total` does not matter. */
  lemma {:induction false} TotalRemove<V(!new)>(m: map<nat, V>, k: nat, weight: V -> nat)
    requires k in m
    ensures Total(m, weight) == weight(m[k]) + Total(m - {k}, weight)
    decreases |m|
  {
    var j :| j in m && Total(m, weight) == weight(m[j]) + Total(m - {j}, weight);
    if j != k {
      TotalRemove(m - {j}, k, weight);
      TotalRemove(m - {k}, j, weight);
      assert m - {j} - {k} == m - {k} - {j};
    }
  }

  lemma TotalUpdate<V(!new)>(m: map<nat, V>, k: nat, v: V, weight: V -> nat)
    ensures k in m ==> Total(m[k := v], weight) + weight(m[k]) == Total(m, weight) + weight(v)
    ensures k !in m ==> Total(m[k := v], weight) == Total(m, weight) + weight(v)
  {
    TotalRemove(m[k := v], k, weight);
    assert m[k := v] - {k} == m - {k};
    if k in m {
      TotalRemove(m, k, weight);
    } else {
      assert m - {k} == m;
    }
  }

  lemma {:induction false} TotalMonotone<V(!new)>(m: map<nat, V>, m': map<nat, V>, weight: V -> nat)
    requires m.Keys == m'.Keys
    requires forall k :: k in m ==> weight(m[k]) <= weight(m'[k])
    ensures Total(m, weight) <= Total(m', weight)
    decreases |m|
  {
    if m == map[] {
      assert m' == map[];
    } else {
      var k :| k in m;
      TotalRemove(m, k, weight);
      TotalRemove(m', k, weight);
      TotalMonotone(m - {k}, m' - {k}, weight);
    }
  }

  /** A total is zero only if every weight is, and positive only if some weight is. */
  lemma {:induction false} TotalZero<V(!new)>(m: map<nat, V>, weight: V -> nat)
    ensures Total(m, weight) == 0 <==> forall k :: k in m ==> weight(m[k]) == 0
    decreases |m|
  {
    if m != map[] {
      forall k | k in m
        ensures Total(m, weight) == 0 ==> weight(m[k]) == 0
      {
        TotalRemove(m, k, weight);
      }
      var j :| j in m;
      TotalRemove(m, j, weight);
      TotalZero(m - {j}, weight);
    }
  }
}
