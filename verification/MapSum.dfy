/** Sums over the values of a finite map. */
module MapSum {

  ghost function Total<V(!new)>(m: map<nat, V>, weight: V -> nat): nat {
    if m == map[] then 0
    else
      var k :| k in m;
      weight(m[k]) + Total(m - {k}, weight)
  }

  /** Any key may be taken out first. */
  lemma {:induction false} TotalSplit<V(!new)>(m: map<nat, V>, weight: V -> nat, k: nat)
    requires k in m
    ensures Total(m, weight) == weight(m[k]) + Total(m - {k}, weight)
    decreases |m|
  {
    var j :| j in m && Total(m, weight) == weight(m[j]) + Total(m - {j}, weight);
    if j != k {
      TotalSplit(m - {j}, weight, k);
      TotalSplit(m - {k}, weight, j);
      assert m - {j} - {k} == m - {k} - {j};
    }
  }

  /** Replacing one value exchanges its weight. */
  lemma TotalUpdate<V(!new)>(m: map<nat, V>, weight: V -> nat, k: nat, v: V)
    requires k in m
    ensures Total(m[k := v], weight) == Total(m, weight) - weight(m[k]) + weight(v)
  {
    TotalSplit(m, weight, k);
    TotalSplit(m[k := v], weight, k);
    assert m[k := v] - {k} == m - {k};
  }

  lemma {:induction false} TotalZero<V(!new)>(m: map<nat, V>, weight: V -> nat)
    requires forall k :: k in m ==> weight(m[k]) == 0
    ensures Total(m, weight) == 0
    decreases |m|
  {
    if m != map[] {
      var k :| k in m;
      TotalSplit(m, weight, k);
      TotalZero(m - {k}, weight);
    }
  }

  lemma {:induction false} TotalAtLeast<V(!new)>(m: map<nat, V>, weight: V -> nat, k: nat)
    requires k in m
    ensures weight(m[k]) <= Total(m, weight)
  {
    TotalSplit(m, weight, k);
  }

  lemma {:induction false} TotalAtMost<V(!new)>(m: map<nat, V>, weight: V -> nat)
    requires forall k :: k in m ==> weight(m[k]) <= 1
    ensures Total(m, weight) <= |m|
    decreases |m|
  {
    if m != map[] {
      var k :| k in m;
      TotalSplit(m, weight, k);
      TotalAtMost(m - {k}, weight);
    }
  }

  /** Two keys together weigh no more than all. */
  lemma TotalAtLeastTwo<V(!new)>(m: map<nat, V>, weight: V -> nat, j: nat, k: nat)
    requires j in m && k in m && j != k
    ensures weight(m[j]) + weight(m[k]) <= Total(m, weight)
  {
    TotalSplit(m, weight, j);
    TotalAtLeast(m - {j}, weight, k);
  }
}
