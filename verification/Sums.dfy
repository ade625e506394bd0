/** Sums over the rows of a table. */
module Sums {

  ghost function SumOver<K(!new), V>(m: map<K, V>, weight: V -> int): int
    decreases |m|
  {
    if m == map[] then 0
    else
      var k :| k in m;
      weight(m[k]) + SumOver(m - {k}, weight)
  }

  lemma {:induction false} SumSplit<K(!new), V>(m: map<K, V>, weight: V -> int, k: K)
    requires k in m
    ensures SumOver(m, weight) == weight(m[k]) + SumOver(m - {k}, weight)
    decreases |m|
  {
    var j :| j in m && SumOver(m, weight) == weight(m[j]) + SumOver(m - {j}, weight);
    if j != k {
      SumSplit(m - {j}, weight, k);
      SumSplit(m - {k}, weight, j);
      assert m - {j} - {k} == m - {k} - {j};
    }
  }

  lemma SumUpdate<K(!new), V>(m: map<K, V>, weight: V -> int, k: K, v: V)
    requires k in m
    ensures SumOver(m[k := v], weight) == SumOver(m, weight) - weight(m[k]) + weight(v)
  {
    SumSplit(m, weight, k);
    SumSplit(m[k := v], weight, k);
    assert m[k := v] - {k} == m - {k};
  }

  lemma SumInsert<K(!new), V>(m: map<K, V>, weight: V -> int, k: K, v: V)
    requires k !in m
    ensures SumOver(m[k := v], weight) == SumOver(m, weight) + weight(v)
  {
    SumSplit(m[k := v], weight, k);
    assert m[k := v] - {k} == m;
  }

  lemma {:induction false} SumNonNegative<K(!new), V>(m: map<K, V>, weight: V -> int)
    requires forall k :: k in m ==> weight(m[k]) >= 0
    ensures SumOver(m, weight) >= 0
    ensures forall k :: k in m ==> weight(m[k]) <= SumOver(m, weight)
    decreases |m|
  {
    forall k | k in m
      ensures weight(m[k]) <= SumOver(m, weight)
    {
      SumSplit(m, weight, k);
      SumNonNegative(m - {k}, weight);
    }
  }

  /** A sum whose only weighty row is k. */
  lemma {:induction false} SumZero<K(!new), V>(m: map<K, V>, weight: V -> int)
    requires forall k :: k in m ==> weight(m[k]) == 0
    ensures SumOver(m, weight) == 0
    decreases |m|
  {
    if m != map[] {
      var k :| k in m;
      SumSplit(m, weight, k);
      SumZero(m - {k}, weight);
    }
  }
}
