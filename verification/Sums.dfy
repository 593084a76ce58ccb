/** Sums over the values of a finite map. */
module Sums {

  ghost function Sum<K, V>(m: map<K, V>, f: V -> int): int {
    if m == map[] then 0 else
      var k :| k in m;
      f(m[k]) + Sum(m - {k}, f)
  }

  /** Any key may be taken out first. */
  lemma {:induction false} SumTake<K, V>(m: map<K, V>, f: V -> int, k: K)
    requires k in m
    ensures Sum(m, f) == f(m[k]) + Sum(m - {k}, f)
    decreases |m|
  {
    var j :| j in m && Sum(m, f) == f(m[j]) + Sum(m - {j}, f);
    if j != k {
      SumTake(m - {j}, f, k);
      SumTake(m - {k}, f, j);
      assert m - {j} - {k} == m - {k} - {j};
    }
  }

  lemma SumDrop<K, V>(m: map<K, V>, f: V -> int, k: K)
    ensures Sum(m - {k}, f) == Sum(m, f) - if k in m then f(m[k]) else 0
  {
    if k in m { SumTake(m, f, k); } else { assert m - {k} == m; }
  }

  lemma SumPut<K, V>(m: map<K, V>, f: V -> int, k: K, v: V)
    ensures Sum(m[k := v], f) == Sum(m, f) - (if k in m then f(m[k]) else 0) + f(v)
  {
    SumTake(m[k := v], f, k);
    assert m[k := v] - {k} == m - {k};
    SumDrop(m, f, k);
  }

  lemma {:induction false} SumNonNegative<K, V>(m: map<K, V>, f: V -> int)
    requires forall k :: k in m ==> f(m[k]) >= 0
    ensures Sum(m, f) >= 0
    decreases |m|
  {
    if m != map[] {
      var k :| k in m && Sum(m, f) == f(m[k]) + Sum(m - {k}, f);
      SumNonNegative(m - {k}, f);
    }
  }

  /** No single term exceeds a sum of non-negative terms. */
  lemma SumBounds<K, V>(m: map<K, V>, f: V -> int, k: K)
    requires k in m && forall j :: j in m ==> f(m[j]) >= 0
    ensures f(m[k]) <= Sum(m, f)
  {
    SumTake(m, f, k);
    SumNonNegative(m - {k}, f);
  }

  lemma {:induction false} SumZero<K, V>(m: map<K, V>, f: V -> int)
    requires forall k :: k in m ==> f(m[k]) == 0
    ensures Sum(m, f) == 0
    decreases |m|
  {
    if m != map[] {
      var k :| k in m && Sum(m, f) == f(m[k]) + Sum(m - {k}, f);
      SumZero(m - {k}, f);
    }
  }
}
