/** Sums over the values of finite maps. */
module MapSums {

  ghost function MSum<K(!new)>(m: map<K, int>): int {
    if m == map[] then 0
    else
      var k :| k in m;
      m[k] + MSum(m - {k})
  }

  /** The sum does not depend on which key is taken first. */
  lemma {:induction false} MSumTake<K(!new)>(m: map<K, int>, k: K)
    requires k in m
    ensures MSum(m) == m[k] + MSum(m - {k})
    decreases |m|
  {
    var j :| j in m && MSum(m) == m[j] + MSum(m - {j});
    if j != k {
      assert |m - {j}| < |m| && |m - {k}| < |m| by { Smaller(m, j); Smaller(m, k); }
      MSumTake(m - {j}, k);
      MSumTake(m - {k}, j);
      assert (m - {j}) - {k} == (m - {k}) - {j};
    }
  }

  lemma Smaller<K(!new)>(m: map<K, int>, k: K)
    requires k in m
    ensures |m - {k}| < |m|
  {
    assert (m - {k}).Keys == m.Keys - {k};
  }

  lemma MSumUpdate<K(!new)>(m: map<K, int>, k: K, x: int)
    ensures MSum(m[k := x]) == MSum(m) + x - if k in m then m[k] else 0
  {
    MSumTake(m[k := x], k);
    if k in m {
      MSumTake(m, k);
      assert m[k := x] - {k} == m - {k};
    } else {
      assert m[k := x] - {k} == m;
    }
  }

  lemma MSumRemove<K(!new)>(m: map<K, int>, k: K)
    ensures MSum(m - {k}) == MSum(m) - if k in m then m[k] else 0
  {
    if k in m { MSumTake(m, k); } else { assert m - {k} == m; }
  }

  function Get<K(!new)>(m: map<K, int>, k: K): int { if k in m then m[k] else 0 }

  /** The values of `m` raised by those of `d`. */
  function Plus<K(!new)>(m: map<K, int>, d: map<K, int>): map<K, int> {
    map k | k in m.Keys + d.Keys :: Get(m, k) + Get(d, k)
  }

  lemma PlusTake<K(!new)>(m: map<K, int>, d: map<K, int>, j: K)
    requires j in d
    ensures Plus(m, d) == Plus(m, d - {j})[j := Get(m, j) + d[j]]
    ensures Get(Plus(m, d - {j}), j) == Get(m, j)
  {
  }

  lemma {:induction false} MSumPlus<K(!new)>(m: map<K, int>, d: map<K, int>)
    ensures MSum(Plus(m, d)) == MSum(m) + MSum(d)
    decreases |d|
  {
    if d == map[] {
      assert Plus(m, d) == m;
    } else {
      var j :| j in d;
      Smaller(d, j);
      MSumPlus(m, d - {j});
      PlusTake(m, d, j);
      MSumUpdate(Plus(m, d - {j}), j, Get(m, j) + d[j]);
      MSumTake(d, j);
    }
  }

  /** A sum of positive values is zero only when there are none. */
  lemma {:induction false} MSumPositive<K(!new)>(m: map<K, int>)
    requires forall k :: k in m ==> m[k] > 0
    ensures MSum(m) >= 0 && (MSum(m) == 0 <==> m == map[])
    decreases |m|
  {
    if m != map[] {
      var k :| k in m;
      Smaller(m, k);
      MSumTake(m, k);
      MSumPositive(m - {k});
    }
  }
}
