/** Sums over the values of finite maps. */
module Sums {

  ghost function Sum<K>(m: map<K, int>): int {
    if m == map[] then 0
    else
      assert m.Keys != {};
      var k :| k in m;
      m[k] + Sum(m - {k})
  }

  lemma {:induction false} SumPick<K>(m: map<K, int>, k: K)
    requires k in m
    ensures Sum(m) == m[k] + Sum(m - {k})
    decreases |m|
  {
    assert m.Keys != {};
    var j :| j in m && Sum(m) == m[j] + Sum(m - {j});
    if j != k {
      var mj, mk := m - {j}, m - {k};
      assert |mj.Keys| < |m.Keys| by { assert mj.Keys == m.Keys - {j}; }
      assert |mk.Keys| < |m.Keys| by { assert mk.Keys == m.Keys - {k}; }
      SumPick(mj, k);
      SumPick(mk, j);
      assert mj - {k} == mk - {j};
    }
  }

  /** Changing or adding one value changes the sum by the difference. */
  lemma SumUpdate<K>(m: map<K, int>, k: K, v: int)
    ensures Sum(m[k := v]) == Sum(m) + v - if k in m then m[k] else 0
  {
    var m' := m[k := v];
    SumPick(m', k);
    assert m' - {k} == m - {k};
    if k in m {
      SumPick(m, k);
    } else {
      assert m - {k} == m;
    }
  }

  lemma {:induction false} SumNotNegative<K>(m: map<K, int>)
    requires forall k | k in m :: m[k] >= 0
    ensures Sum(m) >= 0
    decreases |m|
  {
    if m != map[] {
      assert m.Keys != {};
      var k :| k in m;
      SumPick(m, k);
      assert (m - {k}).Keys == m.Keys - {k};
      SumNotNegative(m - {k});
    }
  }

  /** Values that add up one by one add up in total. */
  lemma {:induction false} SumAdds<K>(a: map<K, int>, b: map<K, int>, c: map<K, int>)
    requires a.Keys == b.Keys == c.Keys
    requires forall k | k in a :: a[k] == b[k] + c[k]
    ensures Sum(a) == Sum(b) + Sum(c)
    decreases |a|
  {
    if a != map[] {
      assert a.Keys != {};
      var k :| k in a;
      SumPick(a, k);
      SumPick(b, k);
      SumPick(c, k);
      assert (a - {k}).Keys == a.Keys - {k};
      SumAdds(a - {k}, b - {k}, c - {k});
    } else {
      assert b == map[] && c == map[];
    }
  }

  /** The sum of a map into zero and one is the number of ones. */
  lemma {:induction false} SumCounts<K>(m: map<K, int>)
    requires forall k | k in m :: m[k] == 0 || m[k] == 1
    ensures Sum(m) == |set k | k in m && m[k] == 1|
    decreases |m|
  {
    var ones := set k | k in m && m[k] == 1;
    if m == map[] {
      assert ones == {};
    } else {
      assert m.Keys != {};
      var k :| k in m;
      SumPick(m, k);
      var m' := m - {k};
      assert m'.Keys == m.Keys - {k};
      SumCounts(m');
      assert ones == (set j | j in m' && m'[j] == 1) + if m[k] == 1 then {k} else {};
    }
  }
}
