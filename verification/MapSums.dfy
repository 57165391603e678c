/** Sums over finite maps, and how an insertion, an update or a removal moves them. */
module MapSums {

  ghost function Pick<K(!new)>(m: map<K, int>): (k: K)
    requires m != map[]
    ensures k in m
  {
    var k :| k in m;
    k
  }

  ghost function Sum<K(!new)>(m: map<K, int>): int {
    if m == map[] then 0
    else
      var k := Pick(m);
      m[k] + Sum(m - {k})
  }

  /** The sum does not depend on the order in which keys are picked. */
  lemma {:induction false} SumRemove<K(!new)>(m: map<K, int>, k: K)
    requires k in m
    ensures Sum(m) == m[k] + Sum(m - {k})
    decreases |m|
  {
    var c := Pick(m);
    if c != k {
      var mc, mk := m - {c}, m - {k};
      assert |mc.Keys| < |m.Keys| && |mk.Keys| < |m.Keys| by {
        assert mc.Keys == m.Keys - {c} && mk.Keys == m.Keys - {k};
      }
      SumRemove(mc, k);
      SumRemove(mk, c);
      assert mc - {k} == mk - {c};
    }
  }

  lemma SumUpdate<K(!new)>(m: map<K, int>, k: K, v: int)
    ensures Sum(m[k := v]) == Sum(m) - (if k in m then m[k] else 0) + v
  {
    SumRemove(m[k := v], k);
    if k in m {
      SumRemove(m, k);
      assert m[k := v] - {k} == m - {k};
    } else {
      assert m[k := v] - {k} == m;
    }
  }

  /** Every value of a map of non-negative values is at most their sum. */
  lemma {:induction false} SumBounds<K(!new)>(m: map<K, int>)
    requires forall k | k in m :: m[k] >= 0
    ensures Sum(m) >= 0
    ensures forall k | k in m :: m[k] <= Sum(m)
    decreases |m|
  {
    forall k | k in m
      ensures m[k] <= Sum(m)
    {
      SumRemove(m, k);
      assert (m - {k}).Keys == m.Keys - {k};
      SumBounds(m - {k});
    }
    if m != map[] {
      var k := Pick(m);
      assert m[k] >= 0;
    }
  }

  lemma {:induction false} SumOfZeros<K(!new)>(m: map<K, int>)
    requires forall k | k in m :: m[k] == 0
    ensures Sum(m) == 0
    decreases |m|
  {
    if m != map[] {
      var k := Pick(m);
      assert (m - {k}).Keys == m.Keys - {k};
      SumOfZeros(m - {k});
    }
  }
}
