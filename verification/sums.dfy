/** Sums of a per-entry quantity over a finite map, with the two facts the
    accounting proofs need: peeling off any one key, and updating one key. */
module Sums {

  /** A fixed but arbitrary key of a non-empty map. */
  ghost function Pick<K, V>(m: map<K, V>): (k: K)
    requires |m| > 0
    ensures k in m
  {
    assert m.Keys != {};
    var k :| k in m; k
  }

  /** The sum of `f` over the values of `m`. */
  ghost function SumOver<K, V>(m: map<K, V>, f: V -> int): int
    decreases |m|
  {
    if |m| == 0 then 0
    else
      var k := Pick(m);
      f(m[k]) + SumOver(m - {k}, f)
  }

  /** Any key, not only the one `SumOver` picks, can be peeled off the sum. */
  lemma {:induction false} SumOverRemove<K, V>(m: map<K, V>, f: V -> int, k: K)
    requires k in m
    ensures SumOver(m, f) == f(m[k]) + SumOver(m - {k}, f)
    decreases |m|
  {
    var j := Pick(m);
    if j != k {
      var mj := m - {j};
      var mk := m - {k};
      assert k in mj && j in mk;
      SumOverRemove(mj, f, k);
      SumOverRemove(mk, f, j);
      assert mj - {k} == mk - {j};
      assert mj[k] == m[k] && mk[j] == m[j];
    }
  }

  /** Replacing (or adding) the value at one key changes the sum by the
      difference of that key's terms. */
  lemma SumOverUpdate<K, V>(m: map<K, V>, f: V -> int, k: K, v: V)
    ensures SumOver(m[k := v], f) == SumOver(m, f) - (if k in m then f(m[k]) else 0) + f(v)
  {
    SumOverRemove(m[k := v], f, k);
    assert m[k := v] - {k} == m - {k};
    if k in m {
      SumOverRemove(m, f, k);
    } else {
      assert m - {k} == m;
    }
  }

  /** A sum of zero terms is zero. */
  lemma {:induction false} SumOverZero<K, V>(m: map<K, V>, f: V -> int)
    requires forall k :: k in m ==> f(m[k]) == 0
    ensures SumOver(m, f) == 0
    decreases |m|
  {
    if |m| > 0 {
      var k := Pick(m);
      SumOverZero(m - {k}, f);
    }
  }
}
