/** Sums over finite maps: the arithmetic behind every stock and cart
    balance in the model. */
module Sums {

  /** Some element of a non-empty set. Pick is the ghost choice the ghost
      definition of Total makes; Choose below is the same choice for code,
      since a compiled loop cannot take its next key from a ghost function. */
  ghost function Pick<K>(s: set<K>): (k: K)
    requires s != {}
    ensures k in s
  {
    var k :| k in s; k
  }

  /** Some element of a non-empty set: the next one a loop over it visits. */
  method Choose<K>(s: set<K>) returns (k: K)
    requires s != {}
    ensures k in s
  {
    k :| k in s;
  }

  /** The sum of the values of a finite map. */
  ghost function Total<K>(m: map<K, int>): int
    decreases |m|
  {
    if |m| == 0 then 0
    else
      var k := Pick(m.Keys);
      assert |(m - {k}).Keys| < |m.Keys| by {
        assert (m - {k}).Keys == m.Keys - {k};
      }
      m[k] + Total(m - {k})
  }

  /** The keys of m that lie in s, with their values. */
  function Restrict<K, V>(m: map<K, V>, s: set<K>): (r: map<K, V>)
    ensures r.Keys == m.Keys * s
    ensures forall k :: k in r ==> r[k] == m[k]
  {
    map k | k in m && k in s :: m[k]
  }

  /** Any key can be taken out first: the sum does not depend on the order
      in which Total picks keys. */
  lemma {:induction false} TotalRemove<K>(m: map<K, int>, k: K)
    requires k in m
    ensures Total(m) == m[k] + Total(m - {k})
    decreases |m|
  {
    var j := Pick(m.Keys);
    if j != k {
      assert |(m - {j}).Keys| < |m.Keys| by {
        assert (m - {j}).Keys == m.Keys - {j};
      }
      TotalRemove(m - {j}, k);
      assert |(m - {k}).Keys| < |m.Keys| by {
        assert (m - {k}).Keys == m.Keys - {k};
      }
      TotalRemove(m - {k}, j);
      assert m - {j} - {k} == m - {k} - {j};
    }
  }

  lemma TotalInsert<K>(m: map<K, int>, k: K, v: int)
    requires k !in m
    ensures Total(m[k := v]) == Total(m) + v
  {
    TotalRemove(m[k := v], k);
    assert m[k := v] - {k} == m;
  }

  lemma TotalUpdate<K>(m: map<K, int>, k: K, v: int)
    requires k in m
    ensures Total(m[k := v]) == Total(m) - m[k] + v
  {
    TotalRemove(m[k := v], k);
    TotalRemove(m, k);
    assert m[k := v] - {k} == m - {k};
  }

  /** Splitting a map along a set of keys splits its sum. */
  lemma {:induction false} TotalSplit<K>(m: map<K, int>, s: set<K>)
    ensures Total(m) == Total(Restrict(m, s)) + Total(m - s)
    decreases |m|
  {
    if |m| == 0 {
      assert Restrict(m, s) == map[];
      assert m - s == map[];
    } else {
      var k := Pick(m.Keys);
      var m' := m - {k};
      assert |m'.Keys| < |m.Keys| by {
        assert m'.Keys == m.Keys - {k};
      }
      TotalRemove(m, k);
      TotalSplit(m', s);
      SplitStep(m, s, k);
    }
  }

  /** How both halves of a split change when key k is taken out of m. */
  lemma SplitStep<K>(m: map<K, int>, s: set<K>, k: K)
    requires k in m
    ensures Total(Restrict(m, s)) + Total(m - s)
            == m[k] + Total(Restrict(m - {k}, s)) + Total(m - {k} - s)
  {
    var r := Restrict(m - {k}, s);
    var o := m - {k} - s;
    if k in s {
      SplitIn(m, s, k);
      TotalInsert(r, k, m[k]);
    } else {
      SplitOut(m, s, k);
      TotalInsert(o, k, m[k]);
    }
  }

  lemma SplitIn<K>(m: map<K, int>, s: set<K>, k: K)
    requires k in m && k in s
    ensures k !in Restrict(m - {k}, s)
    ensures Restrict(m, s) == Restrict(m - {k}, s)[k := m[k]]
    ensures m - s == m - {k} - s
  {
  }

  lemma SplitOut<K>(m: map<K, int>, s: set<K>, k: K)
    requires k in m && k !in s
    ensures k !in m - {k} - s
    ensures Restrict(m, s) == Restrict(m - {k}, s)
    ensures m - s == (m - {k} - s)[k := m[k]]
  {
  }
}
