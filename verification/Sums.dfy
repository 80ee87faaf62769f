/**
 * Sums over the values of a finite map, independent of iteration order.
 */
module Sums {

  ghost function Total<K(!new)>(m: map<K, real>): real
    decreases |m|
  {
    if m == map[] then 0.0
    else
      var k :| k in m;
      m[k] + Total(m - {k})
  }

  function Get<K>(m: map<K, real>, k: K): real {
    if k in m then m[k] else 0.0
  }

  ghost function Where<K(!new)>(m: map<K, real>, p: K -> bool): map<K, real> {
    map k | k in m && p(k) :: m[k]
  }

  function Not<K>(p: K -> bool): K -> bool { k => !p(k) }

  lemma {:induction false} TotalRemove<K(!new)>(m: map<K, real>, k: K)
    requires k in m
    ensures Total(m) == m[k] + Total(m - {k})
    decreases |m|
  {
    var c :| c in m && Total(m) == m[c] + Total(m - {c});
    if c != k {
      TotalRemove(m - {c}, k);
      TotalRemove(m - {k}, c);
      assert m - {c} - {k} == m - {k} - {c};
    }
  }

  lemma TotalUpdate<K(!new)>(m: map<K, real>, k: K, v: real)
    ensures Total(m[k := v]) == Total(m) - Get(m, k) + v
  {
    var n := m[k := v];
    TotalRemove(n, k);
    assert n - {k} == m - {k};
    if k in m {
      TotalRemove(m, k);
    } else {
      assert m - {k} == m;
    }
  }

  lemma TotalDelete<K(!new)>(m: map<K, real>, k: K)
    ensures Total(m - {k}) == Total(m) - Get(m, k)
  {
    if k in m {
      TotalRemove(m, k);
    } else {
      assert m - {k} == m;
    }
  }

  lemma {:induction false} TotalNonNegative<K(!new)>(m: map<K, real>)
    requires forall k :: k in m ==> m[k] >= 0.0
    ensures Total(m) >= 0.0
    decreases |m|
  {
    if m != map[] {
      var k :| k in m;
      TotalRemove(m, k);
      TotalNonNegative(m - {k});
    }
  }

  lemma {:induction false} TotalSplit<K(!new)>(m: map<K, real>, p: K -> bool)
    ensures Total(m) == Total(Where(m, p)) + Total(Where(m, Not(p)))
    decreases |m|
  {
    if m == map[] {
      assert Where(m, p) == m && Where(m, Not(p)) == m;
    } else {
      var k :| k in m;
      TotalRemove(m, k);
      TotalSplit(m - {k}, p);
      WhereDelete(m, p, k);
      WhereDelete(m, Not(p), k);
      assert Not(p)(k) == !p(k);
    }
  }

  lemma WhereUpdate<K(!new)>(m: map<K, real>, p: K -> bool, k: K, v: real)
    ensures Total(Where(m[k := v], p)) ==
            Total(Where(m, p)) + if p(k) then v - Get(m, k) else 0.0
  {
    var w := Where(m, p);
    if p(k) {
      TotalUpdate(w, k, v);
      assert Where(m[k := v], p) == w[k := v];
    } else {
      assert Where(m[k := v], p) == w;
    }
  }

  lemma WhereDelete<K(!new)>(m: map<K, real>, p: K -> bool, k: K)
    ensures Total(Where(m - {k}, p)) ==
            Total(Where(m, p)) - if p(k) then Get(m, k) else 0.0
  {
    var w := Where(m, p);
    if p(k) {
      TotalDelete(w, k);
      assert Where(m - {k}, p) == w - {k};
    } else {
      assert Where(m - {k}, p) == w;
    }
  }

  /** Adds up the selected values by visiting the keys in some order. */
  method Accumulate<K(==, !new)>(m: map<K, real>, p: K -> bool) returns (total: real)
    ensures total == Total(Where(m, p))
  {
    total := 0.0;
    var left := m;
    while left != map[]
      invariant left.Keys <= m.Keys && forall k :: k in left ==> left[k] == m[k]
      invariant total + Total(Where(left, p)) == Total(Where(m, p))
      decreases |left|
    {
      var k :| k in left;
      WhereDelete(left, p, k);
      if p(k) {
        total := total + left[k];
      }
      left := left - {k};
    }
    assert Where(left, p) == map[];
  }
}
