// Sums of real values over finite maps, independent of the order of summing.
module Sums {

  ghost function MapSum<K(!new)>(m: map<K, real>): real
    decreases |m|
  {
    if m == map[] then 0.0
    else
      var k :| k in m;
      m[k] + MapSum(m - {k})
  }

  lemma {:induction false} MapSumAt<K(!new)>(m: map<K, real>, k: K)
    requires k in m
    ensures MapSum(m) == m[k] + MapSum(m - {k})
    decreases |m|
  {
    var p :| p in m && MapSum(m) == m[p] + MapSum(m - {p});
    if p != k {
      MapSumAt(m - {p}, k);
      MapSumAt(m - {k}, p);
      assert m - {p} - {k} == m - {k} - {p};
    }
  }

  lemma SumAdd<K(!new)>(m: map<K, real>, k: K, x: real)
    requires k !in m
    ensures MapSum(m[k := x]) == MapSum(m) + x
  {
    MapSumAt(m[k := x], k);
    assert m[k := x] - {k} == m;
  }

  lemma SumChange<K(!new)>(m: map<K, real>, k: K, x: real)
    requires k in m
    ensures MapSum(m[k := x]) == MapSum(m) - m[k] + x
  {
    MapSumAt(m, k);
    MapSumAt(m[k := x], k);
    assert m[k := x] - {k} == m - {k};
  }

  lemma {:induction false} SumMonotone<K(!new)>(m: map<K, real>, n: map<K, real>)
    requires m.Keys == n.Keys
    requires forall k :: k in m ==> m[k] <= n[k]
    ensures MapSum(m) <= MapSum(n)
    decreases |m|
  {
    if m == map[] {
      assert n == map[];
    } else {
      var k :| k in m;
      MapSumAt(m, k);
      MapSumAt(n, k);
      SumMonotone(m - {k}, n - {k});
    }
  }

  lemma {:induction false} SumZero<K(!new)>(m: map<K, real>)
    requires forall k :: k in m ==> m[k] == 0.0
    ensures MapSum(m) == 0.0
    decreases |m|
  {
    if m != map[] {
      var k :| k in m;
      MapSumAt(m, k);
      SumZero(m - {k});
    }
  }

  lemma {:induction false} SumPointwise<K(!new)>(m: map<K, real>, a: map<K, real>, b: map<K, real>)
    requires m.Keys == a.Keys == b.Keys
    requires forall k :: k in m ==> m[k] == a[k] + b[k]
    ensures MapSum(m) == MapSum(a) + MapSum(b)
    decreases |m|
  {
    if m == map[] {
      assert a == map[] && b == map[];
    } else {
      var k :| k in m;
      MapSumAt(m, k);
      MapSumAt(a, k);
      MapSumAt(b, k);
      SumPointwise(m - {k}, a - {k}, b - {k});
    }
  }

  // The entries of m that a loop over its keys has not visited yet.
  ghost function Restrict<K(!new)>(m: map<K, real>, s: set<K>): map<K, real>
  {
    map k | k in s && k in m :: m[k]
  }

  lemma RestrictAll<K(!new)>(m: map<K, real>)
    ensures Restrict(m, m.Keys) == m && MapSum(Restrict(m, {})) == 0.0
  {
    assert Restrict(m, {}) == map[];
  }

  lemma RestrictRemove<K(!new)>(m: map<K, real>, s: set<K>, k: K)
    requires k in s && k in m
    ensures MapSum(Restrict(m, s)) == m[k] + MapSum(Restrict(m, s - {k}))
  {
    MapSumAt(Restrict(m, s), k);
    assert Restrict(m, s) - {k} == Restrict(m, s - {k});
  }

  ghost predicate Injective<K(!new), L(!new)>(f: map<K, L>)
  {
    forall j, k :: j in f && k in f && f[j] == f[k] ==> j == k
  }

  // Two maps whose non-zero entries are matched one to one have the same sum.
  lemma {:induction false} SumTransfer<K(!new), L(!new)>(m: map<K, real>, n: map<L, real>, f: map<K, L>)
    requires f.Keys <= m.Keys && Injective(f)
    requires forall k :: k in f ==> f[k] in n && m[k] == n[f[k]]
    requires forall k :: k in m && k !in f ==> m[k] == 0.0
    requires forall l :: l in n && l !in f.Values ==> n[l] == 0.0
    ensures MapSum(m) == MapSum(n)
    decreases |m|
  {
    if m == map[] {
      assert f == map[];
      SumZero(n);
    } else {
      var k :| k in m;
      MapSumAt(m, k);
      var g := f - {k};
      if k in f {
        MapSumAt(n, f[k]);
        forall l | l in n - {f[k]} && l !in g.Values ensures n[l] == 0.0 {
          assert forall j :: j in f ==> j == k || (j in g && g[j] == f[j]);
        }
        SumTransfer(m - {k}, n - {f[k]}, g);
      } else {
        assert g == f;
        SumTransfer(m - {k}, n, g);
      }
    }
  }
}
