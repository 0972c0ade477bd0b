/** Sums over finite maps. */
module Sums {

  ghost function Sum<K>(m: map<K, int>): int
    decreases |m|
  {
    if m == map[] then 0
    else
      var k :| k in m;
      m[k] + Sum(m - {k})
  }

  /** Any key may be taken out first. */
  lemma {:induction false} TakeOut<K>(m: map<K, int>, k: K)
    requires k in m
    ensures Sum(m) == m[k] + Sum(m - {k})
    decreases |m|
  {
    var j :| j in m && Sum(m) == m[j] + Sum(m - {j});
    if j != k {
      TakeOut(m - {j}, k);
      TakeOut(m - {k}, j);
      assert m - {j} - {k} == m - {k} - {j};
    }
  }

  /** A sum splits along any split of the keys. */
  lemma {:induction false} Split<K>(m: map<K, int>, a: map<K, int>, b: map<K, int>)
    requires m.Keys == a.Keys + b.Keys && a.Keys !! b.Keys
    requires forall k | k in a :: m[k] == a[k]
    requires forall k | k in b :: m[k] == b[k]
    ensures Sum(m) == Sum(a) + Sum(b)
    decreases |m|
  {
    if k :| k in a {
      TakeOut(m, k);
      TakeOut(a, k);
      var m', a' := m - {k}, a - {k};
      assert m'.Keys == a'.Keys + b.Keys;
      Split(m', a', b);
    } else {
      assert m == b && a == map[];
    }
  }

  /** A sum can be taken along any one-to-one renaming of the keys. */
  lemma {:induction false} Rename<K, L>(m: map<K, int>, n: map<L, int>, h: map<K, L>)
    requires h.Keys == m.Keys && h.Values == n.Keys
    requires forall j, k | j in h && k in h && h[j] == h[k] :: j == k
    requires forall k | k in m :: h[k] in n && n[h[k]] == m[k]
    ensures Sum(m) == Sum(n)
    decreases |m|
  {
    if k :| k in m {
      var h' := h - {k};
      assert h'.Values == n.Keys - {h[k]} by {
        forall l | l in n.Keys - {h[k]} ensures l in h'.Values {
          var j :| j in h && h[j] == l;
          assert j in h' && h'[j] == l;
        }
      }
      TakeOut(m, k);
      TakeOut(n, h[k]);
      Rename(m - {k}, n - {h[k]}, h');
    } else {
      assert h.Values == {};
      assert n == map[];
    }
  }

  /** Sums add up key by key. */
  lemma {:induction false} Pointwise<K>(m: map<K, int>, a: map<K, int>, b: map<K, int>)
    requires m.Keys == a.Keys == b.Keys
    requires forall k | k in m :: m[k] == a[k] + b[k]
    ensures Sum(m) == Sum(a) + Sum(b)
    decreases |m|
  {
    if k :| k in m {
      TakeOut(m, k);
      TakeOut(a, k);
      TakeOut(b, k);
      Pointwise(m - {k}, a - {k}, b - {k});
    }
  }

  lemma {:induction false} Bounded<K>(a: map<K, int>, b: map<K, int>)
    requires a.Keys == b.Keys && forall k | k in a :: a[k] <= b[k]
    ensures Sum(a) <= Sum(b)
    decreases |a|
  {
    if k :| k in a {
      TakeOut(a, k);
      TakeOut(b, k);
      Bounded(a - {k}, b - {k});
    }
  }

  lemma {:induction false} AllZero<K>(m: map<K, int>)
    requires forall k | k in m :: m[k] == 0
    ensures Sum(m) == 0
    decreases |m|
  {
    if m != map[] {
      var k :| k in m && Sum(m) == m[k] + Sum(m - {k});
      AllZero(m - {k});
    }
  }
}
