/** Sums of a projection over the rows of a table, independent of the order of the rows. */
module Sums {

  ghost function Sum<K(!new), V(!new)>(m: map<K, V>, f: (K, V) -> int): int
    decreases |m|
  {
    if m == map[] then 0
    else
      var k :| k in m;
      f(k, m[k]) + Sum(m - {k}, f)
  }

  /** Any row may be split off first. */
  lemma {:induction false} SumSplit<K(!new), V(!new)>(m: map<K, V>, f: (K, V) -> int, k: K)
    requires k in m
    ensures Sum(m, f) == f(k, m[k]) + Sum(m - {k}, f)
    decreases |m|
  {
    var j :| j in m && Sum(m, f) == f(j, m[j]) + Sum(m - {j}, f);
    if j != k {
      SumSplit(m - {j}, f, k);
      SumSplit(m - {k}, f, j);
      assert m - {j} - {k} == m - {k} - {j};
    }
  }

  /** What one row contributes to a sum; a missing row contributes nothing. */
  ghost function Part<K(!new), V(!new)>(m: map<K, V>, f: (K, V) -> int, k: K): int {
    if k in m then f(k, m[k]) else 0
  }

  lemma SumPut<K(!new), V(!new)>(m: map<K, V>, f: (K, V) -> int, k: K, v: V)
    ensures Sum(m[k := v], f) == Sum(m, f) - Part(m, f, k) + f(k, v)
  {
    var n := m[k := v];
    SumSplit(n, f, k);
    assert n - {k} == m - {k};
    if k in m {
      SumSplit(m, f, k);
    } else {
      assert m - {k} == m;
    }
  }

  lemma SumDrop<K(!new), V(!new)>(m: map<K, V>, f: (K, V) -> int, k: K)
    ensures Sum(m - {k}, f) == Sum(m, f) - Part(m, f, k)
  {
    if k in m {
      SumSplit(m, f, k);
    } else {
      assert m - {k} == m;
    }
  }

  /** If no row contributes less than nothing, neither does the sum, and no row exceeds it. */
  lemma {:induction false} SumBounds<K(!new), V(!new)>(m: map<K, V>, f: (K, V) -> int)
    requires forall k :: k in m ==> f(k, m[k]) >= 0
    ensures Sum(m, f) >= 0
    ensures forall k :: k in m ==> f(k, m[k]) <= Sum(m, f)
    decreases |m|
  {
    forall k | k in m
      ensures f(k, m[k]) <= Sum(m, f)
    {
      SumSplit(m, f, k);
      SumBounds(m - {k}, f);
    }
    if m != map[] {
      var k :| k in m;
      assert f(k, m[k]) >= 0;
    }
  }

  lemma {:induction false} SumZero<K(!new), V(!new)>(m: map<K, V>, f: (K, V) -> int)
    requires forall k :: k in m ==> f(k, m[k]) == 0
    ensures Sum(m, f) == 0
    decreases |m|
  {
    if m != map[] {
      var k :| k in m;
      SumSplit(m, f, k);
      SumZero(m - {k}, f);
    }
  }

  /** Two tables over the same keys whose rows contribute alike have the same sum. */
  lemma {:induction false} SumAlike<K(!new), V(!new), W(!new)>(
    m: map<K, V>, f: (K, V) -> int, n: map<K, W>, g: (K, W) -> int)
    requires m.Keys == n.Keys
    requires forall k :: k in m ==> f(k, m[k]) == g(k, n[k])
    ensures Sum(m, f) == Sum(n, g)
    decreases |m|
  {
    if m == map[] {
      assert n == map[];
    } else {
      var k :| k in m;
      SumSplit(m, f, k);
      SumSplit(n, g, k);
      SumAlike(m - {k}, f, n - {k}, g);
    }
  }
}

/** The same for projections to the reals. */
module RealSums {

  ghost function Sum<K(!new), V(!new)>(m: map<K, V>, f: (K, V) -> real): real
    decreases |m|
  {
    if m == map[] then 0.0
    else
      var k :| k in m;
      f(k, m[k]) + Sum(m - {k}, f)
  }

  lemma {:induction false} SumSplit<K(!new), V(!new)>(m: map<K, V>, f: (K, V) -> real, k: K)
    requires k in m
    ensures Sum(m, f) == f(k, m[k]) + Sum(m - {k}, f)
    decreases |m|
  {
    var j :| j in m && Sum(m, f) == f(j, m[j]) + Sum(m - {j}, f);
    if j != k {
      SumSplit(m - {j}, f, k);
      SumSplit(m - {k}, f, j);
      assert m - {j} - {k} == m - {k} - {j};
    }
  }

  ghost function Part<K(!new), V(!new)>(m: map<K, V>, f: (K, V) -> real, k: K): real {
    if k in m then f(k, m[k]) else 0.0
  }

  lemma SumPut<K(!new), V(!new)>(m: map<K, V>, f: (K, V) -> real, k: K, v: V)
    ensures Sum(m[k := v], f) == Sum(m, f) - Part(m, f, k) + f(k, v)
  {
    var n := m[k := v];
    SumSplit(n, f, k);
    assert n - {k} == m - {k};
    if k in m {
      SumSplit(m, f, k);
    } else {
      assert m - {k} == m;
    }
  }

  lemma {:induction false} SumBounds<K(!new), V(!new)>(m: map<K, V>, f: (K, V) -> real)
    requires forall k :: k in m ==> f(k, m[k]) >= 0.0
    ensures Sum(m, f) >= 0.0
    ensures forall k :: k in m ==> f(k, m[k]) <= Sum(m, f)
    decreases |m|
  {
    forall k | k in m
      ensures f(k, m[k]) <= Sum(m, f)
    {
      SumSplit(m, f, k);
      SumBounds(m - {k}, f);
    }
    if m != map[] {
      var k :| k in m;
      assert f(k, m[k]) >= 0.0;
    }
  }

  lemma {:induction false} SumZero<K(!new), V(!new)>(m: map<K, V>, f: (K, V) -> real)
    requires forall k :: k in m ==> f(k, m[k]) == 0.0
    ensures Sum(m, f) == 0.0
    decreases |m|
  {
    if m != map[] {
      var k :| k in m;
      SumSplit(m, f, k);
      SumZero(m - {k}, f);
    }
  }

  function Times(a: real, c: real): real {
    a * c
  }

  /** A projection that is a linear combination of two others sums to that combination. */
  lemma {:induction false} SumLinear<K(!new), V(!new)>(
    m: map<K, V>, f: (K, V) -> real, g: (K, V) -> real, h: (K, V) -> real, c: real)
    requires forall k :: k in m ==> f(k, m[k]) == g(k, m[k]) + Times(h(k, m[k]), c)
    ensures Sum(m, f) == Sum(m, g) + Times(Sum(m, h), c)
    decreases |m|
  {
    if m != map[] {
      hide Times;
      var k :| k in m;
      SumSplit(m, f, k);
      SumSplit(m, g, k);
      SumSplit(m, h, k);
      SumLinear(m - {k}, f, g, h, c);
      TimesAdds(h(k, m[k]), Sum(m - {k}, h), c);
    }
  }

  lemma TimesAdds(a: real, b: real, c: real)
    ensures Times(a + b, c) == Times(a, c) + Times(b, c)
  {
    assert (a + b) * c == a * c + b * c;
  }

  /** Two tables over the same keys whose rows contribute alike have the same sum. */
  lemma {:induction false} SumAlike<K(!new), V(!new), W(!new)>(
    m: map<K, V>, f: (K, V) -> real, n: map<K, W>, g: (K, W) -> real)
    requires m.Keys == n.Keys
    requires forall k :: k in m ==> f(k, m[k]) == g(k, n[k])
    ensures Sum(m, f) == Sum(n, g)
    decreases |m|
  {
    if m == map[] {
      assert n == map[];
    } else {
      var k :| k in m;
      SumSplit(m, f, k);
      SumSplit(n, g, k);
      SumAlike(m - {k}, f, n - {k}, g);
    }
  }
}
