/** Sums over the values of a finite map, for pool-wide totals. */
module Sums {
  const IDENTITY: int -> int := (x: int) => x

  ghost function Sum<K(!new), V>(m: map<K, V>, f: V -> int): int
    decreases |m|
  {
    if m == map[] then 0
    else
      var k :| k in m;
      f(m[k]) + Sum(m - {k}, f)
  }

  /** Any key may be taken out first. */
  lemma {:induction false} SumPick<K(!new), V>(m: map<K, V>, f: V -> int, k: K)
    requires k in m
    ensures Sum(m, f) == f(m[k]) + Sum(m - {k}, f)
    decreases |m|
  {
    var k0 :| k0 in m && Sum(m, f) == f(m[k0]) + Sum(m - {k0}, f);
    if k0 != k {
      SumPick(m - {k0}, f, k);
      SumPick(m - {k}, f, k0);
      assert m - {k0} - {k} == m - {k} - {k0};
    }
  }

  lemma SumSet<K(!new), V>(m: map<K, V>, f: V -> int, k: K, v: V)
    ensures Sum(m[k := v], f) == Sum(m, f) - (if k in m then f(m[k]) else 0) + f(v)
  {
    SumPick(m[k := v], f, k);
    if k in m {
      SumPick(m, f, k);
      assert m[k := v] - {k} == m - {k};
    } else {
      assert m[k := v] - {k} == m;
    }
  }

  lemma {:induction false} SumAdd<K(!new), A, B, C>(
      a: map<K, A>, f: A -> int, b: map<K, B>, g: B -> int, c: map<K, C>, h: C -> int)
    requires a.Keys == b.Keys == c.Keys
    requires forall k :: k in c ==> h(c[k]) == f(a[k]) + g(b[k])
    ensures Sum(c, h) == Sum(a, f) + Sum(b, g)
    decreases |c|
  {
    if c == map[] {
      assert a == map[] && b == map[];
    } else {
      var k :| k in c;
      SumPick(a, f, k);
      SumPick(b, g, k);
      SumPick(c, h, k);
      SumAdd(a - {k}, f, b - {k}, g, c - {k}, h);
    }
  }

  function Scaled<V>(g: V -> int, d: int): V -> int { v => g(v) * d }

  lemma {:induction false} SumScaled<K(!new), V>(m: map<K, V>, g: V -> int, d: int)
    ensures Sum(m, Scaled(g, d)) == Sum(m, g) * d
    decreases |m|
  {
    if m != map[] {
      var k :| k in m;
      SumPick(m, g, k);
      SumPick(m, Scaled(g, d), k);
      SumScaled(m - {k}, g, d);
      assert (g(m[k]) + Sum(m - {k}, g)) * d == g(m[k]) * d + Sum(m - {k}, g) * d;
    }
  }

  /** Equal terms have equal sums; terms that are zero need not be there. */
  lemma {:induction false} SumSame<K(!new), A, B>(a: map<K, A>, f: A -> int, b: map<K, B>, g: B -> int)
    requires a.Keys <= b.Keys
    requires forall k :: k in a ==> f(a[k]) == g(b[k])
    requires forall k :: k in b && k !in a ==> g(b[k]) == 0
    ensures Sum(a, f) == Sum(b, g)
    decreases |b|
  {
    if b == map[] {
      assert a == map[];
    } else {
      var k :| k in b;
      SumPick(b, g, k);
      if k in a {
        SumPick(a, f, k);
        SumSame(a - {k}, f, b - {k}, g);
      } else {
        SumSame(a, f, b - {k}, g);
      }
    }
  }

  lemma {:induction false} SumLe<K(!new), A, B>(a: map<K, A>, f: A -> int, b: map<K, B>, g: B -> int)
    requires a.Keys <= b.Keys
    requires forall k :: k in a ==> f(a[k]) <= g(b[k])
    requires forall k :: k in b && k !in a ==> 0 <= g(b[k])
    ensures Sum(a, f) <= Sum(b, g)
    decreases |b|
  {
    if b == map[] {
      assert a == map[];
    } else {
      var k :| k in b;
      SumPick(b, g, k);
      if k in a {
        SumPick(a, f, k);
        SumLe(a - {k}, f, b - {k}, g);
      } else {
        SumLe(a, f, b - {k}, g);
      }
    }
  }

  /** A non-negative sum is at least each of its terms. */
  lemma {:induction false} SumMember<K(!new), V>(m: map<K, V>, f: V -> int, k: K)
    requires k in m
    requires forall j :: j in m ==> 0 <= f(m[j])
    ensures 0 <= f(m[k]) <= Sum(m, f)
  {
    SumPick(m, f, k);
    var none: map<K, V> := map[];
    SumLe(none, f, m - {k}, f);
  }
}
