/** Sums over the values of a finite map, independent of the order of iteration.
    Every loop of the program that ranges over a map is specified by one of them. */
module MapSums {

  ghost function Sum<K(!new), V(!new)>(m: map<K, V>, f: V -> int): int
    decreases |m|
  {
    if m == map[] then 0 else
      var k :| k in m;
      f(m[k]) + Sum(m - {k}, f)
  }

  /** Any key may be the one that is taken out first. */
  lemma {:induction false} SumRemove<K(!new), V(!new)>(m: map<K, V>, f: V -> int, k: K)
    requires k in m
    ensures Sum(m, f) == f(m[k]) + Sum(m - {k}, f)
    decreases |m|
  {
    var first :| first in m && Sum(m, f) == f(m[first]) + Sum(m - {first}, f);
    if first != k {
      SumRemove(m - {first}, f, k);
      SumRemove(m - {k}, f, first);
      assert m - {first} - {k} == m - {k} - {first};
    }
  }

  lemma {:induction false} SumUpdate<K(!new), V(!new)>(m: map<K, V>, f: V -> int, k: K, v: V)
    ensures Sum(m[k := v], f) == Sum(m, f) - (if k in m then f(m[k]) else 0) + f(v)
  {
    SumRemove(m[k := v], f, k);
    assert m[k := v] - {k} == m - {k};
    if k in m {
      SumRemove(m, f, k);
    } else {
      assert m - {k} == m;
    }
  }

  lemma {:induction false} SumLeq<K(!new), V(!new)>(m: map<K, V>, f: V -> int, g: V -> int)
    requires forall k :: k in m ==> f(m[k]) <= g(m[k])
    ensures Sum(m, f) <= Sum(m, g)
    decreases |m|
  {
    if m != map[] {
      var k :| k in m;
      SumRemove(m, f, k);
      SumRemove(m, g, k);
      SumLeq(m - {k}, f, g);
    }
  }

  lemma {:induction false} SumNonNegative<K(!new), V(!new)>(m: map<K, V>, f: V -> int)
    requires forall k :: k in m ==> f(m[k]) >= 0
    ensures Sum(m, f) >= 0
  {
    var zero := (v: V) => 0;
    SumLeq(m, zero, f);
    SumZero(m, zero);
  }

  lemma {:induction false} SumZero<K(!new), V(!new)>(m: map<K, V>, f: V -> int)
    requires forall k :: k in m ==> f(m[k]) == 0
    ensures Sum(m, f) == 0
    decreases |m|
  {
    if m != map[] {
      var k :| k in m;
      SumRemove(m, f, k);
      SumZero(m - {k}, f);
    }
  }

  /** One summand never exceeds the sum of non-negative ones. */
  lemma {:induction false} SumAtLeast<K(!new), V(!new)>(m: map<K, V>, f: V -> int, k: K)
    requires k in m
    requires forall j :: j in m ==> f(m[j]) >= 0
    ensures f(m[k]) <= Sum(m, f)
  {
    SumRemove(m, f, k);
    SumNonNegative(m - {k}, f);
  }

  /** A part of a map sums to no more than the whole. */
  lemma {:induction false} SumPart<K(!new), V(!new)>(part: map<K, V>, m: map<K, V>, f: V -> int)
    requires forall k :: k in part ==> k in m && part[k] == m[k]
    requires forall k :: k in m ==> f(m[k]) >= 0
    ensures 0 <= Sum(part, f) <= Sum(m, f)
    decreases |part|
  {
    if part == map[] {
      SumNonNegative(m, f);
    } else {
      var k :| k in part;
      SumRemove(part, f, k);
      SumRemove(m, f, k);
      SumPart(part - {k}, m - {k}, f);
    }
  }

  /** Two maps with the same keys and pointwise equal measures have equal sums. */
  lemma {:induction false} SumSame<K(!new), V(!new), W(!new)>(m: map<K, V>, f: V -> int, n: map<K, W>, g: W -> int)
    requires m.Keys == n.Keys
    requires forall k :: k in m ==> f(m[k]) == g(n[k])
    ensures Sum(m, f) == Sum(n, g)
    decreases |m|
  {
    if m == map[] {
      assert n == map[];
    } else {
      var k :| k in m;
      SumRemove(m, f, k);
      SumRemove(n, g, k);
      SumSame(m - {k}, f, n - {k}, g);
    }
  }

  ghost function Scaled<V(!new)>(f: V -> int, c: int): V -> int { v => f(v) * c }

  lemma {:induction false} SumScaled<K(!new), V(!new)>(m: map<K, V>, f: V -> int, c: int)
    ensures Sum(m, Scaled(f, c)) == Sum(m, f) * c
    decreases |m|
  {
    if m != map[] {
      var k :| k in m;
      var x, y := f(m[k]), Sum(m - {k}, f);
      assert Sum(m, f) == x + y by { SumRemove(m, f, k); }
      assert Sum(m, Scaled(f, c)) == x * c + y * c by {
        SumRemove(m, Scaled(f, c), k);
        SumScaled(m - {k}, f, c);
      }
      Distributes(x, y, c);
    }
  }

  lemma {:induction false} Distributes(x: int, y: int, c: int)
    ensures (x + y) * c == x * c + y * c
  {}
}
