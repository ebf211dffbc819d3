/** Sums over maps and sequences, free of any iteration order. */
module Sums {

  /** The sum of all values of a map. */
  ghost function Sum<K(!new)>(m: map<K, int>): int
    decreases |m.Keys|
  {
    if m == map[] then 0 else
    var k :| k in m;
    assert (m - {k}).Keys == m.Keys - {k};
    m[k] + Sum(m - {k})
  }

  /** Any key may be taken out first. */
  lemma {:induction false} SumRemove<K(!new)>(m: map<K, int>, k: K)
    requires k in m
    ensures (m - {k}).Keys == m.Keys - {k}
    ensures Sum(m) == m[k] + Sum(m - {k})
    decreases |m.Keys|
  {
    assert (m - {k}).Keys == m.Keys - {k};
    var x :| x in m && Sum(m) == m[x] + Sum(m - {x});
    if x != k {
      assert (m - {x}).Keys == m.Keys - {x};
      SumRemove(m - {x}, k);
      SumRemove(m - {k}, x);
      assert m - {x} - {k} == m - {k} - {x};
    }
  }

  lemma SumUpdate<K(!new)>(m: map<K, int>, k: K, v: int)
    ensures Sum(m[k := v]) == Sum(m) + v - (if k in m then m[k] else 0)
  {
    SumRemove(m[k := v], k);
    assert m[k := v] - {k} == m - {k};
    if k in m {
      SumRemove(m, k);
    } else {
      assert m - {k} == m;
    }
  }

  lemma {:induction false} SumAdd<K(!new)>(m: map<K, int>, n: map<K, int>, p: map<K, int>)
    requires m.Keys == n.Keys == p.Keys
    requires forall k :: k in m ==> m[k] + n[k] == p[k]
    ensures Sum(m) + Sum(n) == Sum(p)
    decreases |m.Keys|
  {
    if m == map[] {
      assert n == map[] && p == map[];
    } else {
      var k :| k in m;
      SumRemove(m, k);
      SumRemove(n, k);
      SumRemove(p, k);
      SumAdd(m - {k}, n - {k}, p - {k});
    }
  }

  /** Multiplication as repeated addition, which keeps quantified products linear. */
  function Times(c: nat, x: int): int
  {
    if c == 0 then 0 else Times(c - 1, x) + x
  }

  lemma {:induction false} TimesIsProduct(c: nat, x: int)
    ensures Times(c, x) == c * x
  {
    if c > 0 { TimesIsProduct(c - 1, x); }
  }

  ghost function Scaled<K(!new)>(c: nat, m: map<K, int>): map<K, int>
  {
    map k | k in m :: Times(c, m[k])
  }

  lemma {:induction false} SumScaled<K(!new)>(c: nat, m: map<K, int>)
    ensures Sum(Scaled(c, m)) == Times(c, Sum(m)) == c * Sum(m)
    decreases c
  {
    TimesIsProduct(c, Sum(m));
    if c == 0 {
      SumIndicator(Scaled(0, m), {});
    } else {
      SumScaled(c - 1, m);
      SumAdd(Scaled(c - 1, m), m, Scaled(c, m));
    }
  }

  /** A pointwise order carries over, and equal sums force equality. */
  lemma {:induction false} SumMonotone<K(!new)>(m: map<K, int>, n: map<K, int>)
    requires m.Keys == n.Keys
    requires forall k :: k in m ==> m[k] <= n[k]
    ensures Sum(m) <= Sum(n)
    ensures Sum(m) == Sum(n) ==> m == n
    decreases |m.Keys|
  {
    if m == map[] {
      assert n == map[];
    } else {
      var k :| k in m;
      SumRemove(m, k);
      SumRemove(n, k);
      SumMonotone(m - {k}, n - {k});
      if Sum(m) == Sum(n) {
        forall x | x in m ensures m[x] == n[x] {
          if x != k { assert (m - {k})[x] == (n - {k})[x]; }
        }
      }
    }
  }

  /** Counting: the indicator of s sums to |s|. */
  lemma {:induction false} SumIndicator<K(!new)>(m: map<K, int>, s: set<K>)
    requires s <= m.Keys
    requires forall k :: k in m ==> m[k] == (if k in s then 1 else 0)
    ensures Sum(m) == |s|
    decreases |m.Keys|
  {
    if m == map[] {
      assert s == {};
    } else {
      var k :| k in m;
      SumRemove(m, k);
      SumIndicator(m - {k}, s - {k});
      if k !in s { assert s - {k} == s; }
    }
  }

  /** If every value is at most b on the keys of s and zero elsewhere, the sum is at most b*|s|. */
  lemma SumBound<K(!new)>(m: map<K, int>, s: set<K>, b: nat)
    requires s <= m.Keys
    requires forall k :: k in m ==> m[k] <= (if k in s then b else 0)
    ensures Sum(m) <= b * |s|
  {
    var indicator := map k | k in m :: if k in s then 1 else 0;
    SumIndicator(indicator, s);
    SumScaled(b, indicator);
    TimesIsProduct(b, 0);
    TimesIsProduct(b, 1);
    SumMonotone(m, Scaled(b, indicator));
  }

  lemma SumNonNegative<K(!new)>(m: map<K, int>)
    requires forall k :: k in m ==> m[k] >= 0
    ensures Sum(m) >= 0
    ensures forall k :: k in m ==> m[k] <= Sum(m)
    ensures Sum(m) == 0 ==> forall k :: k in m ==> m[k] == 0
  {
    var z := map k | k in m :: 0;
    SumIndicator(z, {});
    SumMonotone(z, m);
    forall k | k in m ensures m[k] <= Sum(m) {
      SumRemove(m, k);
      var rest := m - {k};
      var zr := map x | x in rest :: 0;
      SumIndicator(zr, {});
      SumMonotone(zr, rest);
    }
  }

  /** Keys whose value is zero do not matter to a sum. */
  lemma {:induction false} SumExtend<K(!new)>(part: map<K, int>, whole: map<K, int>)
    requires part.Keys <= whole.Keys
    requires forall k :: k in whole ==> whole[k] == (if k in part then part[k] else 0)
    ensures Sum(part) == Sum(whole)
    decreases |whole.Keys|
  {
    var missing := whole.Keys - part.Keys;
    if missing == {} {
      assert whole.Keys == part.Keys + missing;
      assert part == whole;
    } else {
      var k :| k in missing;
      SumRemove(whole, k);
      SumExtend(part, whole - {k});
    }
  }

  /** A sum splits along any property of the keys. */
  lemma {:induction false} SumSplit<K(!new)>(m: map<K, int>, part: map<K, int>, rest: map<K, int>)
    requires forall k :: k in m ==> k in part || k in rest
    requires forall k :: k in part ==> k !in rest && k in m && part[k] == m[k]
    requires forall k :: k in rest ==> k in m && rest[k] == m[k]
    ensures Sum(m) == Sum(part) + Sum(rest)
    decreases |part.Keys|
  {
    if part == map[] {
      assert rest == m;
    } else {
      var k :| k in part;
      SumRemove(part, k);
      SumRemove(m, k);
      SumSplit(m - {k}, part - {k}, rest);
    }
  }

  /** Renaming the keys does not change a sum. */
  lemma {:induction false} SumRekey<K(!new), L(!new)>(m: map<K, int>, n: map<L, int>, rename: K -> L)
    requires forall k :: k in m ==> rename(k) in n && n[rename(k)] == m[k]
    requires forall l :: l in n ==> exists k :: k in m && rename(k) == l
    requires forall k, k' :: k in m && k' in m && k != k' ==> rename(k) != rename(k')
    ensures Sum(m) == Sum(n)
    decreases |m.Keys|
  {
    if m == map[] {
      assert n == map[];
    } else {
      var k :| k in m;
      SumRemove(m, k);
      SumRemove(n, rename(k));
      SumRekey(m - {k}, n - {rename(k)}, rename);
    }
  }
}
