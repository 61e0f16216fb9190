/** Sums over the entries of a finite map. */
module Sums {

  ghost function Sum<K, V>(m: map<K, V>, f: (K, V) -> int): int
    decreases |m|
  {
    if m == map[] then 0
    else
      var k :| k in m;
      f(k, m[k]) + Sum(m - {k}, f)
  }

  /** The sum does not depend on the order in which the keys are taken. */
  lemma {:induction false} SumRemove<K, V>(m: map<K, V>, f: (K, V) -> int, k: K)
    requires k in m
    ensures Sum(m, f) == f(k, m[k]) + Sum(m - {k}, f)
    decreases |m|
  {
    var j :| j in m && Sum(m, f) == f(j, m[j]) + Sum(m - {j}, f);
    if j != k {
      SumRemove(m - {j}, f, k);
      SumRemove(m - {k}, f, j);
      assert m - {j} - {k} == m - {k} - {j};
    }
  }

  /** Writing one key changes the sum by the difference of that key's terms. */
  lemma SumUpdate<K, V>(m: map<K, V>, f: (K, V) -> int, k: K, v: V)
    ensures Sum(m[k := v], f) == Sum(m, f) - (if k in m then f(k, m[k]) else 0) + f(k, v)
  {
    SumRemove(m[k := v], f, k);
    if k in m {
      SumRemove(m, f, k);
      assert m[k := v] - {k} == m - {k};
    } else {
      assert m[k := v] - {k} == m;
    }
  }

  lemma {:induction false} SumNonNeg<K, V>(m: map<K, V>, f: (K, V) -> int)
    requires forall k | k in m :: f(k, m[k]) >= 0
    ensures Sum(m, f) >= 0
    decreases |m|
  {
    if m != map[] {
      var k :| k in m && Sum(m, f) == f(k, m[k]) + Sum(m - {k}, f);
      SumNonNeg(m - {k}, f);
    }
  }

  /** With no negative term, each term is at most the sum. */
  lemma TermAtMostSum<K, V>(m: map<K, V>, f: (K, V) -> int, k: K)
    requires forall j | j in m :: f(j, m[j]) >= 0
    requires k in m
    ensures f(k, m[k]) <= Sum(m, f)
  {
    SumRemove(m, f, k);
    SumNonNeg(m - {k}, f);
  }

  lemma {:induction false} SumMono<K, V>(m: map<K, V>, f: (K, V) -> int, g: (K, V) -> int)
    requires forall k | k in m :: f(k, m[k]) <= g(k, m[k])
    ensures Sum(m, f) <= Sum(m, g)
    decreases |m|
  {
    if m != map[] {
      var k :| k in m;
      SumRemove(m, f, k);
      SumRemove(m, g, k);
      SumMono(m - {k}, f, g);
    }
  }

  /** A sum of zeros. */
  lemma {:induction false} SumZero<K, V>(m: map<K, V>, f: (K, V) -> int)
    requires forall k | k in m :: f(k, m[k]) == 0
    ensures Sum(m, f) == 0
    decreases |m|
  {
    if m != map[] {
      var k :| k in m && Sum(m, f) == f(k, m[k]) + Sum(m - {k}, f);
      SumZero(m - {k}, f);
    }
  }

  /** Where each term splits in two, so does the sum. */
  lemma {:induction false} SumSplit<K, V>(m: map<K, V>, f: (K, V) -> int, g: (K, V) -> int, h: (K, V) -> int)
    requires forall k | k in m :: f(k, m[k]) == g(k, m[k]) + h(k, m[k])
    ensures Sum(m, f) == Sum(m, g) + Sum(m, h)
    decreases |m|
  {
    if m != map[] {
      var k :| k in m;
      SumRemove(m, f, k);
      SumRemove(m, g, k);
      SumRemove(m, h, k);
      SumSplit(m - {k}, f, g, h);
    }
  }

  /** The entries whose key is kept. */
  ghost function Keep<K, V>(m: map<K, V>, keep: K -> bool): map<K, V> {
    map k | k in m && keep(k) :: m[k]
  }

  lemma KeepAfterRemoval<K, V>(m: map<K, V>, keep: K -> bool, k: K)
    ensures Keep(m - {k}, keep) == Keep(m, keep) - {k}
    ensures k !in m || !keep(k) ==> Keep(m - {k}, keep) == Keep(m, keep)
  {
  }

  /** Keys whose terms are zero can be left out. */
  lemma {:induction false} SumRestrict<K, V>(m: map<K, V>, f: (K, V) -> int, keep: K -> bool)
    requires forall k | k in m && !keep(k) :: f(k, m[k]) == 0
    ensures Sum(m, f) == Sum(Keep(m, keep), f)
    decreases |m|
  {
    if m == map[] {
      assert Keep(m, keep) == map[];
    } else {
      var k :| k in m;
      SumRemove(m, f, k);
      KeepAfterRemoval(m, keep, k);
      SumRestrict(m - {k}, f, keep);
      if keep(k) {
        SumRemove(Keep(m, keep), f, k);
      }
    }
  }
}
