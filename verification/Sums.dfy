/**
 Finite sums over maps, used to state conservation and reservation totals.
 */
module Sums {

  ghost function Pick<K>(m: map<K, int>): (k: K)
    requires m != map[]
    ensures k in m
  {
    var k :| k in m;
    k
  }

  /** The sum of all values of a map. */
  ghost function Sum<K>(m: map<K, int>): int
    decreases |m|
  {
    if m == map[] then 0 else
      var k := Pick(m);
      m[k] + Sum(m - {k})
  }

  /** Any key may be taken out first. */
  lemma {:induction false} Split<K>(m: map<K, int>, k: K)
    requires k in m
    ensures Sum(m) == m[k] + Sum(m - {k})
    decreases |m|
  {
    var p := Pick(m);
    if p != k {
      Split(m - {p}, k);
      Split(m - {k}, p);
      assert m - {p} - {k} == m - {k} - {p};
    }
  }

  lemma Update<K>(m: map<K, int>, k: K, v: int)
    ensures Sum(m[k := v]) == Sum(m) + v - (if k in m then m[k] else 0)
  {
    Split(m[k := v], k);
    assert m[k := v] - {k} == m - {k};
    if k in m {
      Split(m, k);
    } else {
      assert m - {k} == m;
    }
  }

  lemma Remove<K>(m: map<K, int>, k: K)
    ensures Sum(m - {k}) == Sum(m) - (if k in m then m[k] else 0)
  {
    if k in m {
      Split(m, k);
    } else {
      assert m - {k} == m;
    }
  }

  /** A sum is monotone in its values. */
  lemma {:induction false} Monotone<K>(m: map<K, int>, n: map<K, int>)
    requires m.Keys == n.Keys
    requires forall k :: k in m ==> m[k] <= n[k]
    ensures Sum(m) <= Sum(n)
    decreases |m|
  {
    if m != map[] {
      var k := Pick(m);
      Split(n, k);
      Monotone(m - {k}, n - {k});
    }
  }

  lemma {:induction false} NonNegative<K>(m: map<K, int>)
    requires forall k :: k in m ==> m[k] >= 0
    ensures Sum(m) >= 0
    decreases |m|
  {
    if m != map[] {
      NonNegative(m - {Pick(m)});
    }
  }

  /** One value of a non-negative map is at most the sum. */
  lemma AtMostSum<K>(m: map<K, int>, k: K)
    requires k in m
    requires forall x :: x in m ==> m[x] >= 0
    ensures m[k] <= Sum(m)
  {
    Split(m, k);
    NonNegative(m - {k});
  }

  lemma {:induction false} Zero<K>(m: map<K, int>)
    requires forall k :: k in m ==> m[k] == 0
    ensures Sum(m) == 0
    decreases |m|
  {
    if m != map[] {
      Zero(m - {Pick(m)});
    }
  }

  /** Keys with value zero do not count. */
  lemma {:induction false} Extend<K>(m: map<K, int>, n: map<K, int>)
    requires m.Keys <= n.Keys
    requires forall k :: k in n ==> n[k] == if k in m then m[k] else 0
    ensures Sum(n) == Sum(m)
    decreases |m|
  {
    if m == map[] {
      Zero(n);
    } else {
      var k := Pick(m);
      Split(m, k);
      Split(n, k);
      Extend(m - {k}, n - {k});
    }
  }
}
