// Finite maps read with a default, and sums over their entries.
module Totals {

  // A ledger column: an account that was never written holds 0.
  function Get<K>(m: map<K, int>, k: K): int {
    if k in m then m[k] else 0
  }

  // The sum of a weight over every entry, taken in an arbitrary order.
  ghost function SumBy<K, V>(m: map<K, V>, f: (K, V) -> int): int {
    if m == map[] then 0
    else
      var k :| k in m;
      f(k, m[k]) + SumBy(m - {k}, f)
  }

  lemma SumByEmpty<K, V>(f: (K, V) -> int)
    ensures SumBy(map[], f) == 0
  {
  }

  // The order does not matter: any entry can be taken out first.
  lemma {:induction false} SumByPick<K, V>(m: map<K, V>, f: (K, V) -> int, k: K)
    requires k in m
    ensures SumBy(m, f) == f(k, m[k]) + SumBy(m - {k}, f)
    decreases |m|
  {
    var first :| first in m && SumBy(m, f) == f(first, m[first]) + SumBy(m - {first}, f);
    if first != k {
      SumByPick(m - {first}, f, k);
      SumByPick(m - {k}, f, first);
      assert m - {first} - {k} == m - {k} - {first};
    }
  }

  lemma SumByUpdate<K, V>(m: map<K, V>, f: (K, V) -> int, k: K, v: V)
    ensures SumBy(m[k := v], f) == SumBy(m, f) + f(k, v) - (if k in m then f(k, m[k]) else 0)
  {
    SumByPick(m[k := v], f, k);
    if k in m {
      SumByPick(m, f, k);
      assert m[k := v] - {k} == m - {k};
    } else {
      assert m[k := v] - {k} == m;
    }
  }

  lemma {:induction false} SumByNonNegative<K, V>(m: map<K, V>, f: (K, V) -> int)
    requires forall k | k in m :: f(k, m[k]) >= 0
    ensures SumBy(m, f) >= 0
    decreases |m|
  {
    if m != map[] {
      var k :| k in m;
      SumByPick(m, f, k);
      SumByNonNegative(m - {k}, f);
    }
  }

  ghost function Sum<K(!new)>(m: map<K, int>): int {
    SumBy(m, (k: K, n: int) => n)
  }

  lemma SumEmpty<K(!new)>()
    ensures Sum<K>(map[]) == 0
  {
  }

  // Adds to one account; every transfer in the models is a pair of these.
  function Bump<K(!new)>(m: map<K, int>, k: K, n: int): (r: map<K, int>)
    ensures Sum(r) == Sum(m) + n
  {
    SumByUpdate(m, (k: K, n: int) => n, k, Get(m, k) + n);
    m[k := Get(m, k) + n]
  }
}
