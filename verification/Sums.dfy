/** The sum of a finite map's values, and how it moves when the map is updated. */
module Sums {

  ghost function SumOf<K(!new)>(m: map<K, int>): int
    decreases |m|
  {
    if m == map[] then 0 else
      var k :| k in m;
      m[k] + SumOf(m - {k})
  }

  /** Any key may be split off first, not only the one the definition picks. */
  lemma {:induction false} Split<K(!new)>(m: map<K, int>, k: K)
    requires k in m
    ensures SumOf(m) == m[k] + SumOf(m - {k})
    decreases |m|
  {
    var first :| first in m && SumOf(m) == m[first] + SumOf(m - {first});
    if first != k {
      Split(m - {first}, k);
      Split(m - {k}, first);
      assert m - {first} - {k} == m - {k} - {first};
    }
  }

  lemma {:induction false} Update<K(!new)>(m: map<K, int>, k: K, x: int)
    requires k in m
    ensures SumOf(m[k := x]) == SumOf(m) - m[k] + x
  {
    Split(m, k);
    Split(m[k := x], k);
    assert m[k := x] - {k} == m - {k};
  }

  lemma {:induction false} Zeros<K(!new)>(m: map<K, int>)
    requires forall k | k in m :: m[k] == 0
    ensures SumOf(m) == 0
    decreases |m|
  {
    if k :| k in m {
      Split(m, k);
      Zeros(m - {k});
    }
  }

  lemma {:induction false} Monotone<K(!new)>(m: map<K, int>, n: map<K, int>)
    requires m.Keys == n.Keys
    requires forall k | k in m :: m[k] <= n[k]
    ensures SumOf(m) <= SumOf(n)
    decreases |m|
  {
    if k :| k in m {
      Split(m, k);
      Split(n, k);
      Monotone(m - {k}, n - {k});
    } else {
      assert m == n;
    }
  }

  /** If every value is at most `bound`, the sum is at most `bound` per key. */
  lemma {:induction false} Bounded<K(!new)>(m: map<K, int>, bound: nat)
    requires forall k | k in m :: m[k] <= bound
    ensures SumOf(m) <= bound * |m|
    decreases |m|
  {
    if k :| k in m {
      Split(m, k);
      Bounded(m - {k}, bound);
      var rest := |m - {k}|;
      assert |m| == rest + 1 by {
        assert (m - {k}).Keys == m.Keys - {k};
      }
      assert bound * (rest + 1) == bound * rest + bound;
    }
  }
}
