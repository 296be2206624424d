/** Sums over maps and sequences, with the laws the accounting proofs rest on. */
module Sums {

  ghost function MapSum<K, V>(m: map<K, V>, w: (K, V) -> int): int
    decreases m.Keys
  {
    if m == map[] then 0
    else
      var k :| k in m;
      w(k, m[k]) + MapSum(m - {k}, w)
  }

  /** Any key may be split off first. */
  lemma {:induction false} MapSumSplit<K, V>(m: map<K, V>, k: K, w: (K, V) -> int)
    requires k in m
    ensures MapSum(m, w) == w(k, m[k]) + MapSum(m - {k}, w)
    decreases m.Keys
  {
    var first :| first in m && MapSum(m, w) == w(first, m[first]) + MapSum(m - {first}, w);
    if first != k {
      MapSumSplit(m - {first}, k, w);
      MapSumSplit(m - {k}, first, w);
      assert m - {first} - {k} == m - {k} - {first};
    }
  }

  lemma MapSumPut<K, V>(m: map<K, V>, k: K, v: V, w: (K, V) -> int)
    ensures MapSum(m[k := v], w) == MapSum(m, w) + w(k, v) - (if k in m then w(k, m[k]) else 0)
  {
    MapSumSplit(m[k := v], k, w);
    if k in m {
      MapSumSplit(m, k, w);
      assert m[k := v] - {k} == m - {k};
    } else {
      assert m[k := v] - {k} == m;
    }
  }

  /** Sums agree when the weights agree key by key. */
  lemma MapSumEqual<K, V, W>(m: map<K, V>, n: map<K, W>, w: (K, V) -> int, u: (K, W) -> int)
    requires m.Keys == n.Keys
    requires forall k | k in m :: w(k, m[k]) == u(k, n[k])
    ensures MapSum(m, w) == MapSum(n, u)
  {
    MapSumPart(m, n, w, u);
  }

  /** Keys that weigh nothing may be left out. */
  lemma {:induction false} MapSumPart<K, V, W>(m: map<K, V>, n: map<K, W>, w: (K, V) -> int, u: (K, W) -> int)
    requires m.Keys <= n.Keys
    requires forall k | k in m :: w(k, m[k]) == u(k, n[k])
    requires forall k | k in n && k !in m :: u(k, n[k]) == 0
    ensures MapSum(m, w) == MapSum(n, u)
    decreases m.Keys
  {
    if m == map[] {
      MapSumZero(n, u);
    } else {
      var k :| k in m && MapSum(m, w) == w(k, m[k]) + MapSum(m - {k}, w);
      MapSumSplit(n, k, u);
      MapSumPart(m - {k}, n - {k}, w, u);
    }
  }

  lemma {:induction false} MapSumZero<K, V>(m: map<K, V>, w: (K, V) -> int)
    requires forall k | k in m :: w(k, m[k]) == 0
    ensures MapSum(m, w) == 0
    decreases m.Keys
  {
    if m != map[] {
      var k :| k in m && MapSum(m, w) == w(k, m[k]) + MapSum(m - {k}, w);
      MapSumZero(m - {k}, w);
    }
  }

  /** With non-negative weights every entry is bounded by the sum. */
  lemma {:induction false} MapSumBounds<K, V>(m: map<K, V>, w: (K, V) -> int)
    requires forall k | k in m :: w(k, m[k]) >= 0
    ensures MapSum(m, w) >= 0
    ensures forall k | k in m :: w(k, m[k]) <= MapSum(m, w)
    decreases m.Keys
  {
    if m != map[] {
      var k :| k in m && MapSum(m, w) == w(k, m[k]) + MapSum(m - {k}, w);
      MapSumBounds(m - {k}, w);
      forall j | j in m
        ensures w(j, m[j]) <= MapSum(m, w)
      {
        if j != k {
          assert j in m - {k};
        }
      }
    }
  }

  lemma {:induction false} MapSumAdd<K, V>(m: map<K, V>, w: (K, V) -> int, u: (K, V) -> int, both: (K, V) -> int)
    requires forall k | k in m :: both(k, m[k]) == w(k, m[k]) + u(k, m[k])
    ensures MapSum(m, both) == MapSum(m, w) + MapSum(m, u)
    decreases m.Keys
  {
    if m != map[] {
      var k :| k in m && MapSum(m, both) == both(k, m[k]) + MapSum(m - {k}, both);
      MapSumSplit(m, k, w);
      MapSumSplit(m, k, u);
      MapSumAdd(m - {k}, w, u, both);
    }
  }

  ghost function SeqSum<T>(s: seq<T>, w: T -> int): int {
    if s == [] then 0 else SeqSum(s[..|s| - 1], w) + w(s[|s| - 1])
  }

  lemma SeqSumSnoc<T>(s: seq<T>, x: T, w: T -> int)
    ensures SeqSum(s + [x], w) == SeqSum(s, w) + w(x)
  {
    assert (s + [x])[..|s|] == s;
  }

  lemma {:induction false} SeqSumRemove<T>(s: seq<T>, i: nat, w: T -> int)
    requires i < |s|
    ensures SeqSum(s, w) == SeqSum(s[..i] + s[i + 1..], w) + w(s[i])
  {
    var n := |s| - 1;
    if i == n {
      assert s[..i] + s[i + 1..] == s[..n];
    } else {
      SeqSumRemove(s[..n], i, w);
      var rest := s[..i] + s[i + 1..];
      assert rest == (s[..n][..i] + s[..n][i + 1..]) + [s[n]];
      SeqSumSnoc(s[..n][..i] + s[..n][i + 1..], s[n], w);
    }
  }

  lemma MultisetRemove<T>(s: seq<T>, i: nat)
    requires i < |s|
    ensures multiset(s[..i] + s[i + 1..]) == multiset(s) - multiset{s[i]}
  {
    assert s == (s[..i] + [s[i]]) + s[i + 1..];
    assert multiset(s) == multiset(s[..i]) + multiset{s[i]} + multiset(s[i + 1..]);
  }

  /** A sum does not depend on the order of its terms. */
  lemma {:induction false} SeqSumPermutation<T>(s: seq<T>, t: seq<T>, w: T -> int)
    requires multiset(s) == multiset(t)
    ensures SeqSum(s, w) == SeqSum(t, w)
    decreases |s|
  {
    if s == [] {
      assert |multiset(t)| == 0;
    } else {
      var n := |s| - 1;
      var x := s[n];
      assert x in multiset(s);
      var i :| 0 <= i < |t| && t[i] == x;
      MultisetRemove(s, n);
      MultisetRemove(t, i);
      SeqSumRemove(t, i, w);
      assert s[..n] + s[n + 1..] == s[..n];
      assert multiset(s[..n]) == multiset(s) - multiset{x} == multiset(t[..i] + t[i + 1..]);
      SeqSumPermutation(s[..n], t[..i] + t[i + 1..], w);
    }
  }
}
