/** Permutations of `0 .. n-1`, as `numpy.random.permutation(range(n))` and
    sampling all `n` banks without replacement produce them, and the
    reordering of a vector by one (`v[perm]`). */
module Permutations {

  /** `range(n)`. */
  function Range(n: nat): (r: seq<int>)
    ensures |r| == n && forall k :: 0 <= k < n ==> r[k] == k
  {
    seq(n, k => k)
  }

  /** `p` lists each of `0 .. n-1` exactly once. */
  predicate IsPermutation(p: seq<int>, n: nat) {
    |p| == n && multiset(p) == multiset(Range(n))
  }

  /** No value occurs twice in `s`. */
  predicate Distinct(s: seq<int>) {
    forall a, b :: 0 <= a < b < |s| ==> s[a] != s[b]
  }

  lemma {:induction false} DistinctMultiplicity(s: seq<int>, x: int)
    requires Distinct(s)
    ensures multiset(s)[x] <= 1
  {
    if |s| > 0 {
      var n := |s| - 1;
      assert s == s[..n] + [s[n]];
      DistinctMultiplicity(s[..n], x);
      if x == s[n] {
        assert x !in s[..n];
      }
    }
  }

  /** A permutation of `0 .. n-1` has length `n`, stays in range and repeats
      no value. */
  lemma PermutationFacts(p: seq<int>, n: nat)
    requires IsPermutation(p, n)
    ensures |p| == n
    ensures forall k :: 0 <= k < |p| ==> 0 <= p[k] < n
    ensures Distinct(p)
  {
    forall k | 0 <= k < |p| ensures 0 <= p[k] < n {
      assert p[k] in multiset(p);
      assert p[k] in multiset(Range(n));
    }
    forall a, b | 0 <= a < b < |p| ensures p[a] != p[b] {
      if p[a] == p[b] {
        var x := p[a];
        assert p == p[..b] + [p[b]] + p[b + 1..];
        assert x in multiset(p[..b]) by {
          assert p[..b][a] == x;
        }
        assert multiset(p)[x] >= 2;
        DistinctMultiplicity(Range(n), x);
        assert false;
      }
    }
  }

  /** `v[perm]`: entry `k` of the result is entry `perm[k]` of `v`. */
  function Permute<T>(v: seq<T>, perm: seq<int>): (r: seq<T>)
    requires forall k :: 0 <= k < |perm| ==> 0 <= perm[k] < |v|
    ensures |r| == |perm|
  {
    seq(|perm|, k requires 0 <= k < |perm| => v[perm[k]])
  }

  /** Taking the largest value out of a permutation of `0 .. n` leaves one of `0 .. n-1`. */
  lemma RemoveLargest(perm: seq<int>, n: nat) returns (m: nat)
    requires IsPermutation(perm, n + 1)
    ensures m < |perm| && perm[m] == n
    ensures IsPermutation(perm[..m] + perm[m + 1..], n)
  {
    assert n in multiset(Range(n + 1)) by {
      assert Range(n + 1)[n] == n;
    }
    assert n in multiset(perm);
    m :| 0 <= m < |perm| && perm[m] == n;
    var rest := perm[..m] + perm[m + 1..];
    assert perm == perm[..m] + [n] + perm[m + 1..];
    calc {
      multiset(rest);
      multiset(perm[..m]) + multiset(perm[m + 1..]);
      multiset(perm) - multiset{n};
      { assert Range(n + 1) == Range(n) + [n]; }
      multiset(Range(n));
    }
  }

  lemma PermuteSplit<T>(v: seq<T>, perm: seq<int>, m: nat)
    requires forall k :: 0 <= k < |perm| ==> 0 <= perm[k] < |v|
    requires m < |perm|
    ensures Permute(v, perm) == Permute(v, perm[..m]) + [v[perm[m]]] + Permute(v, perm[m + 1..])
  {
  }

  /** Reordering by a permutation keeps every element with its multiplicity. */
  lemma {:induction false} PermutePreservesMultiset<T>(v: seq<T>, perm: seq<int>)
    requires IsPermutation(perm, |v|)
    ensures forall k :: 0 <= k < |perm| ==> 0 <= perm[k] < |v|
    ensures multiset(Permute(v, perm)) == multiset(v)
  {
    PermutationFacts(perm, |v|);
    if |v| > 0 {
      var n := |v| - 1;
      var m := RemoveLargest(perm, n);
      var rest := perm[..m] + perm[m + 1..];
      PermutationFacts(rest, n);
      PermutePreservesMultiset(v[..n], rest);
      PermuteSplit(v, perm, m);
      assert Permute(v[..n], rest) == Permute(v, perm[..m]) + Permute(v, perm[m + 1..]);
      assert v == v[..n] + [v[n]];
    }
  }
}
