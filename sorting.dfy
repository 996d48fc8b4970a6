/** Sorting by a numeric key, as Python's `sorted(xs, key=...)` and NumPy's
    `argsort` are used in the network formation: offers by interest rate,
    interbank offers by rate, CDS offers by spread. */
module Sorting {

  /** `s` is in ascending order of `key`. */
  predicate SortedBy<T>(s: seq<T>, key: T -> real) {
    forall a, b :: 0 <= a < b < |s| ==> key(s[a]) <= key(s[b])
  }

  /** `x` inserted into sorted `s` ahead of the elements whose key is not
      below its own. */
  function Insert<T>(x: T, s: seq<T>, key: T -> real): (r: seq<T>)
    requires SortedBy(s, key)
    ensures SortedBy(r, key) && |r| == |s| + 1
    ensures r[0] == x || (|s| > 0 && r[0] == s[0])
  {
    if |s| == 0 then [x]
    else if key(x) <= key(s[0]) then [x] + s
    else
      var rest := Insert(x, s[1..], key);
      assert key(s[0]) <= key(rest[0]);
      [s[0]] + rest
  }

  /** `s` sorted by `key`, by inserting each element into the sorted rest. */
  function SortByKey<T>(s: seq<T>, key: T -> real): (r: seq<T>)
    ensures SortedBy(r, key) && |r| == |s|
  {
    if |s| == 0 then []
    else Insert(s[0], SortByKey(s[1..], key), key)
  }

  /** Inserting adds exactly `x`. */
  lemma {:induction false} InsertPermutes<T>(x: T, s: seq<T>, key: T -> real)
    requires SortedBy(s, key)
    ensures multiset(Insert(x, s, key)) == multiset(s) + multiset{x}
    decreases |s|
  {
    if |s| > 0 && key(x) > key(s[0]) {
      InsertPermutes(x, s[1..], key);
      assert s == [s[0]] + s[1..];
    }
  }

  /** Sorting permutes its input. */
  lemma {:induction false} SortByKeyPermutes<T>(s: seq<T>, key: T -> real)
    ensures multiset(SortByKey(s, key)) == multiset(s)
    decreases |s|
  {
    if |s| > 0 {
      var rest := SortByKey(s[1..], key);
      SortByKeyPermutes(s[1..], key);
      InsertPermutes(s[0], rest, key);
      assert SortByKey(s, key) == Insert(s[0], rest, key);
      assert s == [s[0]] + s[1..];
      assert multiset(s) == multiset(s[1..]) + multiset{s[0]};
    }
  }

  /** Every element of the sorted sequence comes from the input. */
  lemma SortByKeyFrom<T>(s: seq<T>, key: T -> real, k: int)
    requires 0 <= k < |s|
    ensures SortByKey(s, key)[k] in s
  {
    SortByKeyPermutes(s, key);
    assert SortByKey(s, key)[k] in multiset(s);
  }

  /** The elements of `s` whose key is `v`, in their order in `s`. */
  function WithKey<T>(s: seq<T>, key: T -> real, v: real): (r: seq<T>)
    ensures forall a :: 0 <= a < |r| ==> key(r[a]) == v
    decreases |s|
  {
    if |s| == 0 then []
    else (if key(s[0]) == v then [s[0]] else []) + WithKey(s[1..], key, v)
  }

  /** `x` lands ahead of every element with its own key. */
  lemma {:induction false} InsertStable<T>(x: T, s: seq<T>, key: T -> real, v: real)
    requires SortedBy(s, key)
    ensures WithKey(Insert(x, s, key), key, v) == (if key(x) == v then [x] else []) + WithKey(s, key, v)
    decreases |s|
  {
    var r := Insert(x, s, key);
    if |s| == 0 {
      assert r[1..] == s;
    } else if key(x) <= key(s[0]) {
      assert r[0] == x && r[1..] == s;
    } else {
      InsertStable(x, s[1..], key, v);
      assert r[0] == s[0] && r[1..] == Insert(x, s[1..], key);
    }
  }

  /** Sorting is stable: the elements that share a key keep their order. */
  lemma {:induction false} SortByKeyStable<T>(s: seq<T>, key: T -> real, v: real)
    ensures WithKey(SortByKey(s, key), key, v) == WithKey(s, key, v)
    decreases |s|
  {
    if |s| > 0 {
      SortByKeyStable(s[1..], key, v);
      InsertStable(s[0], SortByKey(s[1..], key), key, v);
    }
  }
}
