/** `merge_dict` (`abm_model/essentials.py`): a list of dictionaries merged
    into one that maps every key to the list of its values, in the order of
    the dictionaries that hold it. */
module MergeDict {

  /** Every key of some dictionary in `dicts`. */
  ghost function KeysOf<K, V>(dicts: seq<map<K, V>>): set<K> {
    if |dicts| == 0 then {} else KeysOf(dicts[..|dicts| - 1]) + dicts[|dicts| - 1].Keys
  }

  /** A key is in `KeysOf(dicts)` exactly when some dictionary holds it. */
  lemma {:induction false} KeysOfMembership<K, V>(dicts: seq<map<K, V>>, k: K)
    ensures k in KeysOf(dicts) <==> exists i :: 0 <= i < |dicts| && k in dicts[i]
  {
    if |dicts| > 0 {
      var n := |dicts| - 1;
      KeysOfMembership(dicts[..n], k);
      if k in KeysOf(dicts[..n]) {
        var i :| 0 <= i < n && k in dicts[..n][i];
        assert k in dicts[i];
      }
      if exists i :: 0 <= i < |dicts| && k in dicts[i] {
        var i :| 0 <= i < |dicts| && k in dicts[i];
        if i < n {
          assert k in dicts[..n][i];
        }
      }
    }
  }

  /** The values of `k`, one per dictionary that holds it, in list order. */
  function Collect<K, V>(dicts: seq<map<K, V>>, k: K): seq<V> {
    if |dicts| == 0 then []
    else
      var n := |dicts| - 1;
      Collect(dicts[..n], k) + if k in dicts[n] then [dicts[n][k]] else []
  }

  /** A key no dictionary holds has an empty list. */
  lemma {:induction false} CollectOutside<K, V>(dicts: seq<map<K, V>>, k: K)
    requires k !in KeysOf(dicts)
    ensures Collect(dicts, k) == []
  {
    if |dicts| > 0 {
      CollectOutside(dicts[..|dicts| - 1], k);
    }
  }

  /** Number of dictionaries in `dicts` that hold `k`. */
  function Holding<K, V>(dicts: seq<map<K, V>>, k: K): nat {
    if |dicts| == 0 then 0
    else
      var n := |dicts| - 1;
      Holding(dicts[..n], k) + if k in dicts[n] then 1 else 0
  }

  /** The merged dictionary the method builds. */
  ghost function Merged<K, V>(dicts: seq<map<K, V>>): map<K, seq<V>> {
    map k | k in KeysOf(dicts) :: Collect(dicts, k)
  }

  /** The inner loop of `merge_dict`: every value of `d` appended to the
      list of its key. */
  method Absorb<K, V>(acc: map<K, seq<V>>, d: map<K, V>) returns (out: map<K, seq<V>>)
    ensures forall k :: k in out <==> k in acc || k in d
    ensures forall k :: k in out ==> out[k] == (if k in acc then acc[k] else []) + if k in d then [d[k]] else []
  {
    out := acc;
    var pending := d.Keys;
    while pending != {}
      invariant pending <= d.Keys
      invariant forall k :: k in out <==> k in acc || k in d.Keys - pending
      invariant forall k :: k in out ==>
                  out[k] == (if k in acc then acc[k] else []) + if k in d.Keys - pending then [d[k]] else []
      decreases pending
    {
      var k :| k in pending;
      out := out[k := (if k in out then out[k] else []) + [d[k]]];
      pending := pending - {k};
    }
  }

  /** `merge_dict`: one pass over the dictionaries, appending each value to
      the list of its key. */
  method Merge<K(!new), V>(dicts: seq<map<K, V>>) returns (out: map<K, seq<V>>)
    ensures forall k :: k in out <==> exists i :: 0 <= i < |dicts| && k in dicts[i]
    ensures forall k :: k in out ==> out[k] == Collect(dicts, k)
    ensures out == Merged(dicts)
  {
    out := map[];
    var i := 0;
    while i < |dicts|
      invariant 0 <= i <= |dicts|
      invariant forall k :: k in out <==> k in KeysOf(dicts[..i])
      invariant forall k :: k in out ==> out[k] == Collect(dicts[..i], k)
    {
      var before := out;
      out := Absorb(out, dicts[i]);
      assert dicts[..i + 1][..i] == dicts[..i];
      assert KeysOf(dicts[..i + 1]) == KeysOf(dicts[..i]) + dicts[i].Keys;
      forall k ensures k in out <==> k in KeysOf(dicts[..i + 1]) {
        assert k in out <==> k in before || k in dicts[i];
      }
      forall k | k in out ensures out[k] == Collect(dicts[..i + 1], k) {
        if k !in before {
          CollectOutside(dicts[..i], k);
        }
      }
      i := i + 1;
    }
    assert dicts[..i] == dicts;
    forall k {
      KeysOfMembership(dicts, k);
    }
  }

  /** A key's list has one value per dictionary that holds it. */
  lemma {:induction false} CollectLength<K, V>(dicts: seq<map<K, V>>, k: K)
    ensures |Collect(dicts, k)| == Holding(dicts, k)
  {
    if |dicts| > 0 {
      CollectLength(dicts[..|dicts| - 1], k);
    }
  }

  /** Merging two lists of dictionaries concatenates the lists of each key. */
  lemma {:induction false} CollectConcat<K, V>(a: seq<map<K, V>>, b: seq<map<K, V>>, k: K)
    ensures Collect(a + b, k) == Collect(a, k) + Collect(b, k)
  {
    if |b| == 0 {
      assert a + b == a;
    } else {
      var n := |b| - 1;
      assert (a + b)[..|a + b| - 1] == a + b[..n];
      CollectConcat(a, b[..n], k);
    }
  }

  /** Every value in a key's list is that key's value in some dictionary. */
  lemma {:induction false} CollectSound<K, V>(dicts: seq<map<K, V>>, k: K, j: int)
    requires 0 <= j < |Collect(dicts, k)|
    ensures exists i :: 0 <= i < |dicts| && k in dicts[i] && dicts[i][k] == Collect(dicts, k)[j]
  {
    var n := |dicts| - 1;
    var prefix := Collect(dicts[..n], k);
    if j < |prefix| {
      CollectSound(dicts[..n], k, j);
      var i :| 0 <= i < n && k in dicts[..n][i] && dicts[..n][i][k] == prefix[j];
      assert dicts[i] == dicts[..n][i];
    } else {
      assert k in dicts[n] && Collect(dicts, k)[j] == dicts[n][k];
    }
  }

  /** The total of `f` over a finite set of keys. */
  ghost function SumOver<K>(s: set<K>, f: K -> nat): nat
    decreases |s|
  {
    if s == {} then 0
    else
      var k :| k in s;
      f(k) + SumOver(s - {k}, f)
  }

  /** Any key may be taken out of the total first. */
  lemma {:induction false} SumOverRemove<K>(s: set<K>, f: K -> nat, k: K)
    requires k in s
    ensures SumOver(s, f) == f(k) + SumOver(s - {k}, f)
    decreases |s|
  {
    var x :| x in s && SumOver(s, f) == f(x) + SumOver(s - {x}, f);
    if x != k {
      SumOverRemove(s - {x}, f, k);
      SumOverRemove(s - {k}, f, x);
      assert s - {x} - {k} == s - {k} - {x};
    }
  }

  /** Raising `f` by one on the keys of `d` raises the total by `|d|`. */
  lemma {:induction false} SumOverAdd<K>(s: set<K>, f: K -> nat, g: K -> nat, d: set<K>)
    requires d <= s
    requires forall k :: k in s ==> g(k) == f(k) + if k in d then 1 else 0
    ensures SumOver(s, g) == SumOver(s, f) + |d|
    decreases |s|
  {
    if s != {} {
      var k :| k in s;
      SumOverRemove(s, f, k);
      SumOverRemove(s, g, k);
      SumOverAdd(s - {k}, f, g, d - {k});
      if k in d {
        assert d == (d - {k}) + {k};
      } else {
        assert d - {k} == d;
      }
    }
  }

  /** Keys where `f` is zero add nothing to the total. */
  lemma {:induction false} SumOverZeroExtend<K>(s: set<K>, t: set<K>, f: K -> nat)
    requires s <= t
    requires forall k :: k in t - s ==> f(k) == 0
    ensures SumOver(t, f) == SumOver(s, f)
    decreases |t|
  {
    if t - s != {} {
      var k :| k in t - s;
      SumOverRemove(t, f, k);
      SumOverZeroExtend(s, t - {k}, f);
    } else {
      assert t == s;
    }
  }

  /** A key no dictionary holds is held zero times. */
  lemma {:induction false} HoldingOutside<K, V>(dicts: seq<map<K, V>>, k: K)
    requires k !in KeysOf(dicts)
    ensures Holding(dicts, k) == 0
  {
    if |dicts| > 0 {
      HoldingOutside(dicts[..|dicts| - 1], k);
    }
  }

  /** The number of entries over all dictionaries. */
  function Sizes<K, V>(dicts: seq<map<K, V>>): nat {
    if |dicts| == 0 then 0 else Sizes(dicts[..|dicts| - 1]) + |dicts[|dicts| - 1]|
  }

  /** Counting, key by key, the dictionaries that hold it counts every entry
      once. */
  lemma {:induction false} HoldingTotal<K, V>(dicts: seq<map<K, V>>)
    ensures SumOver(KeysOf(dicts), k => Holding(dicts, k)) == Sizes(dicts)
  {
    if |dicts| > 0 {
      var n := |dicts| - 1;
      var front := dicts[..n];
      var keys := KeysOf(front);
      var all := KeysOf(dicts);
      var f := k => Holding(front, k);
      var g := k => Holding(dicts, k);
      HoldingTotal(front);
      forall k | k in all - keys ensures f(k) == 0 {
        HoldingOutside(front, k);
      }
      SumOverZeroExtend(keys, all, f);
      SumOverAdd(all, f, g, dicts[n].Keys);
    }
  }

  /** The merged lists hold as many values together as the dictionaries
      hold entries. */
  lemma MergedTotal<K, V>(dicts: seq<map<K, V>>)
    ensures SumOver(Merged(dicts).Keys, k => if k in Merged(dicts) then |Merged(dicts)[k]| else 0) == Sizes(dicts)
  {
    var m := Merged(dicts);
    assert m.Keys == KeysOf(dicts);
    forall k | k in m ensures |m[k]| == Holding(dicts, k) {
      CollectLength(dicts, k);
    }
    SumOverAgree(m.Keys, k => if k in m then |m[k]| else 0, k => Holding(dicts, k));
    HoldingTotal(dicts);
  }

  /** Functions that agree on the keys have the same total. */
  lemma {:induction false} SumOverAgree<K>(s: set<K>, f: K -> nat, g: K -> nat)
    requires forall k :: k in s ==> f(k) == g(k)
    ensures SumOver(s, f) == SumOver(s, g)
    decreases |s|
  {
    if s != {} {
      var k :| k in s;
      SumOverRemove(s, f, k);
      SumOverRemove(s, g, k);
      SumOverAgree(s - {k}, f, g);
    }
  }
}
