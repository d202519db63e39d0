/**
 * The order in which `Object.values` lists the entries of an object whose
 * keys are integers: ascending by key (OrdinaryOwnPropertyKeys, section
 * 10.1.11.1 of ECMA-262), not by insertion.
 */
module KeyOrder {

  predicate StrictlyIncreasing(s: seq<int>) {
    forall i, j :: 0 <= i < j < |s| ==> s[i] < s[j]
  }

  lemma HasElement(ks: set<int>)
    requires ks != {}
    ensures exists x :: x in ks
  {
    if forall y :: y !in ks {
      assert false;
    }
  }

  lemma {:induction false} LeastElement(ks: set<int>) returns (m: int)
    requires ks != {}
    ensures m in ks && forall j :: j in ks ==> m <= j
    decreases |ks|
  {
    HasElement(ks);
    var x :| x in ks;
    var rest := ks - {x};
    if rest == {} {
      m := x;
      forall j | j in ks ensures m <= j {
        assert j in rest || j == x;
      }
    } else {
      var r := LeastElement(rest);
      m := if x < r then x else r;
      forall j | j in ks ensures m <= j {
        if j != x { assert j in rest; }
      }
    }
  }

  lemma MinExists(ks: set<int>)
    requires ks != {}
    ensures exists m :: m in ks && forall j :: j in ks ==> m <= j
  {
    var m := LeastElement(ks);
  }

  /** The smallest key of a non-empty key set. */
  function Min(ks: set<int>): (m: int)
    requires ks != {}
    ensures m in ks
    ensures forall j :: j in ks ==> m <= j
  {
    MinExists(ks);
    var m :| m in ks && forall j :: j in ks ==> m <= j;
    m
  }

  /** The keys of a key set, smallest first. */
  function SortedKeys(ks: set<int>): (r: seq<int>)
    ensures StrictlyIncreasing(r)
    ensures forall i :: 0 <= i < |r| ==> r[i] in ks
    ensures forall k :: k in r <==> k in ks
    ensures |r| == |ks|
    decreases |ks|
  {
    if ks == {} then []
    else
      var m := Min(ks);
      var rest := SortedKeys(ks - {m});
      assert forall i :: 0 <= i < |rest| ==> m < rest[i];
      [m] + rest
  }

  /** The entries stored under `keys`, in the order of `keys`. */
  function Lookup<V>(m: map<int, V>, keys: seq<int>): (r: seq<V>)
    requires forall i :: 0 <= i < |keys| ==> keys[i] in m
    ensures |r| == |keys|
    ensures forall i :: 0 <= i < |keys| ==> r[i] == m[keys[i]]
  {
    if keys == [] then [] else [m[keys[0]]] + Lookup(m, keys[1..])
  }

  /** Two maps that agree on `keys` give the same lookup. */
  lemma LookupAgree<V>(m1: map<int, V>, m2: map<int, V>, keys: seq<int>)
    requires forall i :: 0 <= i < |keys| ==> keys[i] in m1 && keys[i] in m2 && m1[keys[i]] == m2[keys[i]]
    ensures Lookup(m1, keys) == Lookup(m2, keys)
  {
    var l := Lookup(m1, keys);
    var r := Lookup(m2, keys);
    assert |l| == |r|;
    forall i | 0 <= i < |l| ensures l[i] == r[i] {
    }
  }

  lemma LookupAppend<V>(m: map<int, V>, keys: seq<int>, k: int)
    requires forall i :: 0 <= i < |keys| ==> keys[i] in m
    requires k in m
    ensures Lookup(m, keys + [k]) == Lookup(m, keys) + [m[k]]
  {
    var l := Lookup(m, keys + [k]);
    var r := Lookup(m, keys) + [m[k]];
    assert |l| == |r|;
    forall i | 0 <= i < |l| ensures l[i] == r[i] {
      assert (keys + [k])[i] == if i < |keys| then keys[i] else k;
    }
  }

  /**
   * `Object.values(m)` for an object whose own keys are the integers of
   * `m.Keys`: the entry under the smallest key first, then the rest.
   */
  function ObjectValues<V>(m: map<int, V>): (r: seq<V>)
    ensures |r| == |m|
    decreases |m|
  {
    if |m| == 0 then []
    else
      var k := Min(m.Keys);
      assert |(m - {k}).Keys| == |m.Keys - {k}|;
      [m[k]] + ObjectValues(m - {k})
  }

  /** `Object.values` lists the stored entries by ascending key. */
  lemma {:induction false} ObjectValuesByKey<V>(m: map<int, V>)
    ensures ObjectValues(m) == Lookup(m, SortedKeys(m.Keys))
    decreases |m|
  {
    if |m| != 0 {
      var k := Min(m.Keys);
      var m' := m - {k};
      assert m'.Keys == m.Keys - {k};
      ObjectValuesByKey(m');
      var rest := SortedKeys(m'.Keys);
      var ks := SortedKeys(m.Keys);
      assert ks == [k] + rest;
      assert ks[1..] == rest;
      assert Lookup(m, ks) == [m[k]] + Lookup(m, rest);
      LookupAgree(m - {k}, m, rest);
    }
  }

  /** Every stored entry is listed, and nothing else is. */
  lemma ObjectValuesMembers<V>(m: map<int, V>)
    ensures forall k :: k in m ==> m[k] in ObjectValues(m)
    ensures forall v :: v in ObjectValues(m) ==> exists k :: k in m && m[k] == v
  {
    ObjectValuesByKey(m);
    var ks := SortedKeys(m.Keys);
    var r := ObjectValues(m);
    forall k | k in m ensures m[k] in r {
      var i :| 0 <= i < |ks| && ks[i] == k;
      assert r[i] == m[k];
    }
    forall v | v in r ensures exists k :: k in m && m[k] == v {
      var i :| 0 <= i < |r| && r[i] == v;
      assert ks[i] in m && m[ks[i]] == v;
    }
  }

  lemma IndexIn(s: seq<int>, i: nat)
    requires i < |s|
    ensures s[i] in s
  {
  }

  /** A strictly increasing sequence is determined by its set of elements. */
  lemma {:induction false} SortedUnique(a: seq<int>, b: seq<int>)
    requires StrictlyIncreasing(a) && StrictlyIncreasing(b)
    requires forall x :: x in a <==> x in b
    ensures a == b
    decreases |a|
  {
    if a == [] {
      if b != [] {
        IndexIn(b, 0);
        assert false;
      }
    } else {
      var a0 := a[0];
      assert a0 in a;
      assert a0 in b;
      var b0 := b[0];
      assert b0 in b;
      assert b0 in a;
      assert a0 == b0;
      forall x
        ensures x in a[1..] <==> x in b[1..]
      {
        if x in a[1..] {
          assert x in b;
          assert x != b[0];
        }
        if x in b[1..] {
          assert x in a;
          assert x != a[0];
        }
      }
      SortedUnique(a[1..], b[1..]);
      assert a == [a[0]] + a[1..];
      assert b == [b[0]] + b[1..];
    }
  }

  /** Listing the keys of an already ascending sequence gives that sequence back. */
  lemma SortedKeysOfSorted(s: seq<int>)
    requires StrictlyIncreasing(s)
    ensures SortedKeys(set k | k in s) == s
  {
    SortedUnique(SortedKeys(set k | k in s), s);
  }

  /**
   * Storing under a key larger than every existing key puts the value last:
   * only then does `Object.values` agree with insertion order.
   */
  lemma IncreasingAppend(s: seq<int>, k: int)
    requires StrictlyIncreasing(s)
    requires forall x :: x in s ==> x < k
    ensures StrictlyIncreasing(s + [k])
  {
    var s' := s + [k];
    forall i, j | 0 <= i < j < |s'| ensures s'[i] < s'[j] {
      assert s'[i] == s[i];
      if j == |s| {
        assert s[i] in s;
      }
    }
  }

  lemma KeysAppend(ks: set<int>, k: int)
    requires forall j :: j in ks ==> j < k
    ensures SortedKeys(ks + {k}) == SortedKeys(ks) + [k]
  {
    var s := SortedKeys(ks);
    var s' := s + [k];
    IncreasingAppend(s, k);
    assert (set j | j in s') == ks + {k} by {
      forall x ensures x in s' <==> x in ks + {k} {
        assert x in s' <==> x in s || x == k;
      }
    }
    SortedKeysOfSorted(s');
  }

  lemma ObjectValuesAppend<V>(m: map<int, V>, k: int, v: V)
    requires forall j :: j in m ==> j < k
    ensures ObjectValues(m[k := v]) == ObjectValues(m) + [v]
  {
    var m' := m[k := v];
    assert m'.Keys == m.Keys + {k};
    KeysAppend(m.Keys, k);
    ObjectValuesByKey(m);
    ObjectValuesByKey(m');
    var ks := SortedKeys(m.Keys);
    LookupAppend(m', ks, k);
    LookupAgree(m', m, ks);
  }

  /** Values listed by `Object.values` appear in ascending key order. */
  lemma ObjectValuesOrdered<V>(m: map<int, V>, i: int, j: int)
    requires 0 <= i < j < |m|
    ensures var ks := SortedKeys(m.Keys);
      ks[i] < ks[j] && ks[i] in m && ks[j] in m &&
      ObjectValues(m)[i] == m[ks[i]] && ObjectValues(m)[j] == m[ks[j]]
  {
    ObjectValuesByKey(m);
  }
}
