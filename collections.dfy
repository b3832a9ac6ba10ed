/**
 * Python's insertion-ordered dictionary (`OrderedDict`, and `dict` since
 * Python 3.7) as a value: the keys in first-insertion order plus the map.
 * Assigning to an existing key keeps its position; a new key goes last;
 * deleting a key drops it from the order.
 */
module Collections {

  /** `keys` without `k`, the other keys in their order. */
  function Without<K(==,!new)>(keys: seq<K>, k: K): (r: seq<K>)
    ensures forall x :: x in r <==> x in keys && x != k
    ensures k !in keys ==> r == keys
    ensures |r| <= |keys|
  {
    if keys == [] then []
    else (if keys[0] == k then [] else [keys[0]]) + Without(keys[1..], k)
  }

  ghost predicate Distinct<K>(keys: seq<K>)
  {
    forall i, j :: 0 <= i < j < |keys| ==> keys[i] != keys[j]
  }

  lemma {:induction false} WithoutDistinct<K(!new)>(keys: seq<K>, k: K)
    requires Distinct(keys)
    ensures Distinct(Without(keys, k))
    ensures k in keys ==> |Without(keys, k)| == |keys| - 1
  {
    if keys != [] {
      WithoutDistinct(keys[1..], k);
      assert keys[0] !in keys[1..];
      if k in keys && keys[0] != k {
        assert k in keys[1..];
      }
    }
  }

  datatype ODict<K(==,!new), V> = ODict(keys: seq<K>, m: map<K, V>)
  {
    ghost predicate Valid()
    {
      Distinct(keys) && forall k :: k in m <==> k in keys
    }

    /** Number of entries. */
    function Len(): nat
    {
      |keys|
    }

    /** `d[k] = v`. */
    function Put(k: K, v: V): (r: ODict<K, V>)
      requires Valid()
      ensures r.Valid()
      ensures r.m == m[k := v]
      ensures r.keys == if k in m then keys else keys + [k]
    {
      if k in m then ODict(keys, m[k := v]) else ODict(keys + [k], m[k := v])
    }

    /** `del d[k]` for a present key, nothing for a missing one. */
    function Remove(k: K): (r: ODict<K, V>)
      requires Valid()
      ensures r.Valid()
      ensures r.m == m - {k}
      ensures r.keys == Without(keys, k)
      ensures r.Len() == if k in m then Len() - 1 else Len()
    {
      WithoutDistinct(keys, k);
      ODict(Without(keys, k), m - {k})
    }

    /** `d.values()`, in key order. */
    function Values(): (r: seq<V>)
      requires Valid()
      ensures |r| == |keys|
      ensures forall i :: 0 <= i < |keys| ==> r[i] == m[keys[i]]
    {
      seq(|keys|, i requires 0 <= i < |keys| && Valid() => m[keys[i]])
    }
  }

  /** Assigning to an existing key replaces its value in place. */
  lemma PutExistingValues<K(!new), V>(d: ODict<K, V>, i: nat, v: V)
    requires d.Valid() && i < |d.keys|
    ensures d.Put(d.keys[i], v).Values() == d.Values()[i := v]
  {
  }

  /** The value of a new key goes last. */
  lemma PutNewValues<K(!new), V>(d: ODict<K, V>, k: K, v: V)
    requires d.Valid() && k !in d.m
    ensures d.Put(k, v).Values() == d.Values() + [v]
  {
  }

  /** A sequence without repetitions has as many distinct elements as it is long. */
  lemma {:induction false} DistinctCard<K>(keys: seq<K>)
    requires Distinct(keys)
    ensures |set k | k in keys| == |keys|
  {
    if keys != [] {
      DistinctCard(keys[1..]);
      assert (set k | k in keys) == {keys[0]} + (set k | k in keys[1..]);
      assert keys[0] !in (set k | k in keys[1..]);
    }
  }

  /** `len(d)` is the number of keys of the map. */
  lemma LenIsCard<K(!new), V>(d: ODict<K, V>)
    ensures d.Valid() ==> d.Len() == |d.m|
  {
    if d.Valid() {
      DistinctCard(d.keys);
      assert d.m.Keys == set k | k in d.keys;
    }
  }

  function Empty<K(==,!new), V>(): (r: ODict<K, V>)
    ensures r.Valid() && r.Len() == 0
  {
    ODict([], map[])
  }

  lemma AppendAssoc<T>(a: seq<T>, b: seq<T>, c: seq<T>)
    ensures a + (b + c) == (a + b) + c
  {
  }

  /** The first `i + 1` elements are the first `i` and the element at `i`. */
  lemma TakeNext<T>(s: seq<T>, i: nat)
    requires i < |s|
    ensures s[..i + 1] == s[..i] + [s[i]]
  {
  }

  /** The elements from `i` on are the element at `i` and those from `i + 1` on. */
  lemma DropNext<T>(s: seq<T>, i: nat)
    requires i < |s|
    ensures s[i..] != [] && s[i..][0] == s[i] && s[i..][1..] == s[i + 1..]
  {
  }

  /** Concatenation of a sequence of sequences. */
  function Flatten<T>(ss: seq<seq<T>>): seq<T>
  {
    if ss == [] then [] else ss[0] + Flatten(ss[1..])
  }

  lemma {:induction false} FlattenAppend<T>(ss: seq<seq<T>>, s: seq<T>)
    ensures Flatten(ss + [s]) == Flatten(ss) + s
  {
    if ss != [] {
      assert (ss + [s])[1..] == ss[1..] + [s];
      FlattenAppend(ss[1..], s);
    }
  }

  /** Flattening distributes over concatenation. */
  lemma {:induction false} FlattenConcat<T>(a: seq<seq<T>>, b: seq<seq<T>>)
    ensures Flatten(a + b) == Flatten(a) + Flatten(b)
  {
    if a == [] {
      assert a + b == b;
    } else {
      assert (a + b)[1..] == a[1..] + b;
      FlattenConcat(a[1..], b);
      AppendAssoc(a[0], Flatten(a[1..]), Flatten(b));
    }
  }

  /** An element is in the flattening exactly when some inner sequence holds it. */
  lemma {:induction false} FlattenMember<T>(ss: seq<seq<T>>)
    ensures forall j :: 0 <= j < |Flatten(ss)| ==> exists i :: 0 <= i < |ss| && Flatten(ss)[j] in ss[i]
    ensures forall i, j :: 0 <= i < |ss| && 0 <= j < |ss[i]| ==> ss[i][j] in Flatten(ss)
  {
    if ss != [] {
      FlattenMember(ss[1..]);
      var f, rest := Flatten(ss), Flatten(ss[1..]);
      assert f == ss[0] + rest;
      forall j | 0 <= j < |f|
        ensures exists i :: 0 <= i < |ss| && f[j] in ss[i]
      {
        if j < |ss[0]| {
          assert f[j] in ss[0];
        } else {
          assert f[j] == rest[j - |ss[0]|];
          var i :| 0 <= i < |ss[1..]| && rest[j - |ss[0]|] in ss[1..][i];
          assert f[j] in ss[i + 1];
        }
      }
      forall i, j | 0 <= i < |ss| && 0 <= j < |ss[i]|
        ensures ss[i][j] in f
      {
        if i > 0 {
          assert ss[i] == ss[1..][i - 1];
        }
      }
    } else {
      assert Flatten(ss) == [];
    }
  }
}
