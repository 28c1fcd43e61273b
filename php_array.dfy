/** PHP arrays used as dictionaries: an ordered list of key/value entries.
    Assigning to an existing key replaces its value in place; assigning to a
    new key appends it, so iteration follows first-insertion order. */
module PhpArray {

  datatype Option<T> = None | Some(value: T)

  datatype Entry<K, V> = Entry(key: K, val: V)

  type Arr<K, V> = seq<Entry<K, V>>

  function Keys<K, V>(a: Arr<K, V>): (ks: seq<K>)
    ensures |ks| == |a|
    ensures forall i :: 0 <= i < |a| ==> ks[i] == a[i].key
  {
    seq(|a|, i requires 0 <= i < |a| => a[i].key)
  }

  function Values<K, V>(a: Arr<K, V>): (vs: seq<V>)
    ensures |vs| == |a|
    ensures forall i :: 0 <= i < |a| ==> vs[i] == a[i].val
  {
    seq(|a|, i requires 0 <= i < |a| => a[i].val)
  }

  ghost predicate DistinctKeys<K, V>(a: Arr<K, V>) {
    forall i, j :: 0 <= i < j < |a| ==> a[i].key != a[j].key
  }

  /** `a[k] ?? d` */
  function Get<K(==), V>(a: Arr<K, V>, k: K, d: V): V {
    if a == [] then d
    else if a[0].key == k then a[0].val
    else Get(a[1..], k, d)
  }

  /** `a[k] = v` */
  function Set<K(==), V>(a: Arr<K, V>, k: K, v: V): Arr<K, V> {
    if a == [] then [Entry(k, v)]
    else if a[0].key == k then [Entry(k, v)] + a[1..]
    else [a[0]] + Set(a[1..], k, v)
  }

  /** `isset($a[k])` (for values that are never null) */
  predicate HasKey<K(==), V>(a: Arr<K, V>, k: K) {
    k in Keys(a)
  }

  lemma {:induction false} GetMissing<K, V>(a: Arr<K, V>, k: K, d: V)
    requires !HasKey(a, k)
    ensures Get(a, k, d) == d
  {
    if a != [] {
      assert a[0].key == Keys(a)[0];
      assert Keys(a[1..]) == Keys(a)[1..];
      GetMissing(a[1..], k, d);
    }
  }

  /** The default only matters for a missing key. */
  lemma {:induction false} GetAnyDefault<K, V>(a: Arr<K, V>, k: K, d: V, d': V)
    requires HasKey(a, k)
    ensures Get(a, k, d) == Get(a, k, d')
  {
    if a[0].key != k {
      assert Keys(a[1..]) == Keys(a)[1..];
      GetAnyDefault(a[1..], k, d, d');
    }
  }

  /** In an array without repeated keys, looking up the key of entry i gives entry i's value. */
  lemma {:induction false} GetAt<K, V>(a: Arr<K, V>, i: nat, d: V)
    requires DistinctKeys(a) && i < |a|
    ensures Get(a, a[i].key, d) == a[i].val
  {
    if i > 0 {
      assert a[0].key != a[i].key;
      assert DistinctKeys(a[1..]) by {
        forall p, q | 0 <= p < q < |a[1..]| ensures a[1..][p].key != a[1..][q].key {
          assert a[1..][p] == a[p + 1] && a[1..][q] == a[q + 1];
        }
      }
      GetAt(a[1..], i - 1, d);
    }
  }

  lemma {:induction false} GetSet<K, V>(a: Arr<K, V>, k: K, v: V, k': K, d: V)
    ensures Get(Set(a, k, v), k', d) == if k' == k then v else Get(a, k', d)
  {
    if a != [] && a[0].key != k {
      GetSet(a[1..], k, v, k', d);
    }
  }

  lemma {:induction false} KeysSet<K, V>(a: Arr<K, V>, k: K, v: V)
    ensures Keys(Set(a, k, v)) == if HasKey(a, k) then Keys(a) else Keys(a) + [k]
  {
    if a == [] {
    } else if a[0].key == k {
      assert Keys(Set(a, k, v)) == Keys(a);
    } else {
      KeysSet(a[1..], k, v);
      assert Keys(a) == [a[0].key] + Keys(a[1..]);
      assert Keys(Set(a, k, v)) == [a[0].key] + Keys(Set(a[1..], k, v));
      assert HasKey(a, k) == HasKey(a[1..], k);
    }
  }

  /** Setting k adds k to the keys and no other key. */
  lemma {:induction false} HasKeySet<K, V>(a: Arr<K, V>, k: K, v: V, k': K)
    ensures HasKey(Set(a, k, v), k') <==> HasKey(a, k') || k' == k
  {
    KeysSet(a, k, v);
  }

  lemma DistinctSet<K, V>(a: Arr<K, V>, k: K, v: V)
    requires DistinctKeys(a)
    ensures DistinctKeys(Set(a, k, v))
  {
    var r := Set(a, k, v);
    KeysSet(a, k, v);
    forall i, j | 0 <= i < j < |r| ensures r[i].key != r[j].key {
      assert Keys(r)[i] == r[i].key && Keys(r)[j] == r[j].key;
      if HasKey(a, k) {
        assert Keys(a)[i] == a[i].key && Keys(a)[j] == a[j].key;
      } else if j < |a| {
        assert Keys(a)[i] == a[i].key && Keys(a)[j] == a[j].key;
      } else {
        assert Keys(a)[i] == a[i].key;
      }
    }
  }

  /** Every entry after an assignment was there before or is the assigned one. */
  lemma {:induction false} SetEntries<K, V>(a: Arr<K, V>, k: K, v: V)
    ensures forall e :: e in Set(a, k, v) ==> e in a || e == Entry(k, v)
  {
    if a != [] && a[0].key != k {
      SetEntries(a[1..], k, v);
    }
  }

  /** A lookup reads the default or the value of an entry with that key. */
  lemma {:induction false} GetEntry<K, V>(a: Arr<K, V>, k: K, d: V)
    ensures Get(a, k, d) == d || Entry(k, Get(a, k, d)) in a
  {
    if a != [] && a[0].key != k {
      GetEntry(a[1..], k, d);
    }
  }

  /** A lookup of a present key reads the value of an entry with that key. */
  lemma {:induction false} GetPresent<K, V>(a: Arr<K, V>, k: K, d: V)
    requires HasKey(a, k)
    ensures Entry(k, Get(a, k, d)) in a
  {
    if a[0].key != k {
      assert Keys(a[1..]) == Keys(a)[1..];
      GetPresent(a[1..], k, d);
    }
  }

  /** In an array without repeated keys, assigning to the key of entry i replaces entry i. */
  lemma {:induction false} SetAt<K, V>(a: Arr<K, V>, i: nat, v: V)
    requires DistinctKeys(a) && i < |a|
    ensures Set(a, a[i].key, v) == a[i := Entry(a[i].key, v)]
  {
    if i > 0 {
      assert a[0].key != a[i].key;
      assert DistinctKeys(a[1..]) by {
        forall p, q | 0 <= p < q < |a[1..]| ensures a[1..][p].key != a[1..][q].key {
          assert a[1..][p] == a[p + 1] && a[1..][q] == a[q + 1];
        }
      }
      SetAt(a[1..], i - 1, v);
      assert a[1..][i - 1] == a[i];
      assert a[i := Entry(a[i].key, v)] == [a[0]] + a[1..][i - 1 := Entry(a[i].key, v)];
    }
  }

  /** Assigning to a new key appends an entry. */
  lemma {:induction false} SetAppends<K, V>(a: Arr<K, V>, k: K, v: V)
    requires !HasKey(a, k)
    ensures Set(a, k, v) == a + [Entry(k, v)]
  {
    if a != [] {
      assert Keys(a[1..]) == Keys(a)[1..];
      assert a[0].key == Keys(a)[0];
      SetAppends(a[1..], k, v);
      assert a == [a[0]] + a[1..];
    }
  }

  lemma KeysPrefix<K, V>(a: Arr<K, V>, j: nat)
    requires j < |a|
    ensures Keys(a[..j + 1]) == Keys(a[..j]) + [a[j].key]
  {
  }

  /** One more element of a prefix. */
  lemma PrefixStep<T>(s: seq<T>, i: nat)
    requires i < |s|
    ensures s[..i + 1] == s[..i] + [s[i]]
  {
  }

  /** Entries written for the first i keys of a, in order, do not hold key i. */
  lemma FreshKey<K, V, W>(a: Arr<K, V>, es: Arr<K, W>, i: nat)
    requires DistinctKeys(a) && i < |a| && |es| == i
    requires forall k :: 0 <= k < i ==> es[k].key == a[k].key
    ensures !HasKey(es, a[i].key)
  {
  }
}
