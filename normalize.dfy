/** The max-normalisation every signal stage ends with
    (`$max = max($scores ?: [1]); foreach (...) $scores[$k] = $max > 0 ? $v / $max : 0.0;`). */
module Normalize {
  import opened PhpArray

  /** PHP `max()` of a non-empty list. */
  function MaxOf(vs: seq<real>): (m: real)
    requires |vs| > 0
    ensures forall i :: 0 <= i < |vs| ==> vs[i] <= m
    ensures exists i :: 0 <= i < |vs| && vs[i] == m
  {
    if |vs| == 1 then vs[0]
    else
      var m' := MaxOf(vs[1..]);
      assert forall i :: 1 <= i < |vs| ==> vs[i] == vs[1..][i - 1];
      if vs[0] >= m' then vs[0] else m'
  }

  /** `max($values ?: [1])`: the largest value, or 1 for an empty array. */
  function MaxOr1(vs: seq<real>): (m: real)
    ensures vs == [] ==> m == 1.0
    ensures vs != [] ==> (forall i :: 0 <= i < |vs| ==> vs[i] <= m) && (exists i :: 0 <= i < |vs| && vs[i] == m)
  {
    if vs == [] then 1.0 else MaxOf(vs)
  }

  /** `$max > 0 ? ($v / $max) : 0.0` */
  function Scale(v: real, m: real): real {
    if m > 0.0 then v / m else 0.0
  }

  /** Every value scaled against the same maximum; keys and order unchanged. */
  function ScaledBy<K>(a: Arr<K, real>, m: real): Arr<K, real> {
    seq(|a|, i requires 0 <= i < |a| => Entry(a[i].key, Scale(a[i].val, m)))
  }

  /** The array after the in-place normalisation loop. */
  function Normalized<K>(a: Arr<K, real>): Arr<K, real> {
    ScaledBy(a, MaxOr1(Values(a)))
  }

  ghost predicate NonNegative<K>(a: Arr<K, real>) {
    forall i :: 0 <= i < |a| ==> a[i].val >= 0.0
  }

  ghost predicate InUnit<K>(a: Arr<K, real>) {
    forall i :: 0 <= i < |a| ==> 0.0 <= a[i].val <= 1.0
  }

  /** The normalisation loop, rewriting each value where it stands. */
  method NormalizeByMax<K>(a: Arr<K, real>) returns (r: Arr<K, real>)
    ensures r == Normalized(a)
  {
    var m := MaxOr1(Values(a));
    r := a;
    var i := 0;
    while i < |r|
      invariant |r| == |a| && 0 <= i <= |a|
      invariant forall j :: 0 <= j < i ==> r[j] == Entry(a[j].key, Scale(a[j].val, m))
      invariant forall j :: i <= j < |a| ==> r[j] == a[j]
    {
      r := r[i := Entry(r[i].key, Scale(r[i].val, m))];
      i := i + 1;
    }
  }

  /** Normalisation keeps the keys and their order. */
  lemma NormalizedKeys<K>(a: Arr<K, real>)
    ensures Keys(Normalized(a)) == Keys(a)
  {
  }

  lemma ScaleBounds(v: real, m: real)
    requires 0.0 <= v <= m
    ensures 0.0 <= Scale(v, m) <= 1.0 && Scale(v, m) * m == v
    ensures v == m && m > 0.0 ==> Scale(v, m) == 1.0
  {
    if m > 0.0 {
      var q := v / m;
      assert q * m == v;
      if q > 1.0 {
        assert q * m > 1.0 * m;
      }
    }
  }

  /** Non-negative raw values end up in [0,1]. */
  lemma NormalizedBounds<K>(a: Arr<K, real>)
    requires NonNegative(a)
    ensures InUnit(Normalized(a))
  {
    var m := MaxOr1(Values(a));
    forall i | 0 <= i < |a|
      ensures 0.0 <= Normalized(a)[i].val <= 1.0
    {
      var v := a[i].val;
      assert Values(a)[i] == v;
      assert v <= m;
      assert Normalized(a)[i].val == Scale(v, m);
      ScaleBounds(v, m);
    }
  }

  /** When some raw value is positive, the largest normalised value is exactly 1. */
  lemma NormalizedReachesOne<K>(a: Arr<K, real>, i: nat)
    requires i < |a| && a[i].val > 0.0
    ensures exists j :: 0 <= j < |a| && Normalized(a)[j].val == 1.0
  {
    var m := MaxOr1(Values(a));
    assert Values(a)[i] == a[i].val;
    var j :| 0 <= j < |a| && Values(a)[j] == m;
    assert a[j].val == m && m > 0.0;
    ScaleBounds(m, m);
    assert Normalized(a)[j].val == Scale(m, m);
  }

  /** When no raw value is positive, every normalised value is 0. */
  lemma NormalizedAllZero<K>(a: Arr<K, real>)
    requires forall i :: 0 <= i < |a| ==> a[i].val <= 0.0
    ensures forall i :: 0 <= i < |a| ==> Normalized(a)[i].val == 0.0
  {
    var m := MaxOr1(Values(a));
    if a != [] {
      var j :| 0 <= j < |a| && Values(a)[j] == m;
      assert m <= 0.0;
    }
  }

  /** Looking up a key in a scaled array scales the raw value (a missing key still reads 0). */
  lemma {:induction false} GetScaled<K>(a: Arr<K, real>, k: K, m: real)
    ensures Get(ScaledBy(a, m), k, 0.0) == Scale(Get(a, k, 0.0), m)
  {
    if a != [] {
      assert ScaledBy(a, m)[1..] == ScaledBy(a[1..], m);
      if a[0].key != k {
        GetScaled(a[1..], k, m);
      }
    }
  }

  /** `$a[$k] ?? 0` lies in [0,1] when every value of a does. */
  lemma GetInUnit<K>(a: Arr<K, real>, k: K)
    requires InUnit(a)
    ensures 0.0 <= Get(a, k, 0.0) <= 1.0
  {
    GetEntry(a, k, 0.0);
    if Get(a, k, 0.0) != 0.0 {
      var i :| 0 <= i < |a| && a[i] == Entry(k, Get(a, k, 0.0));
    }
  }
}
