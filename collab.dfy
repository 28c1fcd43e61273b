/** Item-to-item collaborative similarity (`computeItemCollabSimilarity`): each
    catalog product gets a 0/1 presence vector over the transactions, its
    similarity to every other product is the cosine of the two vectors, and
    its score is the mean of its five highest similarities, max-normalised. */
module Collab {
  import opened PhpArray
  import opened Rows
  import opened Cosine
  import opened Sorting
  import opened Normalize

  /** Coordinate t is 1 when product pid occurs in transaction t. */
  function PresenceRow(pid: int, txs: seq<seq<int>>): (row: seq<real>)
    ensures |row| == |txs|
  {
    seq(|txs|, t requires 0 <= t < |txs| => if pid in txs[t] then 1.0 else 0.0)
  }

  /** `$vectors`: one presence vector per catalog product, in catalog order. */
  function PresenceVectors(catalog: seq<Product>, txs: seq<seq<int>>): (vs: Arr<int, seq<real>>)
    ensures |vs| == |catalog|
  {
    seq(|catalog|, i requires 0 <= i < |catalog| => Entry(catalog[i].id, PresenceRow(catalog[i].id, txs)))
  }

  /** The vectors after the first t transactions and the first items `done` of transaction t. */
  function PartialRow(pid: int, txs: seq<seq<int>>, t: nat, done: seq<int>): (row: seq<real>)
    ensures |row| == |txs|
  {
    seq(|txs|, u requires 0 <= u < |txs| => if (u < t && pid in txs[u]) || (u == t && pid in done) then 1.0 else 0.0)
  }

  function PartialVectors(catalog: seq<Product>, txs: seq<seq<int>>, t: nat, done: seq<int>): (vs: Arr<int, seq<real>>)
    ensures |vs| == |catalog|
  {
    seq(|catalog|, i requires 0 <= i < |catalog| => Entry(catalog[i].id, PartialRow(catalog[i].id, txs, t, done)))
  }

  lemma IdsAreKeys<V>(catalog: seq<Product>, vs: Arr<int, V>)
    requires |vs| == |catalog| && forall i :: 0 <= i < |vs| ==> vs[i].key == catalog[i].id
    ensures Keys(vs) == CatalogIds(catalog)
    ensures DistinctIds(catalog) ==> DistinctKeys(vs)
  {
  }

  lemma RowStart(pid: int, txs: seq<seq<int>>)
    ensures PartialRow(pid, txs, 0, []) == seq(|txs|, _ => 0.0)
  {
  }

  /** Marking coordinate t of pid's row records pid as seen in transaction t. */
  lemma RowMark(pid: int, txs: seq<seq<int>>, t: nat, done: seq<int>)
    requires t < |txs|
    ensures PartialRow(pid, txs, t, done)[t := 1.0] == PartialRow(pid, txs, t, done + [pid])
  {
  }

  lemma RowOther(q: int, pid: int, txs: seq<seq<int>>, t: nat, done: seq<int>)
    requires q != pid
    ensures PartialRow(q, txs, t, done + [pid]) == PartialRow(q, txs, t, done)
  {
  }

  lemma RowNext(pid: int, txs: seq<seq<int>>, t: nat)
    requires t < |txs|
    ensures PartialRow(pid, txs, t, txs[t]) == PartialRow(pid, txs, t + 1, [])
  {
  }

  lemma RowEnd(pid: int, txs: seq<seq<int>>)
    ensures PartialRow(pid, txs, |txs|, []) == PresenceRow(pid, txs)
  {
  }

  /** The first loop: a zero vector per catalog product. */
  method InitVectors(catalog: seq<Product>, n: nat) returns (vectors: Arr<int, seq<real>>)
    requires DistinctIds(catalog)
    ensures |vectors| == |catalog|
    ensures forall j :: 0 <= j < |catalog| ==> vectors[j] == Entry(catalog[j].id, seq(n, _ => 0.0))
  {
    vectors := [];
    for i := 0 to |catalog|
      invariant |vectors| == i
      invariant forall j :: 0 <= j < i ==> vectors[j] == Entry(catalog[j].id, seq(n, _ => 0.0))
    {
      assert Keys(vectors) == CatalogIds(catalog[..i]);
      SetAppends(vectors, catalog[i].id, seq(n, _ => 0.0));
      vectors := Set(vectors, catalog[i].id, seq(n, _ => 0.0));
    }
  }

  /** The second loop over one transaction: set coordinate t of every catalog product it holds. */
  method MarkTransaction(catalog: seq<Product>, txs: seq<seq<int>>, t: nat, v: Arr<int, seq<real>>)
    returns (vectors: Arr<int, seq<real>>)
    requires DistinctIds(catalog) && t < |txs|
    requires v == PartialVectors(catalog, txs, t, [])
    ensures vectors == PartialVectors(catalog, txs, t + 1, [])
  {
    vectors := v;
    var tx := txs[t];
    for k := 0 to |tx|
      invariant vectors == PartialVectors(catalog, txs, t, tx[..k])
    {
      var pid := tx[k];
      assert tx[..k + 1] == tx[..k] + [pid];
      IdsAreKeys(catalog, vectors);
      if HasKey(vectors, pid) {
        var i :| 0 <= i < |vectors| && Keys(vectors)[i] == pid;
        GetAt(vectors, i, []);
        var row := Get(vectors, pid, []);
        RowMark(pid, txs, t, tx[..k]);
        SetAt(vectors, i, row[t := 1.0]);
        vectors := Set(vectors, pid, row[t := 1.0]);
        forall j | 0 <= j < |catalog| && j != i
          ensures vectors[j] == PartialVectors(catalog, txs, t, tx[..k + 1])[j]
        {
          assert catalog[j].id != pid;
          RowOther(catalog[j].id, pid, txs, t, tx[..k]);
        }
      } else {
        forall j | 0 <= j < |catalog|
          ensures PartialVectors(catalog, txs, t, tx[..k])[j] == PartialVectors(catalog, txs, t, tx[..k + 1])[j]
        {
          assert Keys(vectors)[j] == catalog[j].id;
          RowOther(catalog[j].id, pid, txs, t, tx[..k]);
        }
      }
    }
    assert tx[..|tx|] == tx;
    forall j | 0 <= j < |catalog|
      ensures PartialVectors(catalog, txs, t, tx)[j] == PartialVectors(catalog, txs, t + 1, [])[j]
    {
      RowNext(catalog[j].id, txs, t);
    }
  }

  /** The two loops filling the presence vectors; ids outside the catalog are skipped. */
  method BuildVectors(catalog: seq<Product>, txs: seq<seq<int>>) returns (vectors: Arr<int, seq<real>>)
    requires DistinctIds(catalog)
    ensures vectors == PresenceVectors(catalog, txs)
  {
    vectors := InitVectors(catalog, |txs|);
    forall j | 0 <= j < |catalog| ensures vectors[j] == PartialVectors(catalog, txs, 0, [])[j] {
      RowStart(catalog[j].id, txs);
    }
    for t := 0 to |txs|
      invariant vectors == PartialVectors(catalog, txs, t, [])
    {
      vectors := MarkTransaction(catalog, txs, t, vectors);
    }
    forall j | 0 <= j < |catalog| ensures vectors[j] == PresenceVectors(catalog, txs)[j] {
      RowEnd(catalog[j].id, txs);
    }
  }

  /** The similarities of product i to the first m catalog products other than itself. */
  function SimsUpTo(sqrt: SqrtFn, catalog: seq<Product>, txs: seq<seq<int>>, i: nat, m: nat): seq<real>
    requires i < |catalog| && m <= |catalog|
  {
    if m == 0 then []
    else
      SimsUpTo(sqrt, catalog, txs, i, m - 1)
      + (if catalog[m - 1].id == catalog[i].id then []
         else [CosineOf(sqrt, PresenceRow(catalog[i].id, txs), PresenceRow(catalog[m - 1].id, txs))])
  }

  function Sims(sqrt: SqrtFn, catalog: seq<Product>, txs: seq<seq<int>>, i: nat): seq<real>
    requires i < |catalog|
  {
    SimsUpTo(sqrt, catalog, txs, i, |catalog|)
  }

  function Identity(x: real): real { x }

  function Min(a: int, b: int): int { if a <= b then a else b }

  /** `rsort`, then the mean of the first `min(5, count)` entries, 0 when there are none. */
  function TopAverage(sims: seq<real>): real {
    var sorted := SortDesc(sims, Identity);
    var top := sorted[..Min(5, |sorted|)];
    if top != [] then Sum(top) / |top| as real else 0.0
  }

  /** The raw score of every catalog product, before normalisation. */
  function RawCollab(sqrt: SqrtFn, catalog: seq<Product>, txs: seq<seq<int>>): (r: Arr<int, real>)
    ensures |r| == |catalog|
  {
    seq(|catalog|, i requires 0 <= i < |catalog| => Entry(catalog[i].id, TopAverage(Sims(sqrt, catalog, txs, i))))
  }

  /** The loop over the other products, `rsort` and the top-5 mean, for product p. */
  method ProductScore(sqrt: SqrtFn, catalog: seq<Product>, txs: seq<seq<int>>, vectors: Arr<int, seq<real>>, p: nat)
    returns (avg: real)
    requires DistinctIds(catalog) && p < |catalog|
    requires vectors == PresenceVectors(catalog, txs)
    ensures avg == TopAverage(Sims(sqrt, catalog, txs, p))
  {
    var sims := ProductSims(sqrt, catalog, txs, vectors, p);
    avg := TopMean(sims);
  }

  /** The looked-up vector of a catalog product is its presence row. */
  lemma PresenceVectorOf(catalog: seq<Product>, txs: seq<seq<int>>, vectors: Arr<int, seq<real>>, o: nat)
    requires DistinctIds(catalog) && o < |catalog|
    requires vectors == PresenceVectors(catalog, txs)
    ensures Get(vectors, catalog[o].id, []) == PresenceRow(catalog[o].id, txs)
  {
    IdsAreKeys(catalog, vectors);
    GetAt(vectors, o, []);
  }

  /** `$sims[] = cosine($vectors[$pid], $vectors[$other])` for every other product. */
  method ProductSims(sqrt: SqrtFn, catalog: seq<Product>, txs: seq<seq<int>>, vectors: Arr<int, seq<real>>, p: nat)
    returns (sims: seq<real>)
    requires DistinctIds(catalog) && p < |catalog|
    requires vectors == PresenceVectors(catalog, txs)
    ensures sims == Sims(sqrt, catalog, txs, p)
  {
    var pid := catalog[p].id;
    PresenceVectorOf(catalog, txs, vectors, p);
    sims := [];
    for o := 0 to |catalog|
      invariant sims == SimsUpTo(sqrt, catalog, txs, p, o)
    {
      var other := catalog[o].id;
      if pid != other {
        PresenceVectorOf(catalog, txs, vectors, o);
        var c := ComputeCosine(sqrt, Get(vectors, pid, []), Get(vectors, other, []));
        sims := sims + [c];
      }
    }
  }

  /** `rsort($sims)`, `array_slice($sims, 0, 5)` and its mean. */
  method TopMean(sims: seq<real>) returns (avg: real)
    ensures avg == TopAverage(sims)
  {
    var sorted := SortDesc(sims, Identity);
    var k := if 5 <= |sorted| then 5 else |sorted|;
    var topk := sorted[..k];
    avg := if |topk| > 0 then Sum(topk) / |topk| as real else 0.0;
  }

  /** The per-product loop of `computeItemCollabSimilarity`, before the max-normalisation. */
  method CollabScores(sqrt: SqrtFn, catalog: seq<Product>, txs: seq<seq<int>>) returns (scores: Arr<int, real>)
    requires DistinctIds(catalog)
    ensures scores == RawCollab(sqrt, catalog, txs)
  {
    var vectors := BuildVectors(catalog, txs);
    ghost var target := RawCollab(sqrt, catalog, txs);
    scores := seq(|catalog|, i requires 0 <= i < |catalog| => Entry(catalog[i].id, 0.0));
    for p := 0 to |catalog|
      invariant |scores| == |catalog|
      invariant forall j :: 0 <= j < |catalog| ==> scores[j].key == catalog[j].id
      invariant forall j :: 0 <= j < p ==> scores[j] == target[j]
    {
      var avg := ProductScore(sqrt, catalog, txs, vectors, p);
      IdsAreKeys(catalog, scores);
      SetAt(scores, p, avg);
      scores := Set(scores, catalog[p].id, avg);
    }
  }

  /** `computeItemCollabSimilarity` given the transactions. */
  method ComputeItemCollabSimilarity(sqrt: SqrtFn, catalog: seq<Product>, txs: seq<seq<int>>)
    returns (scores: Arr<int, real>)
    requires DistinctIds(catalog)
    ensures catalog == [] ==> scores == []
    ensures scores == Normalized(RawCollab(sqrt, catalog, txs))
  {
    if |catalog| == 0 {
      return [];
    }
    var raw := CollabScores(sqrt, catalog, txs);
    scores := NormalizeByMax(raw);
  }

  // ---------------------------------------------------------------------
  // Properties.

  /** A transaction item outside the catalog changes no vector. */
  lemma ForeignItemIgnored(catalog: seq<Product>, txs: seq<seq<int>>, t: nat, x: int)
    requires t < |txs| && x !in CatalogIds(catalog)
    ensures PresenceVectors(catalog, txs[t := txs[t] + [x]]) == PresenceVectors(catalog, txs)
  {
    var txs' := txs[t := txs[t] + [x]];
    forall i | 0 <= i < |catalog| ensures PresenceRow(catalog[i].id, txs') == PresenceRow(catalog[i].id, txs) {
      assert catalog[i].id != x by {
        assert CatalogIds(catalog)[i] == catalog[i].id;
      }
      forall u | 0 <= u < |txs| ensures (catalog[i].id in txs'[u]) == (catalog[i].id in txs[u]) {
      }
    }
  }

  /** The top-k mean of non-negative similarities is non-negative. */
  lemma TopAverageNonNegative(sims: seq<real>)
    requires forall i :: 0 <= i < |sims| ==> sims[i] >= 0.0
    ensures TopAverage(sims) >= 0.0
  {
    var sorted := SortDesc(sims, Identity);
    SortDescSorted(sims, Identity);
    var top := sorted[..Min(5, |sorted|)];
    forall i | 0 <= i < |top| ensures top[i] >= 0.0 {
      assert top[i] == sorted[i];
      assert sorted[i] in multiset(sims);
    }
    SumNonNegative(top);
    if top != [] {
      DivNonNegative(Sum(top), |top| as real);
    }
  }

  /** With at most five other products the score is the plain mean of all similarities. */
  lemma TopAverageFew(sims: seq<real>)
    requires 0 < |sims| <= 5
    ensures TopAverage(sims) == Sum(sims) / |sims| as real
  {
    var sorted := SortDesc(sims, Identity);
    SortDescSorted(sims, Identity);
    assert sorted[..Min(5, |sorted|)] == sorted;
    SumPermutation(sorted, sims);
  }

  /** The similarities averaged are the largest ones: each is at least every one left out. */
  lemma TopAverageTakesLargest(sims: seq<real>, i: nat, j: nat)
    requires i < Min(5, |sims|) <= j < |sims|
    ensures SortDesc(sims, Identity)[i] >= SortDesc(sims, Identity)[j]
  {
    SortDescSorted(sims, Identity);
  }

  /** A product alone in the catalog has no neighbours and scores 0. */
  lemma LoneProduct(sqrt: SqrtFn, p: Product, txs: seq<seq<int>>)
    ensures Sims(sqrt, [p], txs, 0) == [] && TopAverage([]) == 0.0
  {
    assert SimsUpTo(sqrt, [p], txs, 0, 0) == [];
    assert SortDesc([], Identity) == [];
  }

  lemma PresenceNonNegative(pid: int, txs: seq<seq<int>>)
    ensures NonNegativeVec(PresenceRow(pid, txs))
  {
  }

  lemma {:induction false} SimsNonNegative(sqrt: SqrtFn, catalog: seq<Product>, txs: seq<seq<int>>, i: nat, m: nat)
    requires i < |catalog| && m <= |catalog|
    ensures forall k :: 0 <= k < |SimsUpTo(sqrt, catalog, txs, i, m)| ==> SimsUpTo(sqrt, catalog, txs, i, m)[k] >= 0.0
  {
    if m > 0 {
      SimsNonNegative(sqrt, catalog, txs, i, m - 1);
      PresenceNonNegative(catalog[i].id, txs);
      PresenceNonNegative(catalog[m - 1].id, txs);
      CosineNonNegative(sqrt, PresenceRow(catalog[i].id, txs), PresenceRow(catalog[m - 1].id, txs));
    }
  }

  /** Every normalised collaborative score lies in [0,1]. */
  lemma CollabInUnit(sqrt: SqrtFn, catalog: seq<Product>, txs: seq<seq<int>>)
    ensures InUnit(Normalized(RawCollab(sqrt, catalog, txs)))
  {
    var r := RawCollab(sqrt, catalog, txs);
    forall i | 0 <= i < |r| ensures r[i].val >= 0.0 {
      SimsNonNegative(sqrt, catalog, txs, i, |catalog|);
      TopAverageNonNegative(Sims(sqrt, catalog, txs, i));
    }
    NormalizedBounds(r);
  }
}
