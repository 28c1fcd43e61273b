/** Content similarity (`computeContentSimilarity`): each product's name and
    description become a tf-idf vector over the shared vocabulary, a product
    scores the mean cosine similarity to every other product, and the scores
    are normalised by their maximum. */
module Content {
  import opened PhpArray
  import opened Rows
  import opened Text
  import opened Terms
  import opened Cosine
  import opened Normalize

  /** `normalizeText(($r->name ?? '') . ' ' . ($r->description ?? ''))` */
  function Document(p: Product): string {
    NormalizeText(p.name + " " + p.description)
  }

  function DocTokens(catalog: seq<Product>): (r: seq<seq<string>>)
    ensures |r| == |catalog|
  {
    seq(|catalog|, i requires 0 <= i < |catalog| => Tokenize(Document(catalog[i])))
  }

  /** The token lists of a sequence of documents. */
  function Tokens(docs: seq<string>): (r: seq<seq<string>>)
    ensures |r| == |docs|
  {
    seq(|docs|, d requires 0 <= d < |docs| => Tokenize(docs[d]))
  }

  function CountTables(toks: seq<seq<string>>): (r: seq<Arr<string, int>>)
    ensures |r| == |toks|
  {
    seq(|toks|, d requires 0 <= d < |toks| => Counts(toks[d]))
  }

  /** `array_keys($vocab)`: the terms in order of first appearance. */
  function VocabList(toks: seq<seq<string>>): seq<string> {
    Keys(VocabOf(toks))
  }

  /** The document frequency of each vocabulary term. */
  function DocFreqs(toks: seq<seq<string>>): (df: seq<int>)
    ensures |df| == |VocabList(toks)|
  {
    var vocab := VocabList(toks);
    seq(|vocab|, k requires 0 <= k < |vocab| => DocFreq(CountTables(toks), vocab[k]))
  }

  function TfIdfVectors(log: LogFn, toks: seq<seq<string>>): (vs: seq<seq<real>>)
    ensures |vs| == |toks|
  {
    seq(|toks|, d requires 0 <= d < |toks| => VectorOf(log, toks[d], VocabList(toks), DocFreqs(toks), |toks|))
  }

  /** The similarities of vector i to vectors 0..m-1 other than itself, summed. */
  function OthersSum(sqrt: SqrtFn, vs: seq<seq<real>>, i: nat, m: nat): real
    requires i < |vs| && m <= |vs|
  {
    if m == 0 then 0.0
    else OthersSum(sqrt, vs, i, m - 1) + (if m - 1 == i then 0.0 else CosineOf(sqrt, vs[i], vs[m - 1]))
  }

  /** The mean similarity of vector i to all the others; 0 when there are none. */
  function AvgSim(sqrt: SqrtFn, vs: seq<seq<real>>, i: nat): real
    requires i < |vs|
  {
    if |vs| > 1 then OthersSum(sqrt, vs, i, |vs|) / (|vs| - 1) as real else 0.0
  }

  /** `$scores[$ids[$i]] = $avg` for every product, before normalisation. */
  function RawContent(sqrt: SqrtFn, log: LogFn, catalog: seq<Product>): (r: Arr<int, real>)
    ensures |r| == |catalog|
  {
    var vs := TfIdfVectors(log, DocTokens(catalog));
    seq(|catalog|, i requires 0 <= i < |catalog| => Entry(catalog[i].id, AvgSim(sqrt, vs, i)))
  }

  function ZeroScores(catalog: seq<Product>): (r: Arr<int, real>)
    ensures |r| == |catalog|
  {
    seq(|catalog|, i requires 0 <= i < |catalog| => Entry(catalog[i].id, 0.0))
  }

  /** What `computeContentSimilarity` returns. */
  function ContentScores(sqrt: SqrtFn, log: LogFn, catalog: seq<Product>): Arr<int, real> {
    if |catalog| <= 1 then ZeroScores(catalog) else Normalized(RawContent(sqrt, log, catalog))
  }

  // ---------------------------------------------------------------------
  // The loops.

  /** The inner loop over `$j`, skipping `$i`, and the guarded mean. */
  method SimilarityAverage(sqrt: SqrtFn, vectors: seq<seq<real>>, i: nat) returns (avg: real)
    requires i < |vectors|
    ensures avg == AvgSim(sqrt, vectors, i)
  {
    var sum, count := OthersTotal(sqrt, vectors, i);
    avg := if count != 0 then sum / count as real else 0.0;
  }

  /** The loop itself: the similarities to the others, summed and counted. */
  method OthersTotal(sqrt: SqrtFn, vectors: seq<seq<real>>, i: nat) returns (sum: real, count: nat)
    requires i < |vectors|
    ensures sum == OthersSum(sqrt, vectors, i, |vectors|) && count == |vectors| - 1
  {
    sum, count := 0.0, 0;
    for j := 0 to |vectors|
      invariant sum == OthersSum(sqrt, vectors, i, j)
      invariant count == if j > i then j - 1 else j
    {
      if i == j {
        continue;
      }
      var c := ComputeCosine(sqrt, vectors[i], vectors[j]);
      sum := sum + c;
      count := count + 1;
    }
  }

  /** The loop building one tf-idf vector per document. */
  method BuildVectors(log: LogFn, toks: seq<seq<string>>, tfs: seq<Arr<string, int>>, vocabList: seq<string>,
                      index: Arr<string, int>, df: seq<int>)
    returns (vectors: seq<seq<real>>)
    requires tfs == CountTables(toks) && vocabList == VocabList(toks) && df == DocFreqs(toks)
    requires index == Flip(vocabList)
    ensures vectors == TfIdfVectors(log, toks)
  {
    VocabDistinct(toks);
    assert Distinct(vocabList);
    vectors := [];
    for i := 0 to |tfs|
      invariant |vectors| == i
      invariant forall d :: 0 <= d < i ==> vectors[d] == TfIdfVectors(log, toks)[d]
    {
      forall t | HasKey(tfs[i], t) ensures t in vocabList {
        CountedInVocab(toks, i, t);
      }
      var vec := TfIdfVector(log, toks[i], tfs[i], vocabList, index, df, |tfs|);
      vectors := vectors + [vec];
    }
  }

  function Documents(catalog: seq<Product>): (docs: seq<string>)
    ensures |docs| == |catalog|
  {
    seq(|catalog|, i requires 0 <= i < |catalog| => Document(catalog[i]))
  }

  /** The loop over the product rows collecting `$ids` and `$docs`. */
  method CollectDocuments(catalog: seq<Product>) returns (ids: seq<int>, docs: seq<string>)
    ensures ids == CatalogIds(catalog) && docs == Documents(catalog)
  {
    ids, docs := [], [];
    for i := 0 to |catalog|
      invariant ids == CatalogIds(catalog)[..i] && docs == Documents(catalog)[..i]
    {
      var doc := NormalizeText(catalog[i].name + " " + catalog[i].description);
      PrefixStep(CatalogIds(catalog), i);
      PrefixStep(Documents(catalog), i);
      ids := ids + [catalog[i].id];
      docs := docs + [doc];
    }
    assert CatalogIds(catalog)[..|catalog|] == CatalogIds(catalog);
    assert Documents(catalog)[..|catalog|] == Documents(catalog);
  }

  /** `foreach ($ids as $id) $out[$id] = 0.0;` */
  method AssignZeros(catalog: seq<Product>, ids: seq<int>) returns (out: Arr<int, real>)
    requires DistinctIds(catalog) && ids == CatalogIds(catalog)
    ensures out == ZeroScores(catalog)
  {
    out := [];
    for i := 0 to |ids|
      invariant out == ZeroScores(catalog)[..i]
    {
      FreshId(catalog, out, i);
      SetAppends(out, ids[i], 0.0);
      out := Set(out, ids[i], 0.0);
      PrefixStep(ZeroScores(catalog), i);
    }
    assert ZeroScores(catalog)[..|catalog|] == ZeroScores(catalog);
  }

  /** Vocabulary, term frequencies, document frequencies and the tf-idf vectors. */
  method ContentVectors(log: LogFn, docs: seq<string>) returns (vectors: seq<seq<real>>)
    ensures vectors == TfIdfVectors(log, Tokens(docs))
  {
    var toks := Tokens(docs);
    var vocab, tfs := TermFrequencies(toks);
    assert tfs == CountTables(toks);
    var vocabList := Keys(vocab);
    var index := Flip(vocabList);
    VocabDistinct(toks);
    forall d | 0 <= d < |tfs| ensures DistinctKeys(tfs[d]) {
      CountsDistinct(toks[d]);
    }
    forall d, t | 0 <= d < |tfs| && HasKey(tfs[d], t) ensures t in vocabList {
      CountedInVocab(toks, d, t);
    }
    var df := DocumentFrequencies(tfs, vocabList, index);
    assert df == DocFreqs(toks);
    vectors := BuildVectors(log, toks, tfs, vocabList, index, df);
  }

  /** The outer loop over `$i`: `$scores[$ids[$i]] = $avg`. */
  method AssignAverages(sqrt: SqrtFn, log: LogFn, catalog: seq<Product>, ids: seq<int>, vectors: seq<seq<real>>)
    returns (scores: Arr<int, real>)
    requires DistinctIds(catalog) && ids == CatalogIds(catalog)
    requires vectors == TfIdfVectors(log, DocTokens(catalog))
    ensures scores == RawContent(sqrt, log, catalog)
  {
    scores := [];
    ghost var raw := RawContent(sqrt, log, catalog);
    var n := |vectors|;
    for i := 0 to n
      invariant scores == raw[..i]
    {
      var avg := SimilarityAverage(sqrt, vectors, i);
      FreshId(catalog, scores, i);
      SetAppends(scores, ids[i], avg);
      scores := Set(scores, ids[i], avg);
      RawContentAt(sqrt, log, catalog, i);
      PrefixStep(raw, i);
    }
    assert raw[..n] == raw;
  }

  lemma RawContentAt(sqrt: SqrtFn, log: LogFn, catalog: seq<Product>, i: nat)
    requires i < |catalog|
    ensures RawContent(sqrt, log, catalog)[i] == Entry(catalog[i].id, AvgSim(sqrt, TfIdfVectors(log, DocTokens(catalog)), i))
  {
  }

  /** `computeContentSimilarity` given the catalog rows. */
  method ComputeContentSimilarity(sqrt: SqrtFn, log: LogFn, catalog: seq<Product>) returns (scores: Arr<int, real>)
    requires DistinctIds(catalog)
    ensures scores == ContentScores(sqrt, log, catalog)
  {
    var ids, docs := CollectDocuments(catalog);
    if |docs| <= 1 {
      scores := AssignZeros(catalog, ids);
      return;
    }
    var vectors := ContentVectors(log, docs);
    DocumentTokens(catalog);
    scores := AssignAverages(sqrt, log, catalog, ids, vectors);
    scores := NormalizeByMax(scores);
  }

  /** Tokenizing the collected documents gives the catalog's token lists. */
  lemma DocumentTokens(catalog: seq<Product>)
    ensures Tokens(Documents(catalog)) == DocTokens(catalog)
  {
  }

  // ---------------------------------------------------------------------
  // Properties.

  /** One score per catalog product, in catalog order, in both branches. */
  lemma ContentKeys(sqrt: SqrtFn, log: LogFn, catalog: seq<Product>)
    ensures Keys(ContentScores(sqrt, log, catalog)) == CatalogIds(catalog)
  {
    if |catalog| > 1 {
      NormalizedKeys(RawContent(sqrt, log, catalog));
    }
  }

  lemma VectorsNonNegative(log: LogFn, toks: seq<seq<string>>, d: nat)
    requires d < |toks|
    ensures NonNegativeVec(TfIdfVectors(log, toks)[d])
  {
    VectorNonNegative(log, toks[d], VocabList(toks), DocFreqs(toks), |toks|);
  }

  lemma {:induction false} OthersSumNonNegative(sqrt: SqrtFn, vs: seq<seq<real>>, i: nat, m: nat)
    requires i < |vs| && m <= |vs|
    requires forall d :: 0 <= d < |vs| ==> NonNegativeVec(vs[d])
    ensures OthersSum(sqrt, vs, i, m) >= 0.0
  {
    if m > 0 {
      OthersSumNonNegative(sqrt, vs, i, m - 1);
      CosineNonNegative(sqrt, vs[i], vs[m - 1]);
    }
  }

  /** Every content score lies in [0,1]. */
  lemma ContentInUnit(sqrt: SqrtFn, log: LogFn, catalog: seq<Product>)
    ensures InUnit(ContentScores(sqrt, log, catalog))
  {
    if |catalog| > 1 {
      var toks := DocTokens(catalog);
      var vs := TfIdfVectors(log, toks);
      forall d | 0 <= d < |vs| ensures NonNegativeVec(vs[d]) {
        VectorsNonNegative(log, toks, d);
      }
      var raw := RawContent(sqrt, log, catalog);
      forall i | 0 <= i < |raw| ensures raw[i].val >= 0.0 {
        OthersSumNonNegative(sqrt, vs, i, |vs|);
        RawContentAt(sqrt, log, catalog, i);
        DivNonNegative(OthersSum(sqrt, vs, i, |vs|), (|vs| - 1) as real);
      }
      NormalizedBounds(raw);
    }
  }

  lemma {:induction false} OthersSumZero(sqrt: SqrtFn, vs: seq<seq<real>>, i: nat, m: nat)
    requires i < |vs| && m <= |vs| && IsZero(vs[i])
    ensures OthersSum(sqrt, vs, i, m) == 0.0
  {
    if m > 0 {
      OthersSumZero(sqrt, vs, i, m - 1);
      CosineZeroNorm(sqrt, vs[i], vs[m - 1]);
    }
  }

  /** A product whose name and description hold no word has a zero vector and
      a raw score of 0. */
  lemma WordlessProduct(sqrt: SqrtFn, log: LogFn, catalog: seq<Product>, i: nat)
    requires i < |catalog| && DocTokens(catalog)[i] == []
    ensures RawContent(sqrt, log, catalog)[i].val == 0.0
  {
    var toks := DocTokens(catalog);
    var vs := TfIdfVectors(log, toks);
    EmptyDocumentVector(log, VocabList(toks), DocFreqs(toks), |toks|);
    assert vs[i] == VectorOf(log, [], VocabList(toks), DocFreqs(toks), |toks|);
    AvgSimZero(sqrt, vs, i);
    RawContentAt(sqrt, log, catalog, i);
  }

  /** A zero vector is similar to nothing. */
  lemma AvgSimZero(sqrt: SqrtFn, vs: seq<seq<real>>, i: nat)
    requires i < |vs| && IsZero(vs[i])
    ensures AvgSim(sqrt, vs, i) == 0.0
  {
    OthersSumZero(sqrt, vs, i, |vs|);
    if |vs| > 1 {
      ZeroQuotient((|vs| - 1) as real);
    }
  }

  lemma ZeroQuotient(d: real)
    requires d != 0.0
    ensures 0.0 / d == 0.0
  {
  }

  /** In a two-product catalog both products get the same raw score. */
  lemma PairOfProducts(sqrt: SqrtFn, log: LogFn, catalog: seq<Product>)
    requires |catalog| == 2
    ensures RawContent(sqrt, log, catalog)[0].val == RawContent(sqrt, log, catalog)[1].val
  {
    var vs := TfIdfVectors(log, DocTokens(catalog));
    assert OthersSum(sqrt, vs, 0, 2) == CosineOf(sqrt, vs[0], vs[1]) by {
      assert OthersSum(sqrt, vs, 0, 1) == 0.0;
    }
    assert OthersSum(sqrt, vs, 1, 2) == CosineOf(sqrt, vs[1], vs[0]) by {
      assert OthersSum(sqrt, vs, 1, 1) == CosineOf(sqrt, vs[1], vs[0]);
    }
    CosineSymmetric(sqrt, vs[0], vs[1]);
    RawContentAt(sqrt, log, catalog, 0);
    RawContentAt(sqrt, log, catalog, 1);
  }

  /** Every vocabulary term occurs in at least one document and at most all of them. */
  lemma DocFreqsInRange(toks: seq<seq<string>>, k: nat)
    requires k < |VocabList(toks)|
    ensures 1 <= DocFreqs(toks)[k] <= |toks|
  {
    var t := VocabList(toks)[k];
    VocabKeys(toks, t);
    var d :| 0 <= d < |toks| && t in toks[d];
    CountsKeys(toks[d], t);
    var tfs := CountTables(toks);
    assert HasKey(tfs[d], t);
    DocFreqBounds(tfs, t);
  }
}
