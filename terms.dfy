/** Term statistics for the content signal: per-document term counts, the
    vocabulary in order of first appearance, `array_flip` of it, document
    frequencies and tf-idf vectors. The logarithm is a parameter. */
module Terms {
  import opened PhpArray

  /** A logarithm: non-negative from 1 on. */
  type LogFn = f: real -> real | forall x :: x >= 1.0 ==> f(x) >= 0.0
    witness (x: real) => 0.0

  /** `$counts[$t] = ($counts[$t] ?? 0) + 1` over a document's tokens. */
  function Counts(tokens: seq<string>): Arr<string, int> {
    if tokens == [] then []
    else
      var c := Counts(tokens[..|tokens| - 1]);
      var t := tokens[|tokens| - 1];
      Set(c, t, Get(c, t, 0) + 1)
  }

  /** A term's count is its number of occurrences. */
  lemma {:induction false} CountsGet(tokens: seq<string>, t: string)
    ensures Get(Counts(tokens), t, 0) == multiset(tokens)[t]
  {
    if tokens != [] {
      var init, last := tokens[..|tokens| - 1], tokens[|tokens| - 1];
      CountsGet(init, t);
      GetSet(Counts(init), last, Get(Counts(init), last, 0) + 1, t, 0);
      CountsGet(init, last);
      assert tokens == init + [last];
    }
  }

  /** Exactly the document's terms have a count. */
  lemma {:induction false} CountsKeys(tokens: seq<string>, t: string)
    ensures HasKey(Counts(tokens), t) <==> t in tokens
  {
    if tokens != [] {
      var init, last := tokens[..|tokens| - 1], tokens[|tokens| - 1];
      CountsKeys(init, t);
      KeysSet(Counts(init), last, Get(Counts(init), last, 0) + 1);
      assert tokens == init + [last];
    }
  }

  lemma {:induction false} CountsDistinct(tokens: seq<string>)
    ensures DistinctKeys(Counts(tokens))
  {
    if tokens != [] {
      var init, last := tokens[..|tokens| - 1], tokens[|tokens| - 1];
      CountsDistinct(init);
      DistinctSet(Counts(init), last, Get(Counts(init), last, 0) + 1);
    }
  }

  /** Every count is at least 1. */
  lemma CountsPositive(tokens: seq<string>)
    ensures forall i :: 0 <= i < |Counts(tokens)| ==> Counts(tokens)[i].val >= 1
  {
    var c := Counts(tokens);
    CountsDistinct(tokens);
    forall i | 0 <= i < |c| ensures c[i].val >= 1 {
      GetAt(c, i, 0);
      CountsKeys(tokens, c[i].key);
      assert Keys(c)[i] == c[i].key;
      CountsGet(tokens, c[i].key);
    }
  }

  /** `$vocab[$t] = true` over a list of tokens. */
  function AddVocab(v: Arr<string, bool>, tokens: seq<string>): Arr<string, bool> {
    if tokens == [] then v
    else Set(AddVocab(v, tokens[..|tokens| - 1]), tokens[|tokens| - 1], true)
  }

  /** The vocabulary after the documents' token lists, one after the other. */
  function VocabOf(docs: seq<seq<string>>): Arr<string, bool> {
    if docs == [] then [] else AddVocab(VocabOf(docs[..|docs| - 1]), docs[|docs| - 1])
  }

  lemma {:induction false} AddVocabKeys(v: Arr<string, bool>, tokens: seq<string>, t: string)
    ensures HasKey(AddVocab(v, tokens), t) <==> HasKey(v, t) || t in tokens
  {
    if tokens != [] {
      var init, last := tokens[..|tokens| - 1], tokens[|tokens| - 1];
      AddVocabKeys(v, init, t);
      KeysSet(AddVocab(v, init), last, true);
      assert tokens == init + [last];
    }
  }

  ghost predicate InSomeDoc(docs: seq<seq<string>>, t: string) {
    exists d :: 0 <= d < |docs| && t in docs[d]
  }

  /** The vocabulary holds exactly the terms occurring in some document. */
  lemma {:induction false} VocabKeys(docs: seq<seq<string>>, t: string)
    ensures HasKey(VocabOf(docs), t) <==> InSomeDoc(docs, t)
  {
    if docs != [] {
      var init := docs[..|docs| - 1];
      VocabKeys(init, t);
      AddVocabKeys(VocabOf(init), docs[|docs| - 1], t);
      assert forall d :: 0 <= d < |init| ==> init[d] == docs[d];
    } else {
      assert Keys(VocabOf(docs)) == [];
    }
  }

  lemma {:induction false} AddVocabDistinct(v: Arr<string, bool>, tokens: seq<string>)
    requires DistinctKeys(v)
    ensures DistinctKeys(AddVocab(v, tokens))
  {
    if tokens != [] {
      AddVocabDistinct(v, tokens[..|tokens| - 1]);
      DistinctSet(AddVocab(v, tokens[..|tokens| - 1]), tokens[|tokens| - 1], true);
    }
  }

  /** Each term is listed once. */
  lemma {:induction false} VocabDistinct(docs: seq<seq<string>>)
    ensures DistinctKeys(VocabOf(docs))
  {
    if docs != [] {
      VocabDistinct(docs[..|docs| - 1]);
      AddVocabDistinct(VocabOf(docs[..|docs| - 1]), docs[|docs| - 1]);
    }
  }

  ghost predicate Distinct(ks: seq<string>) {
    forall i, j :: 0 <= i < j < |ks| ==> ks[i] != ks[j]
  }

  /** `array_flip`: each value mapped to its index (the last one, for repeats). */
  function Flip(ks: seq<string>): Arr<string, int> {
    if ks == [] then [] else Set(Flip(ks[..|ks| - 1]), ks[|ks| - 1], |ks| - 1)
  }

  /** In a list without repeats, flipping gives each term its own position. */
  lemma {:induction false} FlipGet(ks: seq<string>, k: nat)
    requires Distinct(ks) && k < |ks|
    ensures Get(Flip(ks), ks[k], -1) == k
  {
    var init := ks[..|ks| - 1];
    GetSet(Flip(init), ks[|ks| - 1], |ks| - 1, ks[k], -1);
    if k < |ks| - 1 {
      assert init[k] == ks[k];
      FlipGet(init, k);
    }
  }

  /** The number of documents whose counts include t. */
  function DocFreq(tfs: seq<Arr<string, int>>, t: string): nat {
    if tfs == [] then 0
    else DocFreq(tfs[..|tfs| - 1], t) + (if HasKey(tfs[|tfs| - 1], t) then 1 else 0)
  }

  lemma {:induction false} DocFreqBounds(tfs: seq<Arr<string, int>>, t: string)
    ensures DocFreq(tfs, t) <= |tfs|
    ensures (exists d :: 0 <= d < |tfs| && HasKey(tfs[d], t)) ==> DocFreq(tfs, t) >= 1
  {
    if tfs != [] {
      var init := tfs[..|tfs| - 1];
      DocFreqBounds(init, t);
      assert forall d :: 0 <= d < |init| ==> init[d] == tfs[d];
    }
  }

  /** `max($counts)` for a non-empty count table, `1` for an empty one. */
  function MaxCount(vs: seq<int>): (m: int)
    ensures vs == [] ==> m == 1
    ensures vs != [] ==> (forall i :: 0 <= i < |vs| ==> vs[i] <= m) && (exists i :: 0 <= i < |vs| && vs[i] == m)
  {
    if vs == [] then 1
    else if |vs| == 1 then vs[0]
    else
      var m := MaxCount(vs[1..]);
      assert forall i :: 1 <= i < |vs| ==> vs[i] == vs[1..][i - 1];
      if vs[0] >= m then vs[0] else m
  }

  /** `log(1 + ($N / max(1, $df)))` */
  function Idf(log: LogFn, n: nat, df: int): real {
    log(1.0 + n as real / (if df >= 1 then df else 1) as real)
  }

  /** `$counts ? max($counts) : 1`: at least 1. */
  function MaxTf(tokens: seq<string>): (m: int)
    ensures m >= 1
  {
    var vs := Values(Counts(tokens));
    CountsPositive(tokens);
    MaxCount(vs)
  }

  /** `$c / $maxTf` for term t of the document. */
  function Tf(tokens: seq<string>, t: string): real {
    Get(Counts(tokens), t, 0) as real / MaxTf(tokens) as real
  }

  /** `$tf * $idf` */
  function Weight(tf: real, idf: real): real {
    tf * idf
  }

  /** The tf-idf vector of one document: coordinate k is tf × idf of vocabulary
      term k when the document has it, 0 otherwise. */
  function VectorOf(log: LogFn, tokens: seq<string>, vocab: seq<string>, df: seq<int>, n: nat): (v: seq<real>)
    requires |df| == |vocab|
    ensures |v| == |vocab|
  {
    seq(|vocab|, k requires 0 <= k < |vocab| =>
      if HasKey(Counts(tokens), vocab[k]) then Weight(Tf(tokens, vocab[k]), Idf(log, n, df[k])) else 0.0)
  }

  lemma IdfNonNegative(log: LogFn, n: nat, df: int)
    ensures Idf(log, n, df) >= 0.0
  {
    var d := (if df >= 1 then df else 1) as real;
    assert n as real / d >= 0.0;
  }

  /** Term frequencies relative to the most frequent term lie in (0,1]. */
  lemma TfInUnit(tokens: seq<string>, t: string)
    requires t in tokens
    ensures 0.0 < Tf(tokens, t) <= 1.0
  {
    var counts := Counts(tokens);
    CountsKeys(tokens, t);
    CountsDistinct(tokens);
    CountsPositive(tokens);
    var i :| 0 <= i < |counts| && Keys(counts)[i] == t;
    GetAt(counts, i, 0);
    var c, m := Get(counts, t, 0), MaxTf(tokens);
    assert Values(counts)[i] == c;
    assert 1 <= c <= m;
    RatioInUnit(c as real, m as real);
  }

  lemma RatioInUnit(c: real, m: real)
    requires 1.0 <= c <= m
    ensures 0.0 < c / m <= 1.0
  {
  }

  /** Every coordinate of a tf-idf vector is non-negative. */
  lemma VectorNonNegative(log: LogFn, tokens: seq<string>, vocab: seq<string>, df: seq<int>, n: nat)
    requires |df| == |vocab|
    ensures forall k :: 0 <= k < |vocab| ==> VectorOf(log, tokens, vocab, df, n)[k] >= 0.0
  {
    var v := VectorOf(log, tokens, vocab, df, n);
    var counts := Counts(tokens);
    forall k | 0 <= k < |vocab| ensures v[k] >= 0.0 {
      if HasKey(counts, vocab[k]) {
        CountsKeys(tokens, vocab[k]);
        TfInUnit(tokens, vocab[k]);
        IdfNonNegative(log, n, df[k]);
        ProductNonNegative(Tf(tokens, vocab[k]), Idf(log, n, df[k]));
      }
    }
  }

  /** A document without tokens has the zero vector. */
  lemma EmptyDocumentVector(log: LogFn, vocab: seq<string>, df: seq<int>, n: nat)
    requires |df| == |vocab|
    ensures forall k :: 0 <= k < |vocab| ==> VectorOf(log, [], vocab, df, n)[k] == 0.0
  {
    assert Counts([]) == [];
  }

  lemma ProductNonNegative(x: real, y: real)
    requires x >= 0.0 && y >= 0.0
    ensures x * y >= 0.0
  {
  }

  // ---------------------------------------------------------------------
  // The loops of the content signal that build these tables.

  /** One document's pass: count its tokens and add them to the vocabulary. */
  method CountDocument(tokens: seq<string>, v: Arr<string, bool>)
    returns (counts: Arr<string, int>, vocab: Arr<string, bool>)
    ensures counts == Counts(tokens) && vocab == AddVocab(v, tokens)
  {
    counts, vocab := [], v;
    for k := 0 to |tokens|
      invariant counts == Counts(tokens[..k]) && vocab == AddVocab(v, tokens[..k])
    {
      var t := tokens[k];
      assert tokens[..k + 1][..k] == tokens[..k];
      counts := Set(counts, t, Get(counts, t, 0) + 1);
      vocab := Set(vocab, t, true);
    }
    assert tokens[..|tokens|] == tokens;
  }

  /** The vocabulary and term-frequency loop over all documents. */
  method TermFrequencies(toks: seq<seq<string>>) returns (vocab: Arr<string, bool>, tfs: seq<Arr<string, int>>)
    ensures vocab == VocabOf(toks)
    ensures |tfs| == |toks| && forall d :: 0 <= d < |toks| ==> tfs[d] == Counts(toks[d])
  {
    vocab, tfs := [], [];
    for d := 0 to |toks|
      invariant vocab == VocabOf(toks[..d])
      invariant |tfs| == d && forall e :: 0 <= e < d ==> tfs[e] == Counts(toks[e])
    {
      var counts;
      assert toks[..d + 1][..d] == toks[..d];
      counts, vocab := CountDocument(toks[d], vocab);
      tfs := tfs + [counts];
    }
    assert toks[..|toks|] == toks;
  }

  /** Every term counted in some document is in the vocabulary list. */
  lemma CountedInVocab(toks: seq<seq<string>>, d: nat, t: string)
    requires d < |toks| && HasKey(Counts(toks[d]), t)
    ensures t in Keys(VocabOf(toks))
  {
    CountsKeys(toks[d], t);
    VocabKeys(toks, t);
  }

  /** The document-frequency loop: one increment per document and distinct term. */
  method DocumentFrequencies(tfs: seq<Arr<string, int>>, vocabList: seq<string>, index: Arr<string, int>)
    returns (df: seq<int>)
    requires Distinct(vocabList) && index == Flip(vocabList)
    requires forall d :: 0 <= d < |tfs| ==> DistinctKeys(tfs[d])
    requires forall d, t :: 0 <= d < |tfs| && HasKey(tfs[d], t) ==> t in vocabList
    ensures |df| == |vocabList|
    ensures forall k :: 0 <= k < |vocabList| ==> df[k] == DocFreq(tfs, vocabList[k])
  {
    df := seq(|vocabList|, _ => 0);
    for d := 0 to |tfs|
      invariant |df| == |vocabList|
      invariant forall k :: 0 <= k < |vocabList| ==> df[k] == DocFreq(tfs[..d], vocabList[k])
    {
      var counts := tfs[d];
      assert tfs[..d + 1][..d] == tfs[..d];
      for j := 0 to |counts|
        invariant |df| == |vocabList|
        invariant forall k :: 0 <= k < |vocabList| ==>
          df[k] == DocFreq(tfs[..d], vocabList[k]) + (if vocabList[k] in Keys(counts[..j]) then 1 else 0)
      {
        var term := counts[j].key;
        assert HasKey(tfs[d], term) by {
          assert Keys(counts)[j] == term;
        }
        assert term in vocabList;
        var k0 :| 0 <= k0 < |vocabList| && vocabList[k0] == term;
        FlipGet(vocabList, k0);
        var idx := Get(index, term, -1);
        assert Keys(counts[..j + 1]) == Keys(counts[..j]) + [term];
        assert term !in Keys(counts[..j]);
        df := df[idx := df[idx] + 1];
      }
      assert counts[..|counts|] == counts;
      forall k | 0 <= k < |vocabList|
        ensures (vocabList[k] in Keys(counts)) == HasKey(tfs[..d + 1][d], vocabList[k])
      {
      }
    }
    assert tfs[..|tfs|] == tfs;
  }

  /** The vector once the terms in `seen` have been written. */
  function PartialVector(log: LogFn, tokens: seq<string>, vocab: seq<string>, df: seq<int>, n: nat, seen: seq<string>): (v: seq<real>)
    requires |df| == |vocab|
    ensures |v| == |vocab|
  {
    seq(|vocab|, k requires 0 <= k < |vocab| =>
      if vocab[k] in seen then Weight(Tf(tokens, vocab[k]), Idf(log, n, df[k])) else 0.0)
  }

  /** Writing the coordinate of one more term. */
  lemma PartialVectorStep(log: LogFn, tokens: seq<string>, vocab: seq<string>, df: seq<int>, n: nat, seen: seq<string>, idx: nat)
    requires |df| == |vocab| && Distinct(vocab) && idx < |vocab|
    ensures PartialVector(log, tokens, vocab, df, n, seen + [vocab[idx]])
         == PartialVector(log, tokens, vocab, df, n, seen)[idx := Weight(Tf(tokens, vocab[idx]), Idf(log, n, df[idx]))]
  {
    var a := PartialVector(log, tokens, vocab, df, n, seen + [vocab[idx]]);
    var b := PartialVector(log, tokens, vocab, df, n, seen)[idx := Weight(Tf(tokens, vocab[idx]), Idf(log, n, df[idx]))];
    forall k | 0 <= k < |vocab| ensures a[k] == b[k] {
      assert (vocab[k] in seen + [vocab[idx]]) <==> (vocab[k] in seen || k == idx);
    }
  }

  lemma PartialVectorEnds(log: LogFn, tokens: seq<string>, vocab: seq<string>, df: seq<int>, n: nat)
    requires |df| == |vocab|
    ensures PartialVector(log, tokens, vocab, df, n, []) == seq(|vocab|, _ => 0.0)
    ensures PartialVector(log, tokens, vocab, df, n, Keys(Counts(tokens))) == VectorOf(log, tokens, vocab, df, n)
  {
  }

  /** The tf-idf loop for one document: coordinate `$vocabIndex[$term]` gets
      `($c / $maxTf) * log(1 + $N / max(1, $df[$idx]))` for each counted term. */
  method TfIdfVector(log: LogFn, tokens: seq<string>, counts: Arr<string, int>, vocabList: seq<string>,
                     index: Arr<string, int>, df: seq<int>, n: nat)
    returns (vec: seq<real>)
    requires counts == Counts(tokens)
    requires Distinct(vocabList) && index == Flip(vocabList) && |df| == |vocabList|
    requires forall t :: HasKey(counts, t) ==> t in vocabList
    ensures vec == VectorOf(log, tokens, vocabList, df, n)
  {
    vec := seq(|vocabList|, _ => 0.0);
    var maxTf := if counts != [] then MaxCount(Values(counts)) else 1;
    assert maxTf == MaxTf(tokens);
    CountsDistinct(tokens);
    PartialVectorEnds(log, tokens, vocabList, df, n);
    assert Keys(counts[..0]) == [];
    for j := 0 to |counts|
      invariant vec == PartialVector(log, tokens, vocabList, df, n, Keys(counts[..j]))
    {
      var term, c := counts[j].key, counts[j].val;
      assert HasKey(counts, term) by {
        assert Keys(counts)[j] == term;
      }
      var k0 :| 0 <= k0 < |vocabList| && vocabList[k0] == term;
      FlipGet(vocabList, k0);
      GetAt(counts, j, 0);
      var idx := Get(index, term, -1);
      var tf := c as real / maxTf as real;
      var idf := log(1.0 + n as real / (if df[idx] >= 1 then df[idx] else 1) as real);
      assert tf == Tf(tokens, vocabList[idx]);
      assert idf == Idf(log, n, df[idx]);
      KeysPrefix(counts, j);
      PartialVectorStep(log, tokens, vocabList, df, n, Keys(counts[..j]), idx);
      var value := Weight(tf, idf);
      assert Keys(counts[..j + 1]) == Keys(counts[..j]) + [vocabList[idx]];
      vec := vec[idx := value];
    }
    assert counts[..|counts|] == counts;
  }
}
