/** Market-basket signal (`computeMBA`, from the mined rule list onward): every
    rule's strength support × confidence is credited to each antecedent
    product, and kept as the strongest antecedent → consequent pair score;
    both tables are then max-normalised, the pair table per main product. */
module Mba {
  import opened PhpArray
  import opened Labels
  import opened Normalize

  /** One association rule as the miner reports it, over item labels. */
  datatype Rule = Rule(antecedent: seq<string>, consequent: seq<string>, support: real, confidence: real)

  /** `$value = $support * $confidence` */
  function Value(r: Rule): real { r.support * r.confidence }

  function RealMax(x: real, y: real): real { if x >= y then x else y }

  /** The antecedent loop: `$scores[$id] = ($scores[$id] ?? 0) + $value`. */
  function AddScores(s: Arr<int, real>, labels: seq<string>, v: real): Arr<int, real> {
    if labels == [] then s
    else
      var s' := AddScores(s, labels[..|labels| - 1], v);
      var id := LabelId(labels[|labels| - 1]);
      Set(s', id, Get(s', id, 0.0) + v)
  }

  /** The raw score table after the first `count(rules)` rules. */
  function RawScores(rules: seq<Rule>): Arr<int, real> {
    if rules == [] then []
    else
      var r := rules[|rules| - 1];
      AddScores(RawScores(rules[..|rules| - 1]), r.antecedent, Value(r))
  }

  /** The consequent loop for one main product:
      `$pairsPerProduct[$mainId][$pairId] = max($pairsPerProduct[$mainId][$pairId] ?? 0, $value)`. */
  function AddPairRow(p: Arr<int, Arr<int, real>>, a: int, cons: seq<string>, v: real): Arr<int, Arr<int, real>> {
    if cons == [] then p
    else
      var q := AddPairRow(p, a, cons[..|cons| - 1], v);
      var c := LabelId(cons[|cons| - 1]);
      var row := Get(q, a, []);
      Set(q, a, Set(row, c, RealMax(Get(row, c, 0.0), v)))
  }

  function AddPairs(p: Arr<int, Arr<int, real>>, ants: seq<string>, cons: seq<string>, v: real): Arr<int, Arr<int, real>> {
    if ants == [] then p
    else AddPairRow(AddPairs(p, ants[..|ants| - 1], cons, v), LabelId(ants[|ants| - 1]), cons, v)
  }

  function RawPairs(rules: seq<Rule>): Arr<int, Arr<int, real>> {
    if rules == [] then []
    else
      var r := rules[|rules| - 1];
      AddPairs(RawPairs(rules[..|rules| - 1]), r.antecedent, r.consequent, Value(r))
  }

  /** Each main product's partner scores normalised by that product's own maximum. */
  function NormalizedRows(p: Arr<int, Arr<int, real>>): Arr<int, Arr<int, real>> {
    seq(|p|, i requires 0 <= i < |p| => Entry(p[i].key, Normalized(p[i].val)))
  }

  /** The inner loop over one rule's antecedent crediting the score table. */
  method CreditAntecedent(s: Arr<int, real>, ant: seq<string>, value: real) returns (scores: Arr<int, real>)
    ensures scores == AddScores(s, ant, value)
  {
    scores := s;
    for j := 0 to |ant|
      invariant scores == AddScores(s, ant[..j], value)
    {
      var id := LabelId(ant[j]);
      assert ant[..j + 1][..j] == ant[..j];
      scores := Set(scores, id, Get(scores, id, 0.0) + value);
    }
    assert ant[..|ant|] == ant;
  }

  /** The innermost loop over one rule's consequent for one main product. */
  method CreditPairRow(p: Arr<int, Arr<int, real>>, mainId: int, cons: seq<string>, value: real)
    returns (pairs: Arr<int, Arr<int, real>>)
    ensures pairs == AddPairRow(p, mainId, cons, value)
  {
    pairs := p;
    for k := 0 to |cons|
      invariant pairs == AddPairRow(p, mainId, cons[..k], value)
    {
      var pairId := LabelId(cons[k]);
      assert cons[..k + 1][..k] == cons[..k];
      var row := Get(pairs, mainId, []);
      pairs := Set(pairs, mainId, Set(row, pairId, RealMax(Get(row, pairId, 0.0), value)));
    }
    assert cons[..|cons|] == cons;
  }

  /** The loop over one rule's antecedent filling the pair table. */
  method CreditPairs(p: Arr<int, Arr<int, real>>, ant: seq<string>, cons: seq<string>, value: real)
    returns (pairs: Arr<int, Arr<int, real>>)
    ensures pairs == AddPairs(p, ant, cons, value)
  {
    pairs := p;
    for j := 0 to |ant|
      invariant pairs == AddPairs(p, ant[..j], cons, value)
    {
      assert ant[..j + 1][..j] == ant[..j];
      pairs := CreditPairRow(pairs, LabelId(ant[j]), cons, value);
    }
    assert ant[..|ant|] == ant;
  }

  /** The final loop normalising every main product's partner scores by their own maximum. */
  method NormalizeRows(p: Arr<int, Arr<int, real>>) returns (pairs: Arr<int, Arr<int, real>>)
    ensures pairs == NormalizedRows(p)
  {
    pairs := p;
    for i := 0 to |pairs|
      invariant |pairs| == |p|
      invariant forall j :: 0 <= j < i ==> pairs[j] == NormalizedRows(p)[j]
      invariant forall j :: i <= j < |pairs| ==> pairs[j] == p[j]
    {
      var row := NormalizeByMax(pairs[i].val);
      pairs := pairs[i := Entry(pairs[i].key, row)];
    }
  }

  /** `computeMBA` given the miner's rules: nothing for an empty transaction
      list, otherwise the normalised score and pair tables. */
  method ComputeMba(transactions: seq<seq<int>>, rules: seq<Rule>)
    returns (scores: Arr<int, real>, pairs: Arr<int, Arr<int, real>>)
    ensures transactions == [] ==> scores == [] && pairs == []
    ensures transactions != [] ==> scores == Normalized(RawScores(rules)) && pairs == NormalizedRows(RawPairs(rules))
  {
    if |transactions| == 0 {
      return [], [];
    }
    scores, pairs := [], [];
    for i := 0 to |rules|
      invariant scores == RawScores(rules[..i])
      invariant pairs == RawPairs(rules[..i])
    {
      var rule := rules[i];
      var value := Value(rule);
      scores := CreditAntecedent(scores, rule.antecedent, value);
      pairs := CreditPairs(pairs, rule.antecedent, rule.consequent, value);
      ghost var pre := rules[..i + 1];
      assert pre[|pre| - 1] == rule && pre[..|pre| - 1] == rules[..i];
      assert RawScores(pre) == AddScores(RawScores(rules[..i]), rule.antecedent, value);
      assert RawPairs(pre) == AddPairs(RawPairs(rules[..i]), rule.antecedent, rule.consequent, value);
    }
    assert rules[..|rules|] == rules;
    scores := NormalizeByMax(scores);
    pairs := NormalizeRows(pairs);
  }
  // ---------------------------------------------------------------------
  // What the raw tables hold, independently of the loops that build them.

  /** How many labels of the list decode to id. */
  function Occurrences(labels: seq<string>, id: int): nat {
    if labels == [] then 0
    else Occurrences(labels[..|labels| - 1], id) + (if LabelId(labels[|labels| - 1]) == id then 1 else 0)
  }

  /** v credited once per label of the list that decodes to id. */
  function Credit(labels: seq<string>, id: int, v: real): real {
    if labels == [] then 0.0
    else Credit(labels[..|labels| - 1], id, v) + (if LabelId(labels[|labels| - 1]) == id then v else 0.0)
  }

  /** The sum of support × confidence over the rules, once per antecedent occurrence of id. */
  function ScoreSum(rules: seq<Rule>, id: int): real {
    if rules == [] then 0.0
    else ScoreSum(rules[..|rules| - 1], id) + Credit(rules[|rules| - 1].antecedent, id, Value(rules[|rules| - 1]))
  }

  /** Crediting v per occurrence is v times the number of occurrences. */
  lemma {:induction false} CreditIsMultiple(labels: seq<string>, id: int, v: real)
    ensures Credit(labels, id, v) == v * Occurrences(labels, id) as real
  {
    CreditRepeats(labels, id, v);
    RepeatIsProduct(v, Occurrences(labels, id));
  }

  /** v added n times. */
  function Repeat(v: real, n: nat): real {
    if n == 0 then 0.0 else Repeat(v, n - 1) + v
  }

  lemma {:induction false} CreditRepeats(labels: seq<string>, id: int, v: real)
    ensures Credit(labels, id, v) == Repeat(v, Occurrences(labels, id))
  {
    if labels != [] {
      CreditRepeats(labels[..|labels| - 1], id, v);
    }
  }

  lemma {:induction false} RepeatIsProduct(v: real, n: nat)
    ensures Repeat(v, n) == v * n as real
  {
    if n > 0 {
      RepeatIsProduct(v, n - 1);
      assert v * n as real == v * (n - 1) as real + v;
    }
  }

  predicate Mentions(labels: seq<string>, id: int) {
    exists j :: 0 <= j < |labels| && LabelId(labels[j]) == id
  }

  ghost predicate InSomeAntecedent(rules: seq<Rule>, id: int) {
    exists i :: 0 <= i < |rules| && Mentions(rules[i].antecedent, id)
  }

  lemma {:induction false} AddScoresGet(s: Arr<int, real>, labels: seq<string>, v: real, id: int)
    ensures Get(AddScores(s, labels, v), id, 0.0) == Get(s, id, 0.0) + Credit(labels, id, v)
  {
    if labels != [] {
      var init := labels[..|labels| - 1];
      var s' := AddScores(s, init, v);
      var k := LabelId(labels[|labels| - 1]);
      AddScoresGet(s, init, v, id);
      GetSet(s', k, Get(s', k, 0.0) + v, id, 0.0);
    }
  }

  /** A product's raw score is the sum of support × confidence over the rules
      naming it in the antecedent. */
  lemma {:induction false} RawScoreIsSum(rules: seq<Rule>, id: int)
    ensures Get(RawScores(rules), id, 0.0) == ScoreSum(rules, id)
  {
    if rules != [] {
      var r := rules[|rules| - 1];
      RawScoreIsSum(rules[..|rules| - 1], id);
      AddScoresGet(RawScores(rules[..|rules| - 1]), r.antecedent, Value(r), id);
    }
  }

  lemma {:induction false} AddScoresKeys(s: Arr<int, real>, labels: seq<string>, v: real, id: int)
    ensures HasKey(AddScores(s, labels, v), id) <==> HasKey(s, id) || Mentions(labels, id)
  {
    if labels != [] {
      var s' := AddScores(s, labels[..|labels| - 1], v);
      var k := LabelId(labels[|labels| - 1]);
      AddScoresKeys(s, labels[..|labels| - 1], v, id);
      HasKeySet(s', k, Get(s', k, 0.0) + v, id);
      MentionsLast(labels, id);
    }
  }

  /** A label of a non-empty list decodes to id exactly when one before the
      last does or the last does. */
  lemma {:induction false} MentionsLast(labels: seq<string>, id: int)
    requires labels != []
    ensures Mentions(labels, id) <==> Mentions(labels[..|labels| - 1], id) || LabelId(labels[|labels| - 1]) == id
  {
    var init := labels[..|labels| - 1];
    if Mentions(labels, id) {
      var j :| 0 <= j < |labels| && LabelId(labels[j]) == id;
      if j < |init| {
        assert labels[j] == init[j];
      }
    }
    if Mentions(init, id) {
      var j :| 0 <= j < |init| && LabelId(init[j]) == id;
      assert labels[j] == init[j];
    }
  }

  /** A product has a score entry exactly when some rule names it in its
      antecedent; appearing only in consequents gives no entry. */
  lemma {:induction false} RawScoreKeys(rules: seq<Rule>, id: int)
    ensures HasKey(RawScores(rules), id) <==> InSomeAntecedent(rules, id)
  {
    if rules != [] {
      var init := rules[..|rules| - 1];
      var r := rules[|rules| - 1];
      RawScoreKeys(init, id);
      AddScoresKeys(RawScores(init), r.antecedent, Value(r), id);
      assert forall i :: 0 <= i < |init| ==> init[i] == rules[i];
      if InSomeAntecedent(rules, id) && !InSomeAntecedent(init, id) {
        var i :| 0 <= i < |rules| && Mentions(rules[i].antecedent, id);
        assert i == |rules| - 1;
      }
    } else {
      assert Keys(RawScores(rules)) == [];
    }
  }

  /** The strongest support × confidence over the rules with a in the
      antecedent and c in the consequent; 0 when there is none. */
  function PairMax(rules: seq<Rule>, a: int, c: int): real {
    if rules == [] then 0.0
    else
      var r := rules[|rules| - 1];
      var m := PairMax(rules[..|rules| - 1], a, c);
      if Mentions(r.antecedent, a) && Mentions(r.consequent, c) then RealMax(m, Value(r)) else m
  }

  function PairGet(p: Arr<int, Arr<int, real>>, a: int, c: int): real {
    Get(Get(p, a, []), c, 0.0)
  }

  lemma {:induction false} AddPairRowGet(p: Arr<int, Arr<int, real>>, a: int, cons: seq<string>, v: real, a': int, c': int)
    ensures PairGet(AddPairRow(p, a, cons, v), a', c')
         == if a' == a && Mentions(cons, c') then RealMax(PairGet(p, a', c'), v) else PairGet(p, a', c')
  {
    if cons != [] {
      var init := cons[..|cons| - 1];
      var q := AddPairRow(p, a, init, v);
      var c := LabelId(cons[|cons| - 1]);
      var row := Get(q, a, []);
      AddPairRowGet(p, a, init, v, a', c');
      AddPairRowGet(p, a, init, v, a, c);
      var row' := Set(row, c, RealMax(Get(row, c, 0.0), v));
      GetSet(q, a, row', a', []);
      GetSet(row, c, RealMax(Get(row, c, 0.0), v), c', 0.0);
      assert forall j :: 0 <= j < |init| ==> init[j] == cons[j];
      if Mentions(cons, c') && !Mentions(init, c') {
        var j :| 0 <= j < |cons| && LabelId(cons[j]) == c';
        assert j == |cons| - 1;
      }
    }
  }

  lemma {:induction false} AddPairsGet(p: Arr<int, Arr<int, real>>, ants: seq<string>, cons: seq<string>, v: real, a': int, c': int)
    ensures PairGet(AddPairs(p, ants, cons, v), a', c')
         == if Mentions(ants, a') && Mentions(cons, c') then RealMax(PairGet(p, a', c'), v) else PairGet(p, a', c')
  {
    if ants != [] {
      var init := ants[..|ants| - 1];
      AddPairsGet(p, init, cons, v, a', c');
      AddPairRowGet(AddPairs(p, init, cons, v), LabelId(ants[|ants| - 1]), cons, v, a', c');
      assert forall j :: 0 <= j < |init| ==> init[j] == ants[j];
      if Mentions(ants, a') && !Mentions(init, a') {
        var j :| 0 <= j < |ants| && LabelId(ants[j]) == a';
        assert j == |ants| - 1;
      }
    }
  }

  /** pair[a][c] holds the strongest support × confidence among rules with a in
      the antecedent and c in the consequent. */
  lemma {:induction false} RawPairIsMax(rules: seq<Rule>, a: int, c: int)
    ensures PairGet(RawPairs(rules), a, c) == PairMax(rules, a, c)
  {
    if rules != [] {
      var r := rules[|rules| - 1];
      RawPairIsMax(rules[..|rules| - 1], a, c);
      AddPairsGet(RawPairs(rules[..|rules| - 1]), r.antecedent, r.consequent, Value(r), a, c);
    } else {
      assert Get(RawPairs(rules), a, []) == [];
    }
  }

  /** PairMax bounds every qualifying rule and is attained by one of them (or is 0). */
  lemma {:induction false} PairMaxIsMaximum(rules: seq<Rule>, a: int, c: int)
    ensures forall i :: 0 <= i < |rules| && Mentions(rules[i].antecedent, a) && Mentions(rules[i].consequent, c)
              ==> Value(rules[i]) <= PairMax(rules, a, c)
    ensures PairMax(rules, a, c) == 0.0
         || exists i :: 0 <= i < |rules| && Mentions(rules[i].antecedent, a) && Mentions(rules[i].consequent, c)
              && Value(rules[i]) == PairMax(rules, a, c)
  {
    if rules != [] {
      var init := rules[..|rules| - 1];
      PairMaxIsMaximum(init, a, c);
      assert forall i :: 0 <= i < |init| ==> init[i] == rules[i];
    }
  }

  // ---------------------------------------------------------------------
  // Bounds after normalisation.

  ghost predicate NonNegativeRules(rules: seq<Rule>) {
    forall i :: 0 <= i < |rules| ==> rules[i].support >= 0.0 && rules[i].confidence >= 0.0
  }

  lemma {:induction false} AddScoresNonNegative(s: Arr<int, real>, labels: seq<string>, v: real)
    requires NonNegative(s) && v >= 0.0
    ensures NonNegative(AddScores(s, labels, v))
  {
    if labels != [] {
      var s' := AddScores(s, labels[..|labels| - 1], v);
      var k := LabelId(labels[|labels| - 1]);
      AddScoresNonNegative(s, labels[..|labels| - 1], v);
      GetEntry(s', k, 0.0);
      SetEntries(s', k, Get(s', k, 0.0) + v);
      var r := Set(s', k, Get(s', k, 0.0) + v);
      forall i | 0 <= i < |r| ensures r[i].val >= 0.0 {
        assert r[i] in r;
      }
    }
  }

  lemma {:induction false} RawScoresNonNegative(rules: seq<Rule>)
    requires NonNegativeRules(rules)
    ensures NonNegative(RawScores(rules))
  {
    if rules != [] {
      var r := rules[|rules| - 1];
      var init := rules[..|rules| - 1];
      assert forall i :: 0 <= i < |init| ==> init[i] == rules[i];
      RawScoresNonNegative(init);
      AddScoresNonNegative(RawScores(init), r.antecedent, Value(r));
    }
  }

  ghost predicate NonNegativeRows(p: Arr<int, Arr<int, real>>) {
    forall i :: 0 <= i < |p| ==> NonNegative(p[i].val)
  }

  lemma {:induction false} AddPairRowNonNegative(p: Arr<int, Arr<int, real>>, a: int, cons: seq<string>, v: real)
    requires NonNegativeRows(p) && v >= 0.0
    ensures NonNegativeRows(AddPairRow(p, a, cons, v))
  {
    if cons != [] {
      var q := AddPairRow(p, a, cons[..|cons| - 1], v);
      AddPairRowNonNegative(p, a, cons[..|cons| - 1], v);
      var c := LabelId(cons[|cons| - 1]);
      var row := Get(q, a, []);
      GetEntry(q, a, []);
      assert NonNegative(row) by {
        if row != [] {
          var i :| 0 <= i < |q| && q[i] == Entry(a, row);
        }
      }
      var row' := Set(row, c, RealMax(Get(row, c, 0.0), v));
      SetEntries(row, c, RealMax(Get(row, c, 0.0), v));
      assert NonNegative(row') by {
        forall i | 0 <= i < |row'| ensures row'[i].val >= 0.0 {
          assert row'[i] in row';
        }
      }
      SetEntries(q, a, row');
      var r := Set(q, a, row');
      forall i | 0 <= i < |r| ensures NonNegative(r[i].val) {
        assert r[i] in r;
      }
    }
  }

  lemma {:induction false} AddPairsNonNegative(p: Arr<int, Arr<int, real>>, ants: seq<string>, cons: seq<string>, v: real)
    requires NonNegativeRows(p) && v >= 0.0
    ensures NonNegativeRows(AddPairs(p, ants, cons, v))
  {
    if ants != [] {
      AddPairsNonNegative(p, ants[..|ants| - 1], cons, v);
      AddPairRowNonNegative(AddPairs(p, ants[..|ants| - 1], cons, v), LabelId(ants[|ants| - 1]), cons, v);
    }
  }

  lemma {:induction false} RawPairsNonNegative(rules: seq<Rule>)
    requires NonNegativeRules(rules)
    ensures NonNegativeRows(RawPairs(rules))
  {
    if rules != [] {
      var r := rules[|rules| - 1];
      var init := rules[..|rules| - 1];
      assert forall i :: 0 <= i < |init| ==> init[i] == rules[i];
      RawPairsNonNegative(init);
      AddPairsNonNegative(RawPairs(init), r.antecedent, r.consequent, Value(r));
    }
  }

  /** With non-negative support and confidence every normalised product score
      and every normalised pair score lies in [0,1]. */
  lemma MbaInUnit(rules: seq<Rule>)
    requires NonNegativeRules(rules)
    ensures InUnit(Normalized(RawScores(rules)))
    ensures forall i :: 0 <= i < |NormalizedRows(RawPairs(rules))| ==> InUnit(NormalizedRows(RawPairs(rules))[i].val)
  {
    RawScoresNonNegative(rules);
    NormalizedBounds(RawScores(rules));
    RawPairsNonNegative(rules);
    var p := RawPairs(rules);
    forall i | 0 <= i < |p| ensures InUnit(NormalizedRows(p)[i].val) {
      NormalizedBounds(p[i].val);
    }
  }

  /** Each main product's strongest partner scores exactly 1 once normalised. */
  lemma PairRowReachesOne(rules: seq<Rule>, i: nat, j: nat)
    requires i < |RawPairs(rules)| && j < |RawPairs(rules)[i].val| && RawPairs(rules)[i].val[j].val > 0.0
    ensures exists k :: 0 <= k < |NormalizedRows(RawPairs(rules))[i].val| && NormalizedRows(RawPairs(rules))[i].val[k].val == 1.0
  {
    var p := RawPairs(rules);
    assert NormalizedRows(p)[i].val == Normalized(p[i].val);
    NormalizedReachesOne(p[i].val, j);
  }

  lemma ExampleLabels()
    ensures LabelId("p_1") == 1 && LabelId("p_2") == 2 && LabelId("p_3") == 3
  {
    LabelRoundTrip(1);
    LabelRoundTrip(2);
    LabelRoundTrip(3);
    assert Label(1) == "p_1" && Label(2) == "p_2" && Label(3) == "p_3";
  }

  lemma ExampleRawPairs()
    ensures RawPairs([Rule(["p_1"], ["p_2"], 0.2, 0.1), Rule(["p_1"], ["p_3"], 0.25, 0.2)])
         == [Entry(1, [Entry(2, 0.02), Entry(3, 0.05)])]
  {
    var r1 := Rule(["p_1"], ["p_2"], 0.2, 0.1);
    var r2 := Rule(["p_1"], ["p_3"], 0.25, 0.2);
    ExampleFirstRule();
    ExampleSecondRule();
    assert [r1, r2][..1] == [r1];
    assert Value(r2) == 0.05;
  }

  /** The first rule alone: A's row holds B = 0.2 × 0.1. */
  lemma ExampleFirstRule()
    ensures RawPairs([Rule(["p_1"], ["p_2"], 0.2, 0.1)]) == [Entry(1, [Entry(2, 0.02)])]
  {
    ExampleLabels();
    var r1 := Rule(["p_1"], ["p_2"], 0.2, 0.1);
    assert [r1][..0] == [];
    var p1 := AddPairRow([], 1, ["p_2"], 0.02);
    assert ["p_2"][..0] == [];
    assert p1 == [Entry(1, [Entry(2, 0.02)])];
    assert ["p_1"][..0] == [];
    assert AddPairs([], ["p_1"], ["p_2"], 0.02) == p1;
  }

  /** The second rule adds C = 0.25 × 0.2 to A's row. */
  lemma ExampleSecondRule()
    ensures AddPairs([Entry(1, [Entry(2, 0.02)])], ["p_1"], ["p_3"], 0.05)
         == [Entry(1, [Entry(2, 0.02), Entry(3, 0.05)])]
  {
    ExampleLabels();
    var p1 := [Entry(1, [Entry(2, 0.02)])];
    var p2 := AddPairRow(p1, 1, ["p_3"], 0.05);
    assert ["p_3"][..0] == [] && ["p_1"][..0] == [];
    var row1 := [Entry(2, 0.02)];
    assert Get(p1, 1, []) == row1;
    assert Get(row1, 3, 0.0) == 0.0;
    assert RealMax(0.0, 0.05) == 0.05;
    assert Set(row1, 3, 0.05) == [Entry(2, 0.02), Entry(3, 0.05)];
    assert AddPairRow(p1, 1, [], 0.05) == p1;
    assert p2 == Set(p1, 1, Set(row1, 3, 0.05));
  }

  lemma ExampleRowNormalised()
    ensures Normalized([Entry(2, 0.02), Entry(3, 0.05)]) == [Entry(2, 0.4), Entry(3, 1.0)]
  {
    var row := [Entry(2, 0.02), Entry(3, 0.05)];
    assert Values(row) == [0.02, 0.05];
    assert Values(row)[1..] == [0.05];
    assert MaxOf([0.05]) == 0.05;
    assert MaxOr1(Values(row)) == 0.05;
    assert Normalized(row) == ScaledBy(row, 0.05);
    assert Scale(0.02, 0.05) == 0.4 && Scale(0.05, 0.05) == 1.0;
  }

  /** Two rules with A in the antecedent, worth 0.02 (A → B) and 0.05 (A → C):
      A's partners normalise to B = 0.4 and C = 1.0. */
  lemma PairNormalisationExample()
    ensures NormalizedRows(RawPairs([Rule(["p_1"], ["p_2"], 0.2, 0.1), Rule(["p_1"], ["p_3"], 0.25, 0.2)]))
         == [Entry(1, [Entry(2, 0.4), Entry(3, 1.0)])]
  {
    ExampleRawPairs();
    ExampleRowNormalised();
  }
}
