/** Stock factor (`computeStockFactor`): low stock relative to a product's
    warning threshold gives a high score, no stock gives 0. */
module Stock {
  import opened PhpArray
  import opened Rows

  /** The score for one product from its summed stock and its threshold. */
  function StockScore(qty: int, threshold: int): real {
    if qty <= 0 then 0.0
    else if threshold <= 0 then 0.3
    else
      var ratio := qty as real / threshold as real;
      if ratio <= 1.0 then 1.0
      else if ratio <= 2.0 then 0.7
      else if ratio <= 3.0 then 0.4
      else 0.2
  }

  function StockOfProduct(stock: seq<StockRow>): Product -> real {
    (p: Product) => StockScore(SumStock(stock, p.id), p.threshold)
  }

  function StockTable(catalog: seq<Product>, stock: seq<StockRow>): Arr<int, real> {
    PerProduct(catalog, StockOfProduct(stock))
  }

  /** `computeStockFactor`: the loop over the products' thresholds. */
  method ComputeStockFactor(catalog: seq<Product>, stock: seq<StockRow>) returns (scores: Arr<int, real>)
    ensures scores == StockTable(catalog, stock)
  {
    scores := [];
    for i := 0 to |catalog|
      invariant scores == PerProduct(catalog[..i], StockOfProduct(stock))
    {
      var id, threshold := catalog[i].id, catalog[i].threshold;
      var qty := SumStock(stock, id);
      var score;
      if qty <= 0 {
        score := 0.0;
      } else if threshold <= 0 {
        score := 0.3;
      } else {
        var ratio := qty as real / threshold as real;
        if ratio <= 1.0 {
          score := 1.0;
        } else if ratio <= 2.0 {
          score := 0.7;
        } else if ratio <= 3.0 {
          score := 0.4;
        } else {
          score := 0.2;
        }
      }
      assert catalog[..i + 1][..i] == catalog[..i];
      scores := Set(scores, id, score);
    }
    assert catalog[..|catalog|] == catalog;
  }

  lemma RatioAtMost(qty: int, threshold: int, k: int)
    requires threshold > 0
    ensures qty as real / threshold as real <= k as real <==> qty <= k * threshold
  {
    var t := threshold as real;
    assert qty as real / t * t == qty as real;
    assert (k * threshold) as real == k as real * t;
  }

  /** The score bands in whole units: at most the threshold gives 1.0, at most
      twice it 0.7, at most three times it 0.4, beyond that 0.2. */
  lemma StockBands(qty: int, threshold: int)
    requires qty > 0 && threshold > 0
    ensures StockScore(qty, threshold) == 1.0 <==> qty <= threshold
    ensures StockScore(qty, threshold) == 0.7 <==> threshold < qty <= 2 * threshold
    ensures StockScore(qty, threshold) == 0.4 <==> 2 * threshold < qty <= 3 * threshold
    ensures StockScore(qty, threshold) == 0.2 <==> 3 * threshold < qty
  {
    RatioAtMost(qty, threshold, 1);
    RatioAtMost(qty, threshold, 2);
    RatioAtMost(qty, threshold, 3);
  }

  /** No stock, or a negative total, means the product is not pushed. */
  lemma StockEmpty(qty: int, threshold: int)
    requires qty <= 0
    ensures StockScore(qty, threshold) == 0.0
  {
  }

  /** With stock but no usable threshold the fallback score is 0.3. */
  lemma StockNoThreshold(qty: int, threshold: int)
    requires qty > 0 && threshold <= 0
    ensures StockScore(qty, threshold) == 0.3
  {
  }

  /** The factor is one of the six levels and always in [0,1]. */
  lemma StockLevels(qty: int, threshold: int)
    ensures StockScore(qty, threshold) in {0.0, 0.2, 0.3, 0.4, 0.7, 1.0}
    ensures 0.0 <= StockScore(qty, threshold) <= 1.0
  {
  }

  /** At a fixed positive threshold, more stock never gives a higher score. */
  lemma StockMonotone(q1: int, q2: int, threshold: int)
    requires 0 < q1 <= q2 && threshold > 0
    ensures StockScore(q2, threshold) <= StockScore(q1, threshold)
  {
    StockBands(q1, threshold);
    StockBands(q2, threshold);
  }

  /** Each catalog product's entry is the score of its own summed stock and threshold. */
  lemma StockEntry(catalog: seq<Product>, stock: seq<StockRow>, i: nat)
    requires DistinctIds(catalog) && i < |catalog|
    ensures Get(StockTable(catalog, stock), catalog[i].id, -1.0) == StockScore(SumStock(stock, catalog[i].id), catalog[i].threshold)
  {
    PerProductGet(catalog, StockOfProduct(stock), i, -1.0);
  }

  lemma StockKeys(catalog: seq<Product>, stock: seq<StockRow>)
    requires DistinctIds(catalog)
    ensures Keys(StockTable(catalog, stock)) == CatalogIds(catalog)
  {
    PerProductKeys(catalog, StockOfProduct(stock));
  }

  /** Every entry of the table lies in [0,1]. */
  lemma StockTableInUnit(catalog: seq<Product>, stock: seq<StockRow>)
    ensures forall e :: e in StockTable(catalog, stock) ==> 0.0 <= e.val <= 1.0
  {
    PerProductValues(catalog, StockOfProduct(stock));
    forall e | e in StockTable(catalog, stock) ensures 0.0 <= e.val <= 1.0 {
      var i :| 0 <= i < |catalog| && e.val == StockOfProduct(stock)(catalog[i]);
      StockLevels(SumStock(stock, catalog[i].id), catalog[i].threshold);
    }
  }
}
