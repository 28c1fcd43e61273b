/** Channel mix (`computeChannelSales`): for every catalog product, the shares
    of its units sold over the counter (sale lines) and online (order lines). */
module Channel {
  import opened PhpArray
  import opened Rows

  /** `['otc_ratio' => …, 'online_ratio' => …, 'total_sales' => …]`; the
      total is absent for a product that sold nothing. */
  datatype ChannelMix = ChannelMix(otcRatio: real, onlineRatio: real, totalSales: Option<int>)

  /** The mix for one product from its two unit totals. */
  function MixOf(otcQty: int, onlineQty: int): ChannelMix {
    var total := otcQty + onlineQty;
    if total == 0 then ChannelMix(0.0, 0.0, None)
    else ChannelMix(otcQty as real / total as real, onlineQty as real / total as real, Some(total))
  }

  function MixOfProduct(sales: seq<Line>, orders: seq<Line>): Product -> ChannelMix {
    (p: Product) => MixOf(SumQty(sales, p.id), SumQty(orders, p.id))
  }

  /** The channel table: one mix per catalog product. */
  function ChannelTable(catalog: seq<Product>, sales: seq<Line>, orders: seq<Line>): Arr<int, ChannelMix> {
    PerProduct(catalog, MixOfProduct(sales, orders))
  }

  /** `computeChannelSales`: the loop over the catalog. */
  method ComputeChannelSales(catalog: seq<Product>, sales: seq<Line>, orders: seq<Line>)
    returns (scores: Arr<int, ChannelMix>)
    ensures scores == ChannelTable(catalog, sales, orders)
  {
    scores := [];
    for i := 0 to |catalog|
      invariant scores == PerProduct(catalog[..i], MixOfProduct(sales, orders))
    {
      var id := catalog[i].id;
      var otcQty := SumQty(sales, id);
      var onlineQty := SumQty(orders, id);
      var total := otcQty + onlineQty;
      var mix;
      if total == 0 {
        mix := ChannelMix(0.0, 0.0, None);
      } else {
        mix := ChannelMix(otcQty as real / total as real, onlineQty as real / total as real, Some(total));
      }
      assert catalog[..i + 1][..i] == catalog[..i];
      scores := Set(scores, id, mix);
    }
    assert catalog[..|catalog|] == catalog;
  }

  /** A product that sold nothing has both shares 0 and no total. */
  lemma MixUnsold(otcQty: int, onlineQty: int)
    requires otcQty + onlineQty == 0
    ensures MixOf(otcQty, onlineQty) == ChannelMix(0.0, 0.0, None)
  {
  }

  /** A product that sold: with non-negative totals both shares lie in [0,1],
      they add up to 1 and the total is the sum of the two channels. */
  lemma MixSold(otcQty: int, onlineQty: int)
    requires otcQty >= 0 && onlineQty >= 0 && otcQty + onlineQty > 0
    ensures var m := MixOf(otcQty, onlineQty);
      0.0 <= m.otcRatio <= 1.0 && 0.0 <= m.onlineRatio <= 1.0
      && m.otcRatio + m.onlineRatio == 1.0
      && m.totalSales == Some(otcQty + onlineQty)
      && m.otcRatio * (otcQty + onlineQty) as real == otcQty as real
  {
    var t := (otcQty + onlineQty) as real;
    var a, b := otcQty as real, onlineQty as real;
    assert a / t + b / t == (a + b) / t;
    DivBounds(a, t);
    DivBounds(b, t);
  }

  lemma DivBounds(a: real, t: real)
    requires 0.0 <= a <= t && t > 0.0
    ensures 0.0 <= a / t <= 1.0 && a / t * t == a
  {
  }

  /** Each catalog product's entry is the mix of its own sale and order totals. */
  lemma ChannelEntry(catalog: seq<Product>, sales: seq<Line>, orders: seq<Line>, i: nat)
    requires DistinctIds(catalog) && i < |catalog|
    ensures Get(ChannelTable(catalog, sales, orders), catalog[i].id, ChannelMix(0.0, 0.0, None))
         == MixOf(SumQty(sales, catalog[i].id), SumQty(orders, catalog[i].id))
  {
    PerProductGet(catalog, MixOfProduct(sales, orders), i, ChannelMix(0.0, 0.0, None));
  }

  /** The table covers the catalog exactly, in catalog order. */
  lemma ChannelKeys(catalog: seq<Product>, sales: seq<Line>, orders: seq<Line>)
    requires DistinctIds(catalog)
    ensures Keys(ChannelTable(catalog, sales, orders)) == CatalogIds(catalog)
  {
    PerProductKeys(catalog, MixOfProduct(sales, orders));
  }

  /** A catalog product absent from both channels has the empty mix. */
  lemma ChannelUnsoldProduct(catalog: seq<Product>, sales: seq<Line>, orders: seq<Line>, i: nat)
    requires DistinctIds(catalog) && i < |catalog|
    requires forall j :: 0 <= j < |sales| ==> sales[j].productId != catalog[i].id
    requires forall j :: 0 <= j < |orders| ==> orders[j].productId != catalog[i].id
    ensures Get(ChannelTable(catalog, sales, orders), catalog[i].id, ChannelMix(1.0, 1.0, None)) == ChannelMix(0.0, 0.0, None)
  {
    PerProductGet(catalog, MixOfProduct(sales, orders), i, ChannelMix(1.0, 1.0, None));
    SumQtyAbsent(sales, catalog[i].id);
    SumQtyAbsent(orders, catalog[i].id);
  }
}
