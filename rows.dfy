/** The rows the service reads from its data store, given here as in-memory
    sequences, and the `SUM(quantity) ... GROUP BY product_id` totals over them. */
module Rows {
  import opened PhpArray

  /** A calendar month; `YEAR(...)` and `MONTH(...)` of a timestamp. */
  datatype YearMonth = YearMonth(year: int, month: int)

  /** A catalog row of `products`. A NULL `low_stock_warning_threshold` compares
      like 0 in PHP and is given as 0 here. */
  datatype Product = Product(id: int, name: string, description: string, threshold: int)

  /** A line of `sale_items` (with its sale's `datetime_sold`) or of
      `order_items` (with its order's `datetime_order`). */
  datatype Line = Line(txId: int, productId: int, quantity: int, when: YearMonth)

  /** A row of `stocks`. */
  datatype StockRow = StockRow(productId: int, quantity: int)

  function CatalogIds(catalog: seq<Product>): (ids: seq<int>)
    ensures |ids| == |catalog|
    ensures forall i :: 0 <= i < |catalog| ==> ids[i] == catalog[i].id
  {
    seq(|catalog|, i requires 0 <= i < |catalog| => catalog[i].id)
  }

  /** Product ids are the table's primary key. */
  ghost predicate DistinctIds(catalog: seq<Product>) {
    forall i, j :: 0 <= i < j < |catalog| ==> catalog[i].id != catalog[j].id
  }

  /** `SUM(quantity)` over the lines of one product (0 when there are none). */
  function SumQty(lines: seq<Line>, id: int): int {
    if lines == [] then 0
    else SumQty(lines[..|lines| - 1], id) + (if lines[|lines| - 1].productId == id then lines[|lines| - 1].quantity else 0)
  }

  /** `SUM(quantity)` over the stock rows of one product (0 when there are none). */
  function SumStock(rows: seq<StockRow>, id: int): int {
    if rows == [] then 0
    else SumStock(rows[..|rows| - 1], id) + (if rows[|rows| - 1].productId == id then rows[|rows| - 1].quantity else 0)
  }

  ghost predicate NonNegativeLines(lines: seq<Line>) {
    forall i :: 0 <= i < |lines| ==> lines[i].quantity >= 0
  }

  lemma NonNegativeInit(lines: seq<Line>)
    requires lines != [] && NonNegativeLines(lines)
    ensures NonNegativeLines(lines[..|lines| - 1])
  {
    var init := lines[..|lines| - 1];
    forall i | 0 <= i < |init| ensures init[i].quantity >= 0 {
      assert init[i] == lines[i];
    }
  }

  lemma {:induction false} NonNegativeConcat(a: seq<Line>, b: seq<Line>)
    requires NonNegativeLines(a) && NonNegativeLines(b)
    ensures NonNegativeLines(a + b)
  {
    forall i | 0 <= i < |a + b| ensures (a + b)[i].quantity >= 0 {
      if i >= |a| {
        assert (a + b)[i] == b[i - |a|];
      }
    }
  }

  lemma {:induction false} SumQtyNonNegative(lines: seq<Line>, id: int)
    requires NonNegativeLines(lines)
    ensures SumQty(lines, id) >= 0
  {
    if lines != [] {
      SumQtyNonNegative(lines[..|lines| - 1], id);
    }
  }

  /** A product with no lines sums to 0. */
  lemma {:induction false} SumQtyAbsent(lines: seq<Line>, id: int)
    requires forall i :: 0 <= i < |lines| ==> lines[i].productId != id
    ensures SumQty(lines, id) == 0
  {
    if lines != [] {
      SumQtyAbsent(lines[..|lines| - 1], id);
    }
  }

  /** `foreach ($products as $id) { $scores[$id] = f(...); }`: one entry per
      catalog product, in catalog order. */
  function PerProduct<V>(catalog: seq<Product>, f: Product -> V): Arr<int, V> {
    if catalog == [] then []
    else Set(PerProduct(catalog[..|catalog| - 1], f), catalog[|catalog| - 1].id, f(catalog[|catalog| - 1]))
  }

  /** The table has an entry for exactly the catalog's products, in catalog order. */
  lemma {:induction false} PerProductKeys<V>(catalog: seq<Product>, f: Product -> V)
    requires DistinctIds(catalog)
    ensures Keys(PerProduct(catalog, f)) == CatalogIds(catalog)
  {
    if catalog != [] {
      var init := catalog[..|catalog| - 1];
      var last := catalog[|catalog| - 1];
      assert DistinctIds(init);
      PerProductKeys(init, f);
      KeysSet(PerProduct(init, f), last.id, f(last));
      assert !HasKey(PerProduct(init, f), last.id);
      assert CatalogIds(catalog) == CatalogIds(init) + [last.id];
    }
  }

  /** Each catalog product's entry is f of that product. */
  lemma {:induction false} PerProductGet<V>(catalog: seq<Product>, f: Product -> V, i: nat, d: V)
    requires DistinctIds(catalog) && i < |catalog|
    ensures Get(PerProduct(catalog, f), catalog[i].id, d) == f(catalog[i])
  {
    var init := catalog[..|catalog| - 1];
    var last := catalog[|catalog| - 1];
    GetSet(PerProduct(init, f), last.id, f(last), catalog[i].id, d);
    if i < |catalog| - 1 {
      assert DistinctIds(init);
      assert catalog[i] == init[i];
      PerProductGet(init, f, i, d);
    }
  }

  /** A product outside the catalog has no entry. */
  lemma {:induction false} PerProductMissing<V>(catalog: seq<Product>, f: Product -> V, id: int)
    requires id !in CatalogIds(catalog)
    ensures !HasKey(PerProduct(catalog, f), id)
  {
    if catalog != [] {
      var init := catalog[..|catalog| - 1];
      var last := catalog[|catalog| - 1];
      assert CatalogIds(catalog) == CatalogIds(init) + [last.id];
      PerProductMissing(init, f, id);
      KeysSet(PerProduct(init, f), last.id, f(last));
    }
  }

  /** Every value in the table is f of some catalog product. */
  lemma {:induction false} PerProductValues<V>(catalog: seq<Product>, f: Product -> V)
    ensures forall e :: e in PerProduct(catalog, f) ==> exists i :: 0 <= i < |catalog| && e.val == f(catalog[i])
  {
    if catalog != [] {
      var init := catalog[..|catalog| - 1];
      var last := catalog[|catalog| - 1];
      PerProductValues(init, f);
      SetEntries(PerProduct(init, f), last.id, f(last));
      forall e | e in PerProduct(catalog, f) ensures exists i :: 0 <= i < |catalog| && e.val == f(catalog[i]) {
        if e in PerProduct(init, f) {
          var i :| 0 <= i < |init| && e.val == f(init[i]);
          assert init[i] == catalog[i];
        } else {
          assert e.val == f(catalog[|catalog| - 1]);
        }
      }
    }
  }

  /** Entries keyed by the first i catalog ids do not yet hold the id of product i. */
  lemma FreshId<V>(catalog: seq<Product>, es: Arr<int, V>, i: nat)
    requires DistinctIds(catalog) && i < |catalog| && |es| == i
    requires forall k :: 0 <= k < i ==> es[k].key == catalog[k].id
    ensures !HasKey(es, catalog[i].id)
  {
  }
}
