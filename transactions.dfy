/** Transaction grouping (`getTransactions`): one itemset per sale id, then one
    per order id, each listing the product ids of that transaction's lines in
    row order, duplicates kept. */
module Transactions {
  import opened PhpArray
  import opened Rows

  /** `->groupBy(txId)->pluck('product_id')`: groups in order of first
      appearance of their transaction id. */
  function GroupsOf(lines: seq<Line>): Arr<int, seq<int>> {
    if lines == [] then []
    else
      var g := GroupsOf(lines[..|lines| - 1]);
      var l := lines[|lines| - 1];
      Set(g, l.txId, Get(g, l.txId, []) + [l.productId])
  }

  /** The product ids of the lines of transaction t, in row order. */
  function ProductsOf(lines: seq<Line>, t: int): seq<int> {
    if lines == [] then []
    else ProductsOf(lines[..|lines| - 1], t) + (if lines[|lines| - 1].txId == t then [lines[|lines| - 1].productId] else [])
  }

  function ProductIds(lines: seq<Line>): seq<int> {
    seq(|lines|, i requires 0 <= i < |lines| => lines[i].productId)
  }

  function ItemCount(txs: seq<seq<int>>): multiset<int> {
    if txs == [] then multiset{} else multiset(txs[0]) + ItemCount(txs[1..])
  }

  /** `getTransactions`: the two foreach loops appending one itemset per group. */
  method GetTransactions(sales: seq<Line>, orders: seq<Line>) returns (txs: seq<seq<int>>)
    ensures txs == Values(GroupsOf(sales)) + Values(GroupsOf(orders))
  {
    txs := [];
    var otc := GroupsOf(sales);
    for i := 0 to |otc|
      invariant txs == Values(otc[..i])
    {
      txs := txs + [otc[i].val];
    }
    assert otc[..|otc|] == otc;
    var online := GroupsOf(orders);
    for i := 0 to |online|
      invariant txs == Values(otc) + Values(online[..i])
    {
      txs := txs + [online[i].val];
    }
    assert online[..|online|] == online;
  }

  /** The itemset of transaction t holds exactly the product ids of t's lines, in order. */
  lemma {:induction false} GroupContents(lines: seq<Line>, t: int)
    ensures Get(GroupsOf(lines), t, []) == ProductsOf(lines, t)
  {
    if lines != [] {
      var init := lines[..|lines| - 1];
      var l := lines[|lines| - 1];
      GroupContents(init, t);
      GetSet(GroupsOf(init), l.txId, Get(GroupsOf(init), l.txId, []) + [l.productId], t, []);
      GroupContents(init, l.txId);
    }
  }

  /** There is an itemset for t exactly when some line belongs to t. */
  lemma {:induction false} GroupKeys(lines: seq<Line>, t: int)
    ensures HasKey(GroupsOf(lines), t) <==> exists i :: 0 <= i < |lines| && lines[i].txId == t
  {
    if lines != [] {
      var init := lines[..|lines| - 1];
      var l := lines[|lines| - 1];
      var g := GroupsOf(init);
      GroupKeys(init, t);
      KeysSet(g, l.txId, Get(g, l.txId, []) + [l.productId]);
      LinesOfLast(init, l, t);
      assert lines == init + [l];
    }
  }

  /** Some line of init + [l] belongs to t exactly when one of init does or l does. */
  lemma LinesOfLast(init: seq<Line>, l: Line, t: int)
    ensures (exists i :: 0 <= i < |init + [l]| && (init + [l])[i].txId == t)
        <==> (exists i :: 0 <= i < |init| && init[i].txId == t) || l.txId == t
  {
    var lines := init + [l];
    if exists i :: 0 <= i < |lines| && lines[i].txId == t {
      var i :| 0 <= i < |lines| && lines[i].txId == t;
      if i < |init| {
        assert init[i] == lines[i];
      } else {
        assert lines[i] == l;
      }
    }
    if exists i :: 0 <= i < |init| && init[i].txId == t {
      var i :| 0 <= i < |init| && init[i].txId == t;
      assert lines[i] == init[i];
    }
    if l.txId == t {
      assert lines[|init|] == l;
    }
  }

  /** Each transaction id gets one itemset. */
  lemma {:induction false} GroupsDistinct(lines: seq<Line>)
    ensures DistinctKeys(GroupsOf(lines))
  {
    if lines != [] {
      var init := lines[..|lines| - 1];
      var l := lines[|lines| - 1];
      GroupsDistinct(init);
      DistinctSet(GroupsOf(init), l.txId, Get(GroupsOf(init), l.txId, []) + [l.productId]);
    }
  }

  lemma {:induction false} ProductsOfNonEmpty(lines: seq<Line>, t: int, i: nat)
    requires i < |lines| && lines[i].txId == t
    ensures ProductsOf(lines, t) != []
  {
    if i < |lines| - 1 {
      ProductsOfNonEmpty(lines[..|lines| - 1], t, i);
    }
  }

  /** No itemset is empty. */
  lemma GroupsNonEmpty(lines: seq<Line>)
    ensures forall k :: 0 <= k < |GroupsOf(lines)| ==> GroupsOf(lines)[k].val != []
  {
    var g := GroupsOf(lines);
    GroupsDistinct(lines);
    forall k | 0 <= k < |g| ensures g[k].val != [] {
      var t := g[k].key;
      assert Keys(g)[k] == t;
      GroupKeys(lines, t);
      var i :| 0 <= i < |lines| && lines[i].txId == t;
      GetAt(g, k, []);
      GroupContents(lines, t);
      ProductsOfNonEmpty(lines, t, i);
    }
  }

  function GroupItems(g: Arr<int, seq<int>>): multiset<int> {
    if g == [] then multiset{} else multiset(g[0].val) + GroupItems(g[1..])
  }

  lemma {:induction false} GroupItemsAppend(g: Arr<int, seq<int>>, k: int, x: int)
    ensures GroupItems(Set(g, k, Get(g, k, []) + [x])) == GroupItems(g) + multiset{x}
  {
    if g != [] && g[0].key != k {
      GroupItemsAppend(g[1..], k, x);
      assert Set(g, k, Get(g, k, []) + [x])[1..] == Set(g[1..], k, Get(g[1..], k, []) + [x]);
    } else if g != [] {
      assert Set(g, k, Get(g, k, []) + [x])[1..] == g[1..];
    }
  }

  /** Grouping loses and invents no line: the itemsets hold every product id once per line. */
  lemma {:induction false} GroupsCoverLines(lines: seq<Line>)
    ensures GroupItems(GroupsOf(lines)) == multiset(ProductIds(lines))
  {
    if lines != [] {
      var init := lines[..|lines| - 1];
      var l := lines[|lines| - 1];
      GroupsCoverLines(init);
      GroupItemsAppend(GroupsOf(init), l.txId, l.productId);
      ProductIdsLast(lines);
    }
  }

  lemma ProductIdsLast(lines: seq<Line>)
    requires lines != []
    ensures multiset(ProductIds(lines)) == multiset(ProductIds(lines[..|lines| - 1])) + multiset{lines[|lines| - 1].productId}
  {
    assert ProductIds(lines) == ProductIds(lines[..|lines| - 1]) + [lines[|lines| - 1].productId];
  }

  lemma {:induction false} ItemCountValues(g: Arr<int, seq<int>>)
    ensures ItemCount(Values(g)) == GroupItems(g)
  {
    if g != [] {
      assert Values(g)[1..] == Values(g[1..]);
      ItemCountValues(g[1..]);
    }
  }

  lemma {:induction false} ItemCountConcat(a: seq<seq<int>>, b: seq<seq<int>>)
    ensures ItemCount(a + b) == ItemCount(a) + ItemCount(b)
  {
    if a != [] {
      assert (a + b)[1..] == a[1..] + b;
      ItemCountConcat(a[1..], b);
    } else {
      assert a + b == b;
    }
  }

  /** All itemsets together hold the product ids of every sale and order line. */
  lemma TransactionsCoverLines(sales: seq<Line>, orders: seq<Line>)
    ensures ItemCount(Values(GroupsOf(sales)) + Values(GroupsOf(orders)))
         == multiset(ProductIds(sales)) + multiset(ProductIds(orders))
  {
    ItemCountConcat(Values(GroupsOf(sales)), Values(GroupsOf(orders)));
    ItemCountValues(GroupsOf(sales));
    ItemCountValues(GroupsOf(orders));
    GroupsCoverLines(sales);
    GroupsCoverLines(orders);
  }
}
