/** The monthly aggregation shared by the seasonality, trend and forecast
    stages: `$monthly[$pid][$ym] += (float)$r->qty` over the sale rows and then
    the order rows. Months are keyed by `sprintf('%04d-%02d', $y, $m)`; the
    model keys them by the month itself and proves that the string order of
    those keys is the chronological order, which is what `ksort` and `rsort`
    rely on. */
module Monthly {
  import opened PhpArray
  import opened Rows
  import opened Labels
  import opened Sorting

  // ---------------------------------------------------------------------
  // Month keys.

  function Pow10(w: nat): (p: nat)
    ensures p >= 1
  {
    if w == 0 then 1 else 10 * Pow10(w - 1)
  }

  /** `sprintf('%0{w}d', n)` for a number with at most w digits. */
  function Pad(n: nat, w: nat): (s: string)
    ensures |s| == w
  {
    if w == 0 then [] else Pad(n / 10, w - 1) + [DigitChar(n % 10)]
  }

  /** What `YEAR(...)` and `MONTH(...)` return. */
  predicate ValidMonth(ym: YearMonth) {
    0 <= ym.year <= 9999 && 1 <= ym.month <= 12
  }

  /** `sprintf('%04d-%02d', $y, $m)` */
  function MonthKey(ym: YearMonth): (s: string)
    requires ValidMonth(ym)
    ensures |s| == 7
  {
    Pad(ym.year, 4) + "-" + Pad(ym.month, 2)
  }

  /** Months counted from year 0: the chronological order. */
  function MonthIndex(ym: YearMonth): int {
    ym.year * 12 + ym.month - 1
  }

  /** `strcmp($a, $b) < 0` */
  predicate StrLess(a: string, b: string) {
    if a == [] then b != []
    else if b == [] then false
    else a[0] < b[0] || (a[0] == b[0] && StrLess(a[1..], b[1..]))
  }

  lemma {:induction false} StrLessConcat(x: string, y: string, u: string, v: string)
    requires |x| == |y|
    ensures StrLess(x + u, y + v) <==> StrLess(x, y) || (x == y && StrLess(u, v))
  {
    if x != [] {
      assert (x + u)[1..] == x[1..] + u;
      assert (y + v)[1..] == y[1..] + v;
      StrLessConcat(x[1..], y[1..], u, v);
      if x[0] == y[0] {
        assert x == y <==> x[1..] == y[1..] by {
          assert x == [x[0]] + x[1..];
          assert y == [y[0]] + y[1..];
        }
      }
    } else {
      assert x + u == u && y + v == v;
    }
  }

  lemma DigitCharOrder(a: nat, b: nat)
    requires a < 10 && b < 10
    ensures DigitChar(a) < DigitChar(b) <==> a < b
    ensures DigitChar(a) == DigitChar(b) <==> a == b
  {
  }

  /** Zero-padded numbers of the same width compare as strings as they do as numbers. */
  lemma {:induction false} PadOrder(a: nat, b: nat, w: nat)
    requires a < Pow10(w) && b < Pow10(w)
    ensures StrLess(Pad(a, w), Pad(b, w)) <==> a < b
    ensures Pad(a, w) == Pad(b, w) <==> a == b
  {
    if w == 0 {
      assert a == 0 && b == 0;
    } else {
      PadOrder(a / 10, b / 10, w - 1);
      DigitCharOrder(a % 10, b % 10);
      StrLessConcat(Pad(a / 10, w - 1), Pad(b / 10, w - 1), [DigitChar(a % 10)], [DigitChar(b % 10)]);
      assert StrLess([DigitChar(a % 10)], [DigitChar(b % 10)]) <==> a % 10 < b % 10 by {
        assert [DigitChar(a % 10)][1..] == [];
      }
      var pa, pb := Pad(a / 10, w - 1) + [DigitChar(a % 10)], Pad(b / 10, w - 1) + [DigitChar(b % 10)];
      assert pa == pb <==> Pad(a / 10, w - 1) == Pad(b / 10, w - 1) && DigitChar(a % 10) == DigitChar(b % 10) by {
        if pa == pb {
          assert pa[..w - 1] == Pad(a / 10, w - 1) && pb[..w - 1] == Pad(b / 10, w - 1);
          assert pa[w - 1] == DigitChar(a % 10) && pb[w - 1] == DigitChar(b % 10);
        }
      }
    }
  }

  /** The `%04d-%02d` keys sort as strings exactly as their months do in time,
      and distinct months have distinct keys. */
  lemma MonthKeyOrder(a: YearMonth, b: YearMonth)
    requires ValidMonth(a) && ValidMonth(b)
    ensures StrLess(MonthKey(a), MonthKey(b)) <==> MonthIndex(a) < MonthIndex(b)
    ensures MonthKey(a) == MonthKey(b) <==> a == b
  {
    assert Pow10(4) == 10000 && Pow10(2) == 100;
    PadOrder(a.year, b.year, 4);
    PadOrder(a.month, b.month, 2);
    MonthKeyParts(a);
    MonthKeyParts(b);
    StrLessConcat(Pad(a.year, 4), Pad(b.year, 4), "-" + Pad(a.month, 2), "-" + Pad(b.month, 2));
    StrLessConcat("-", "-", Pad(a.month, 2), Pad(b.month, 2));
    assert StrLess("-", "-") == false;
  }

  /** A key is the padded year, a dash and the padded month, at fixed places. */
  lemma MonthKeyParts(a: YearMonth)
    requires ValidMonth(a)
    ensures MonthKey(a) == Pad(a.year, 4) + ("-" + Pad(a.month, 2))
    ensures MonthKey(a)[..4] == Pad(a.year, 4) && MonthKey(a)[5..] == Pad(a.month, 2)
  {
    assert MonthKey(a) == Pad(a.year, 4) + ("-" + Pad(a.month, 2));
  }

  // ---------------------------------------------------------------------
  // The aggregation.

  /** One product's monthly quantities. */
  type Series = Arr<YearMonth, real>

  type MonthlyTable = Arr<int, Series>

  /** `$monthly[$pid][$ym] = ($monthly[$pid][$ym] ?? 0) + (float)$r->qty` */
  function AddRow(t: MonthlyTable, r: Line): MonthlyTable {
    var s := Get(t, r.productId, []);
    Set(t, r.productId, Set(s, r.when, Get(s, r.when, 0.0) + r.quantity as real))
  }

  /** The table after the rows, in order. */
  function MonthlyOf(rows: seq<Line>): MonthlyTable {
    if rows == [] then [] else AddRow(MonthlyOf(rows[..|rows| - 1]), rows[|rows| - 1])
  }

  /** The accumulation loop over `array_merge($rows1, $rows2)`. */
  method AggregateMonthly(rows: seq<Line>) returns (monthly: MonthlyTable)
    ensures monthly == MonthlyOf(rows)
  {
    monthly := [];
    for i := 0 to |rows|
      invariant monthly == MonthlyOf(rows[..i])
    {
      var r := rows[i];
      var series := Get(monthly, r.productId, []);
      series := Set(series, r.when, Get(series, r.when, 0.0) + r.quantity as real);
      monthly := Set(monthly, r.productId, series);
      assert rows[..i + 1][..i] == rows[..i];
    }
    assert rows[..|rows|] == rows;
  }

  /** The quantity of a product sold in a month, over all rows. */
  function MonthQty(rows: seq<Line>, pid: int, ym: YearMonth): int {
    if rows == [] then 0
    else
      var r := rows[|rows| - 1];
      MonthQty(rows[..|rows| - 1], pid, ym) + (if r.productId == pid && r.when == ym then r.quantity else 0)
  }

  /** Each cell holds the product's total for that month. */
  lemma {:induction false} MonthlyCell(rows: seq<Line>, pid: int, ym: YearMonth)
    ensures Get(Get(MonthlyOf(rows), pid, []), ym, 0.0) == MonthQty(rows, pid, ym) as real
  {
    if rows != [] {
      var init, r := rows[..|rows| - 1], rows[|rows| - 1];
      var t := MonthlyOf(init);
      var s := Get(t, r.productId, []);
      var s' := Set(s, r.when, Get(s, r.when, 0.0) + r.quantity as real);
      MonthlyCell(init, pid, ym);
      GetSet(t, r.productId, s', pid, []);
      GetSet(s, r.when, Get(s, r.when, 0.0) + r.quantity as real, ym, 0.0);
      if r.productId == pid {
        MonthlyCell(init, pid, r.when);
      }
    } else {
      assert Get([], ym, 0.0) == 0.0;
    }
  }

  ghost predicate Sold(rows: seq<Line>, pid: int) {
    exists i :: 0 <= i < |rows| && rows[i].productId == pid
  }

  ghost predicate SoldIn(rows: seq<Line>, pid: int, ym: YearMonth) {
    exists i :: 0 <= i < |rows| && rows[i].productId == pid && rows[i].when == ym
  }

  /** A product has a series exactly when it has a row. */
  lemma {:induction false} MonthlyKeys(rows: seq<Line>, pid: int)
    ensures HasKey(MonthlyOf(rows), pid) <==> Sold(rows, pid)
  {
    if rows != [] {
      var t := MonthlyOf(rows[..|rows| - 1]);
      var r := rows[|rows| - 1];
      var s := Get(t, r.productId, []);
      MonthlyKeys(rows[..|rows| - 1], pid);
      HasKeySet(t, r.productId, Set(s, r.when, Get(s, r.when, 0.0) + r.quantity as real), pid);
      SoldLast(rows, pid);
    }
  }

  /** A row of a non-empty list is of the product exactly when one before
      the last is or the last is. */
  lemma {:induction false} SoldLast(rows: seq<Line>, pid: int)
    requires rows != []
    ensures Sold(rows, pid) <==> Sold(rows[..|rows| - 1], pid) || rows[|rows| - 1].productId == pid
  {
    var init := rows[..|rows| - 1];
    if Sold(rows, pid) {
      var i :| 0 <= i < |rows| && rows[i].productId == pid;
      if i < |init| {
        assert init[i] == rows[i];
      }
    }
    if Sold(init, pid) {
      var i :| 0 <= i < |init| && init[i].productId == pid;
      assert rows[i] == init[i];
    }
  }

  /** A product's series has a month exactly when a row of it falls in that month. */
  lemma {:induction false} SeriesKeys(rows: seq<Line>, pid: int, ym: YearMonth)
    ensures HasKey(Get(MonthlyOf(rows), pid, []), ym) <==> SoldIn(rows, pid, ym)
  {
    if rows != [] {
      var init, r := rows[..|rows| - 1], rows[|rows| - 1];
      var t := MonthlyOf(init);
      var s := Get(t, r.productId, []);
      var s' := Set(s, r.when, Get(s, r.when, 0.0) + r.quantity as real);
      SeriesKeys(init, pid, ym);
      GetSet(t, r.productId, s', pid, []);
      HasKeySet(s, r.when, Get(s, r.when, 0.0) + r.quantity as real, ym);
      SoldInLast(rows, pid, ym);
    } else {
      assert MonthlyOf(rows) == [];
    }
  }

  /** A row of a non-empty list is in the month exactly when one before the
      last is or the last is. */
  lemma {:induction false} SoldInLast(rows: seq<Line>, pid: int, ym: YearMonth)
    requires rows != []
    ensures SoldIn(rows, pid, ym)
      <==> SoldIn(rows[..|rows| - 1], pid, ym) || (rows[|rows| - 1].productId == pid && rows[|rows| - 1].when == ym)
  {
    var init := rows[..|rows| - 1];
    if SoldIn(rows, pid, ym) {
      var i :| 0 <= i < |rows| && rows[i].productId == pid && rows[i].when == ym;
      if i < |init| {
        assert init[i] == rows[i];
      }
    }
    if SoldIn(init, pid, ym) {
      var i :| 0 <= i < |init| && init[i].productId == pid && init[i].when == ym;
      assert rows[i] == init[i];
    }
  }

  /** Products, and each product's months, appear once; every series is non-empty. */
  ghost predicate WellFormed(t: MonthlyTable) {
    DistinctKeys(t) && forall i :: 0 <= i < |t| ==> t[i].val != [] && DistinctKeys(t[i].val)
  }

  lemma {:induction false} MonthlyWellFormed(rows: seq<Line>)
    ensures WellFormed(MonthlyOf(rows))
  {
    if rows != [] {
      MonthlyWellFormed(rows[..|rows| - 1]);
      AddRowWellFormed(MonthlyOf(rows[..|rows| - 1]), rows[|rows| - 1]);
    }
  }

  lemma AddRowWellFormed(t: MonthlyTable, r: Line)
    requires WellFormed(t)
    ensures WellFormed(AddRow(t, r))
  {
    var s := Get(t, r.productId, []);
    var v := Get(s, r.when, 0.0) + r.quantity as real;
    RowDistinct(t, r.productId);
    DistinctSet(s, r.when, v);
    KeysSet(s, r.when, v);
    WellFormedSet(t, r.productId, Set(s, r.when, v));
  }

  lemma RowDistinct(t: MonthlyTable, pid: int)
    requires WellFormed(t)
    ensures DistinctKeys(Get(t, pid, []))
  {
    var s := Get(t, pid, []);
    GetEntry(t, pid, []);
    if s != [] {
      var i :| 0 <= i < |t| && t[i] == Entry(pid, s);
    }
  }

  lemma WellFormedSet(t: MonthlyTable, pid: int, s: Series)
    requires WellFormed(t) && s != [] && DistinctKeys(s)
    ensures WellFormed(Set(t, pid, s))
  {
    DistinctSet(t, pid, s);
    SetEntries(t, pid, s);
    var t' := Set(t, pid, s);
    forall i | 0 <= i < |t'| ensures t'[i].val != [] && DistinctKeys(t'[i].val) {
      assert t'[i] in t';
      if t'[i] in t {
        var j :| 0 <= j < |t| && t[j] == t'[i];
      }
    }
  }

  /** Every recorded monthly quantity is non-negative. */
  ghost predicate NonNegativeTable(t: MonthlyTable) {
    forall i, j :: 0 <= i < |t| && 0 <= j < |t[i].val| ==> t[i].val[j].val >= 0.0
  }

  /** Rows without returns add up to non-negative monthly quantities. */
  lemma {:induction false} MonthlyNonNegative(rows: seq<Line>)
    requires NonNegativeLines(rows)
    ensures NonNegativeTable(MonthlyOf(rows))
  {
    if rows != [] {
      NonNegativeInit(rows);
      MonthlyNonNegative(rows[..|rows| - 1]);
      AddRowNonNegative(MonthlyOf(rows[..|rows| - 1]), rows[|rows| - 1]);
    }
  }

  /** Adding a row without a return keeps every monthly quantity non-negative. */
  lemma AddRowNonNegative(t: MonthlyTable, r: Line)
    requires NonNegativeTable(t) && r.quantity >= 0
    ensures NonNegativeTable(AddRow(t, r))
  {
    var s := Get(t, r.productId, []);
    RowNonNegative(t, r.productId);
    GetEntry(s, r.when, 0.0);
    var v := Get(s, r.when, 0.0) + r.quantity as real;
    SetEntries(s, r.when, v);
    SetRowNonNegative(t, r.productId, Set(s, r.when, v));
  }

  lemma RowNonNegative(t: MonthlyTable, pid: int)
    requires NonNegativeTable(t)
    ensures forall e :: e in Get(t, pid, []) ==> e.val >= 0.0
  {
    var s := Get(t, pid, []);
    GetEntry(t, pid, []);
    forall e | e in s ensures e.val >= 0.0 {
      var i :| 0 <= i < |t| && t[i] == Entry(pid, s);
      var j :| 0 <= j < |s| && s[j] == e;
      assert t[i].val[j] == e;
    }
  }

  lemma SetRowNonNegative(t: MonthlyTable, pid: int, s: Series)
    requires NonNegativeTable(t) && forall e :: e in s ==> e.val >= 0.0
    ensures NonNegativeTable(Set(t, pid, s))
  {
    var t' := Set(t, pid, s);
    SetEntries(t, pid, s);
    forall i, j | 0 <= i < |t'| && 0 <= j < |t'[i].val| ensures t'[i].val[j].val >= 0.0 {
      assert t'[i] in t';
      assert t'[i].val[j] in t'[i].val;
      if t'[i] in t {
        var k :| 0 <= k < |t| && t[k] == t'[i];
        assert t[k].val[j] == t'[i].val[j];
      }
    }
  }

  // ---------------------------------------------------------------------
  // Orderings of a series.

  /** `ksort($series)`: oldest month first. */
  function Age(e: Entry<YearMonth, real>): real {
    -(MonthIndex(e.key) as real)
  }

  function Chronological(s: Series): Series {
    SortDesc(s, Age)
  }

  /** `rsort($keys)`: newest month first. */
  function Recency(ym: YearMonth): real {
    MonthIndex(ym) as real
  }

  function NewestFirst(s: Series): seq<YearMonth> {
    SortDesc(Keys(Chronological(s)), Recency)
  }

  // ---------------------------------------------------------------------
  // Products without history.

  /** `foreach ($allProducts as $pid) if (!isset($t[$pid])) $t[$pid] = 0.0;` */
  function FillMissing(t: Arr<int, real>, ids: seq<int>): (r: Arr<int, real>)
    ensures |r| >= |t|
  {
    if ids == [] then t
    else
      var f := FillMissing(t, ids[..|ids| - 1]);
      var id := ids[|ids| - 1];
      if HasKey(f, id) then f
      else
        SetAppends(f, id, 0.0);
        Set(f, id, 0.0)
  }

  method FillMissingLoop(t: Arr<int, real>, ids: seq<int>) returns (r: Arr<int, real>)
    ensures r == FillMissing(t, ids)
  {
    r := t;
    for i := 0 to |ids|
      invariant r == FillMissing(t, ids[..i])
    {
      assert ids[..i + 1][..i] == ids[..i];
      if !HasKey(r, ids[i]) {
        r := Set(r, ids[i], 0.0);
      }
    }
    assert ids[..|ids|] == ids;
  }

  /** The existing entries stay where they are; missing products are appended with 0. */
  lemma {:induction false} FillMissingGet(t: Arr<int, real>, ids: seq<int>, k: int)
    ensures HasKey(FillMissing(t, ids), k) <==> HasKey(t, k) || k in ids
    ensures Get(FillMissing(t, ids), k, 0.0) == Get(t, k, 0.0)
    ensures HasKey(t, k) ==> Get(FillMissing(t, ids), k, -1.0) == Get(t, k, -1.0)
    ensures !HasKey(t, k) && k in ids ==> Get(FillMissing(t, ids), k, -1.0) == 0.0
    ensures FillMissing(t, ids)[..|t|] == t
  {
    if ids != [] {
      var init, id := ids[..|ids| - 1], ids[|ids| - 1];
      var f := FillMissing(t, init);
      FillMissingGet(t, init, k);
      assert ids == init + [id];
      if !HasKey(f, id) {
        SetAppends(f, id, 0.0);
        KeysSet(f, id, 0.0);
        GetMissing(f, id, 0.0);
        assert (f + [Entry(id, 0.0)])[..|t|] == f[..|t|];
        GetSet(f, id, 0.0, k, 0.0);
        GetSet(f, id, 0.0, k, -1.0);
      }
    }
  }
}
