/** The trend signal (`computeTrend`): the newest month of a product's series
    against the mean of up to three months before it, mapped into (0,1) by the
    logistic function. Products without history get 0. The logistic function
    is a parameter that lies strictly between 0 and 1. */
module Trend {
  import opened PhpArray
  import opened Rows
  import opened Sorting
  import opened Monthly

  /** `1.0 / (1.0 + exp(-$x))`: strictly between 0 and 1 in exact arithmetic. */
  type LogisticFn = f: real -> real | forall x :: 0.0 < f(x) < 1.0
    witness (x: real) => 0.5

  /** The logistic function also never decreases. */
  ghost predicate Monotone(f: real -> real) {
    forall x, y :: x <= y ==> f(x) <= f(y)
  }

  /** `array_slice($keys, 0, 4)` after `rsort`: the up to four newest months. */
  function RecentKeys(s: Series): (ks: seq<YearMonth>)
    ensures |ks| == if |s| >= 4 then 4 else |s|
  {
    var keys := NewestFirst(s);
    keys[..if |keys| >= 4 then 4 else |keys|]
  }

  /** `array_map(fn($k) => $series[$k] ?? 0, $recentKeys)` */
  function RecentValues(s: Series): (vs: seq<real>)
    ensures |vs| == |RecentKeys(s)|
  {
    var ks := RecentKeys(s);
    seq(|ks|, j requires 0 <= j < |ks| => Get(s, ks[j], 0.0))
  }

  /** `$recentVals[0] ?? 0` */
  function Last(vals: seq<real>): real {
    if vals != [] then vals[0] else 0.0
  }

  /** The mean of the months before the newest, or `$last ?: 1` for a single month. */
  function PrevAvg(vals: seq<real>): real {
    if |vals| > 1 then Sum(vals[1..]) / (if |vals| - 1 >= 1 then |vals| - 1 else 1) as real
    else if Last(vals) != 0.0 then Last(vals) else 1.0
  }

  /** `max(1, $x)` */
  function AtLeastOne(x: real): real {
    if 1.0 >= x then 1.0 else x
  }

  /** `$prevAvg > 0 ? (($last - $prevAvg) / max(1, $prevAvg)) : 0.0` */
  function Growth(vals: seq<real>): real {
    var prev := PrevAvg(vals);
    if prev > 0.0 then (Last(vals) - prev) / AtLeastOne(prev) else 0.0
  }

  function TrendScore(logistic: LogisticFn, s: Series): real {
    logistic(Growth(RecentValues(s)))
  }

  /** `$trend[$pid] = ...` over the products with history, in table order. */
  function TrendOf(logistic: LogisticFn, monthly: MonthlyTable): (r: Arr<int, real>)
    ensures |r| == |monthly|
  {
    seq(|monthly|, i requires 0 <= i < |monthly| => Entry(monthly[i].key, TrendScore(logistic, monthly[i].val)))
  }

  /** What `computeTrend` returns. */
  function TrendTable(logistic: LogisticFn, rows: seq<Line>, catalog: seq<Product>): Arr<int, real> {
    FillMissing(TrendOf(logistic, MonthlyOf(rows)), CatalogIds(catalog))
  }

  /** The body of the loop over `$monthly` for one series. */
  method SeriesTrend(logistic: LogisticFn, series: Series) returns (score: real)
    ensures score == TrendScore(logistic, series)
  {
    var sorted := Chronological(series);
    var keys := SortDesc(Keys(sorted), Recency);
    assert keys == NewestFirst(series);
    var k := if |keys| >= 4 then 4 else |keys|;
    var recentKeys := keys[..k];
    assert recentKeys == RecentKeys(series);
    var recentVals := seq(|recentKeys|, j requires 0 <= j < |recentKeys| => Get(series, recentKeys[j], 0.0));
    assert recentVals == RecentValues(series);
    var growth := GrowthOf(recentVals);
    score := logistic(growth);
  }

  /** `$last`, `$prevAvg` and `$growth` from the recent values. */
  method GrowthOf(recentVals: seq<real>) returns (growth: real)
    ensures growth == Growth(recentVals)
  {
    var last := if recentVals != [] then recentVals[0] else 0.0;
    var prevAvg;
    if |recentVals| > 1 {
      var count := |recentVals| - 1;
      prevAvg := Sum(recentVals[1..]) / (if count >= 1 then count else 1) as real;
    } else {
      prevAvg := if last != 0.0 then last else 1.0;
    }
    growth := if prevAvg > 0.0 then (last - prevAvg) / (if 1.0 >= prevAvg then 1.0 else prevAvg) else 0.0;
  }

  /** `computeTrend` given the sale and order rows and the catalog. */
  method ComputeTrend(logistic: LogisticFn, rows: seq<Line>, catalog: seq<Product>) returns (trend: Arr<int, real>)
    ensures trend == TrendTable(logistic, rows, catalog)
  {
    var monthly := AggregateMonthly(rows);
    MonthlyWellFormed(rows);
    trend := [];
    for i := 0 to |monthly|
      invariant trend == TrendOf(logistic, monthly)[..i]
    {
      var pid, series := monthly[i].key, monthly[i].val;
      var score := SeriesTrend(logistic, series);
      FreshKey(monthly, trend, i);
      SetAppends(trend, pid, score);
      trend := Set(trend, pid, score);
      PrefixStep(TrendOf(logistic, monthly), i);
    }
    assert TrendOf(logistic, monthly)[..|monthly|] == TrendOf(logistic, monthly);
    var ids := CatalogIds(catalog);
    trend := FillMissingLoop(trend, ids);
  }

  // ---------------------------------------------------------------------
  // Properties.

  /** A single month with sales compares with itself: growth 0. */
  lemma SingleMonthSold(s: Series)
    requires |s| == 1 && s[0].val > 0.0
    ensures Growth(RecentValues(s)) == 0.0
  {
    RecentIsKey(s, 0);
    assert RecentValues(s)[0] == s[0].val;
  }

  /** A single month without sales falls back to `prevAvg = 1`: growth -1. */
  lemma SingleMonthUnsold(s: Series)
    requires |s| == 1 && s[0].val == 0.0
    ensures Growth(RecentValues(s)) == -1.0
  {
    RecentIsKey(s, 0);
    assert RecentValues(s)[0] == s[0].val;
  }

  lemma KeysPermuted(s: Series)
    ensures multiset(NewestFirst(s)) == multiset(Keys(Chronological(s)))
    ensures SortedDesc(NewestFirst(s), Recency)
    ensures multiset(Chronological(s)) == multiset(s)
  {
    SortDescSorted(Keys(Chronological(s)), Recency);
    SortDescSorted(s, Age);
  }

  /** Every recent key is a month of the series. */
  lemma RecentIsKey(s: Series, j: nat)
    requires j < |RecentKeys(s)|
    ensures HasKey(s, RecentKeys(s)[j])
  {
    KeysPermuted(s);
    var keys := NewestFirst(s);
    assert RecentKeys(s)[j] == keys[j];
    assert keys[j] in multiset(Keys(Chronological(s)));
    var c := Chronological(s);
    var p :| 0 <= p < |c| && Keys(c)[p] == keys[j];
    assert c[p] in multiset(s);
    var q :| 0 <= q < |s| && s[q] == c[p];
    assert Keys(s)[q] == keys[j];
  }

  /** The recent months are the newest: none left out is more recent than one kept,
      and the kept ones run from newest to oldest. */
  lemma RecentAreNewest(s: Series, j: nat, ym: YearMonth)
    requires j < |RecentKeys(s)| && HasKey(s, ym) && ym !in RecentKeys(s)
    ensures MonthIndex(ym) <= MonthIndex(RecentKeys(s)[j])
  {
    KeysPermuted(s);
    var keys := NewestFirst(s);
    var c := Chronological(s);
    var q :| 0 <= q < |s| && Keys(s)[q] == ym;
    assert s[q] in multiset(c);
    var p :| 0 <= p < |c| && c[p] == s[q];
    assert Keys(c)[p] == ym;
    assert ym in multiset(keys);
    var r :| 0 <= r < |keys| && keys[r] == ym;
    var rk := RecentKeys(s);
    assert rk[j] == keys[j];
  }

  lemma RecentInOrder(s: Series, j: nat, k: nat)
    requires j < k < |RecentKeys(s)|
    ensures MonthIndex(RecentKeys(s)[k]) <= MonthIndex(RecentKeys(s)[j])
  {
    KeysPermuted(s);
    assert RecentKeys(s)[j] == NewestFirst(s)[j] && RecentKeys(s)[k] == NewestFirst(s)[k];
  }

  lemma GrowthFloor(last: real, prev: real)
    requires last >= 0.0 && prev > 0.0
    ensures (last - prev) / AtLeastOne(prev) >= -1.0
  {
    var m := AtLeastOne(prev);
    var g := (last - prev) / m;
    assert g * m == last - prev;
    if g < -1.0 {
      assert g * m < -1.0 * m;
    }
  }

  /** With non-negative quantities the growth is never below -1 (a drop to nothing). */
  lemma GrowthAtLeastMinusOne(vals: seq<real>)
    requires forall i :: 0 <= i < |vals| ==> vals[i] >= 0.0
    ensures Growth(vals) >= -1.0
  {
    var prev := PrevAvg(vals);
    if |vals| > 1 {
      SumNonNegative(vals[1..]);
    }
    if prev > 0.0 {
      GrowthFloor(Last(vals), prev);
    }
  }

  lemma DivMonotone(x: real, y: real, m: real)
    requires x <= y && m > 0.0
    ensures x / m <= y / m
  {
  }

  /** With earlier months fixed, more sales in the newest month never lower the growth. */
  lemma GrowthMonotoneInLast(vals: seq<real>, x: real, y: real)
    requires |vals| > 1 && x <= y
    ensures Growth(vals[0 := x]) <= Growth(vals[0 := y])
  {
    var vx, vy := vals[0 := x], vals[0 := y];
    assert vx[1..] == vy[1..];
    assert Last(vx) == x && Last(vy) == y;
    var prev := PrevAvg(vx);
    assert PrevAvg(vy) == prev;
    if prev > 0.0 {
      DivMonotone(x - prev, y - prev, AtLeastOne(prev));
    }
  }

  /** ... and so never lower the trend score. */
  lemma TrendMonotoneInLast(logistic: LogisticFn, vals: seq<real>, x: real, y: real)
    requires Monotone(logistic) && |vals| > 1 && x <= y
    ensures logistic(Growth(vals[0 := x])) <= logistic(Growth(vals[0 := y]))
  {
    GrowthMonotoneInLast(vals, x, y);
  }

  lemma TrendOfKeys(logistic: LogisticFn, monthly: MonthlyTable)
    ensures Keys(TrendOf(logistic, monthly)) == Keys(monthly)
  {
  }

  lemma TrendOfGet(logistic: LogisticFn, monthly: MonthlyTable, i: nat)
    requires DistinctKeys(monthly) && i < |monthly|
    ensures 0.0 < Get(TrendOf(logistic, monthly), monthly[i].key, -1.0) < 1.0
  {
    var t := TrendOf(logistic, monthly);
    assert DistinctKeys(t) by {
      TrendOfKeys(logistic, monthly);
      forall p, q | 0 <= p < q < |t| ensures t[p].key != t[q].key {
        assert t[p].key == monthly[p].key && t[q].key == monthly[q].key;
      }
    }
    GetAt(t, i, -1.0);
  }

  /** Products with history score strictly inside (0,1); catalog products
      without history read 0; the table covers the whole catalog. */
  lemma TrendEntries(logistic: LogisticFn, rows: seq<Line>, catalog: seq<Product>, pid: int)
    ensures Sold(rows, pid) ==> 0.0 < Get(TrendTable(logistic, rows, catalog), pid, -1.0) < 1.0
    ensures !Sold(rows, pid) && pid in CatalogIds(catalog) ==> Get(TrendTable(logistic, rows, catalog), pid, -1.0) == 0.0
    ensures HasKey(TrendTable(logistic, rows, catalog), pid) <==> Sold(rows, pid) || pid in CatalogIds(catalog)
  {
    var monthly := MonthlyOf(rows);
    var t := TrendOf(logistic, monthly);
    MonthlyKeys(rows, pid);
    TrendOfKeys(logistic, monthly);
    FillMissingGet(t, CatalogIds(catalog), pid);
    if Sold(rows, pid) {
      var i :| 0 <= i < |monthly| && Keys(monthly)[i] == pid;
      MonthlyWellFormed(rows);
      TrendOfGet(logistic, monthly, i);
    }
  }
}
