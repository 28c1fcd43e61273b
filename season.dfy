/** The seasonality signal (`computeSeasonality`): how far the current month's
    quantity lies from the mean of a product's months, in standard deviations,
    mapped into (0,1) by the logistic function. A flat series has no spread;
    its z-score is then 1 if the current month sold and 0 otherwise. Products
    without history get 0. The square root and the logistic function are
    parameters; the current month (`date('Y-m')`) is a parameter. */
module Season {
  import opened PhpArray
  import opened Rows
  import opened Sorting
  import opened Monthly
  import opened Trend

  /** `count($vals) ? array_sum($vals) / count($vals) : 0.0` */
  function Mean(vals: seq<real>): real {
    if |vals| > 0 then Sum(vals) / |vals| as real else 0.0
  }

  /** The squared deviations from m of the first k values, accumulated in order. */
  function SquaredDeviations(vals: seq<real>, m: real, k: nat): real
    requires k <= |vals|
  {
    if k == 0 then 0.0 else SquaredDeviations(vals, m, k - 1) + Sq(vals[k - 1] - m)
  }

  function Sq(x: real): real { x * x }

  /** `$variance` after its loop (the sum, not yet divided by the count). */
  function Variance(vals: seq<real>): real {
    SquaredDeviations(vals, Mean(vals), |vals|)
  }

  /** `count($vals) ? sqrt($variance / count($vals)) : 0.0` */
  function Std(sqrt: real -> real, vals: seq<real>): real {
    if |vals| > 0 then sqrt(Variance(vals) / |vals| as real) else 0.0
  }

  /** `$z`: the standardised current quantity, or 1/0 for a flat series. */
  function ZScore(sqrt: real -> real, s: Series, now: YearMonth): real {
    var vals := Values(s);
    var mean, std := Mean(vals), Std(sqrt, vals);
    var current := Get(s, now, 0.0);
    if std > 0.0 then (current - mean) / std
    else if current > 0.0 then 1.0 else 0.0
  }

  function SeasonScore(sqrt: real -> real, logistic: LogisticFn, s: Series, now: YearMonth): real {
    logistic(ZScore(sqrt, s, now))
  }

  /** `$seasonality[$pid] = ...` over the products with history, in table order. */
  function SeasonOf(sqrt: real -> real, logistic: LogisticFn, monthly: MonthlyTable, now: YearMonth): (r: Arr<int, real>)
    ensures |r| == |monthly|
  {
    seq(|monthly|, i requires 0 <= i < |monthly| => Entry(monthly[i].key, SeasonScore(sqrt, logistic, monthly[i].val, now)))
  }

  /** What `computeSeasonality` returns. */
  function SeasonTable(sqrt: real -> real, logistic: LogisticFn, rows: seq<Line>, catalog: seq<Product>, now: YearMonth): Arr<int, real> {
    FillMissing(SeasonOf(sqrt, logistic, MonthlyOf(rows), now), CatalogIds(catalog))
  }

  // ---------------------------------------------------------------------
  // The loops.

  /** Mean, variance loop and z-score of one series. */
  method SeriesZ(sqrt: real -> real, series: Series, now: YearMonth) returns (z: real)
    ensures z == ZScore(sqrt, series, now)
  {
    var vals := Values(series);
    var mean := if |vals| > 0 then Sum(vals) / |vals| as real else 0.0;
    var variance := 0.0;
    for k := 0 to |vals|
      invariant variance == SquaredDeviations(vals, mean, k)
    {
      var v := vals[k];
      variance := variance + (v - mean) * (v - mean);
    }
    var std := if |vals| > 0 then sqrt(variance / |vals| as real) else 0.0;
    var current := Get(series, now, 0.0);
    z := if std > 0.0 then (current - mean) / std else if current > 0.0 then 1.0 else 0.0;
  }

  /** `computeSeasonality` given the sale and order rows, the catalog and the current month. */
  method ComputeSeasonality(sqrt: real -> real, logistic: LogisticFn, rows: seq<Line>, catalog: seq<Product>, now: YearMonth)
    returns (seasonality: Arr<int, real>)
    ensures seasonality == SeasonTable(sqrt, logistic, rows, catalog, now)
  {
    var monthly := AggregateMonthly(rows);
    MonthlyWellFormed(rows);
    seasonality := [];
    for i := 0 to |monthly|
      invariant seasonality == SeasonOf(sqrt, logistic, monthly, now)[..i]
    {
      var pid, series := monthly[i].key, monthly[i].val;
      var z := SeriesZ(sqrt, series, now);
      FreshKey(monthly, seasonality, i);
      SetAppends(seasonality, pid, logistic(z));
      seasonality := Set(seasonality, pid, logistic(z));
      PrefixStep(SeasonOf(sqrt, logistic, monthly, now), i);
    }
    assert SeasonOf(sqrt, logistic, monthly, now)[..|monthly|] == SeasonOf(sqrt, logistic, monthly, now);
    seasonality := FillMissingLoop(seasonality, CatalogIds(catalog));
  }

  // ---------------------------------------------------------------------
  // Spread.

  /** What the model relies on about `sqrt`: 0 at 0, positive on positive
      arguments (the facts `Cosine.SqrtFn` carries). */
  ghost predicate SquareRoot(sqrt: real -> real) {
    sqrt(0.0) == 0.0 && forall x :: x > 0.0 ==> sqrt(x) > 0.0
  }

  lemma Square(x: real)
    ensures Sq(x) >= 0.0
    ensures Sq(x) == 0.0 ==> x == 0.0
  {
    if x != 0.0 {
      var q := Sq(x) / x;
      assert q == x;
    }
  }

  /** The squared deviations are never negative, and vanish exactly when every
      value is m. */
  lemma {:induction false} SquaredDeviationsZero(vals: seq<real>, m: real, k: nat)
    requires k <= |vals|
    ensures SquaredDeviations(vals, m, k) >= 0.0
    ensures SquaredDeviations(vals, m, k) == 0.0 <==> forall j :: 0 <= j < k ==> vals[j] == m
  {
    if k > 0 {
      SquaredDeviationsZero(vals, m, k - 1);
      var d := vals[k - 1] - m;
      Square(d);
      if forall j :: 0 <= j < k ==> vals[j] == m {
        assert d == 0.0;
      } else if forall j :: 0 <= j < k - 1 ==> vals[j] == m {
        assert d != 0.0;
      }
    }
  }

  /** The spread is zero exactly when every month equals the mean. */
  lemma StdZero(sqrt: real -> real, vals: seq<real>)
    requires SquareRoot(sqrt)
    ensures Std(sqrt, vals) >= 0.0
    ensures Std(sqrt, vals) == 0.0 <==> forall j :: 0 <= j < |vals| ==> vals[j] == Mean(vals)
  {
    SquaredDeviationsZero(vals, Mean(vals), |vals|);
    if |vals| > 0 {
      var q := Variance(vals) / |vals| as real;
      if Variance(vals) > 0.0 {
        assert q > 0.0;
      } else {
        assert q == 0.0;
      }
    }
  }

  lemma {:induction false} SumConstant(vals: seq<real>, c: real)
    requires forall j :: 0 <= j < |vals| ==> vals[j] == c
    ensures Sum(vals) == |vals| as real * c
  {
    if vals != [] {
      SumConstant(vals[1..], c);
    }
  }

  /** A flat history has no spread and its mean is its level. */
  lemma FlatSeries(sqrt: real -> real, vals: seq<real>, c: real)
    requires SquareRoot(sqrt) && |vals| > 0 && forall j :: 0 <= j < |vals| ==> vals[j] == c
    ensures Mean(vals) == c && Std(sqrt, vals) == 0.0
  {
    SumConstant(vals, c);
    assert Sum(vals) / |vals| as real == c;
    StdZero(sqrt, vals);
  }

  /** The std = 0 branch: a series whose months all sold the same reads 1
      when the current month sold and 0 otherwise. */
  lemma FlatSeriesScore(sqrt: real -> real, s: Series, now: YearMonth, c: real)
    requires SquareRoot(sqrt) && |s| > 0 && forall j :: 0 <= j < |s| ==> s[j].val == c
    ensures ZScore(sqrt, s, now) == if Get(s, now, 0.0) > 0.0 then 1.0 else 0.0
  {
    FlatSeries(sqrt, Values(s), c);
  }

  /** With spread, the z-score is positive exactly when the current month is
      above the mean. */
  lemma ZScoreSign(sqrt: real -> real, s: Series, now: YearMonth)
    requires Std(sqrt, Values(s)) > 0.0
    ensures ZScore(sqrt, s, now) > 0.0 <==> Get(s, now, 0.0) > Mean(Values(s))
  {
    var std := Std(sqrt, Values(s));
    var diff := Get(s, now, 0.0) - Mean(Values(s));
    if diff > 0.0 {
      assert diff / std > 0.0;
    } else {
      assert diff / std <= 0.0;
    }
  }

  // ---------------------------------------------------------------------
  // The table.

  lemma SeasonOfKeys(sqrt: real -> real, logistic: LogisticFn, monthly: MonthlyTable, now: YearMonth)
    ensures Keys(SeasonOf(sqrt, logistic, monthly, now)) == Keys(monthly)
  {
  }

  /** Products with history score strictly inside (0,1); catalog products
      without history read 0; the table covers the whole catalog. */
  lemma SeasonEntries(sqrt: real -> real, logistic: LogisticFn, rows: seq<Line>, catalog: seq<Product>, now: YearMonth, pid: int)
    ensures HasKey(SeasonTable(sqrt, logistic, rows, catalog, now), pid) <==> Sold(rows, pid) || pid in CatalogIds(catalog)
    ensures Sold(rows, pid) ==> 0.0 < Get(SeasonTable(sqrt, logistic, rows, catalog, now), pid, -1.0) < 1.0
    ensures !Sold(rows, pid) && pid in CatalogIds(catalog) ==> Get(SeasonTable(sqrt, logistic, rows, catalog, now), pid, -1.0) == 0.0
  {
    var monthly := MonthlyOf(rows);
    var t := SeasonOf(sqrt, logistic, monthly, now);
    MonthlyKeys(rows, pid);
    SeasonOfKeys(sqrt, logistic, monthly, now);
    FillMissingGet(t, CatalogIds(catalog), pid);
    if Sold(rows, pid) {
      GetPresent(t, pid, -1.0);
      var i :| 0 <= i < |t| && t[i] == Entry(pid, Get(t, pid, -1.0));
    }
  }
}
