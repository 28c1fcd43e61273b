/** The forecast signal (`computeForecast`): a least-squares line through each
    product's monthly quantities, oldest month at x = 0, read off at the next
    month; short series predict their last month. Predictions are clamped at
    0, normalised by their maximum, and products without history get 0. */
module Forecast {
  import opened PhpArray
  import opened Rows
  import opened Sorting
  import opened Cosine
  import opened Normalize
  import opened Monthly

  /** `$xs`: 0, 1, ..., n-1. */
  function Steps(n: nat): (xs: seq<real>)
    ensures |xs| == n && forall i :: 0 <= i < n ==> xs[i] == i as real
  {
    seq(n, i requires 0 <= i < n => i as real)
  }

  function Abs(x: real): real { if x < 0.0 then -x else x }

  /** `$n * $sumXX - $sumX * $sumX` */
  function Spread(n: nat, sumX: real, sumXX: real): real {
    n as real * sumXX - sumX * sumX
  }

  /** The denominator over x = 0 .. n-1. */
  function Den(n: nat): real {
    Spread(n, Sum(Steps(n)), Dot(Steps(n), Steps(n), n))
  }

  /** The least-squares line through n points (x_i, y_i) with the given sums,
      read at x = n; `last` when the system is degenerate. */
  function Fit(n: nat, sumX: real, sumY: real, sumXX: real, sumXY: real, last: real): real
    requires n > 0
  {
    var den := n as real * sumXX - sumX * sumX;
    if Abs(den) < 0.000000001 then last
    else
      var b := (n as real * sumXY - sumX * sumY) / den;
      var a := (sumY - b * sumX) / n as real;
      a + b * n as real
  }

  /** The fit through (i, ys[i]), i = 0 .. |ys| - 1. */
  function LeastSquares(ys: seq<real>): real
    requires |ys| > 0
  {
    var n := |ys|;
    var xs := Steps(n);
    Fit(n, Sum(xs), Sum(ys), Dot(xs, xs, n), Dot(xs, ys, n), ys[n - 1])
  }

  /** The prediction for one chronologically ordered series. */
  function Prediction(ys: seq<real>): real {
    var n := |ys|;
    if n < 3 then
      // `end($ys) ?: 0.0`, without the clamp (the loop `continue`s)
      if ys != [] && ys[n - 1] != 0.0 then ys[n - 1] else 0.0
    else
      // `max(0.0, (float)$pred)`
      var pred := LeastSquares(ys);
      if pred >= 0.0 then pred else 0.0
  }

  function SeriesPrediction(s: Series): real {
    Prediction(Values(Chronological(s)))
  }

  /** `$preds[$pid] = ...` over the products with history, in table order. */
  function PredictionsOf(monthly: MonthlyTable): (r: Arr<int, real>)
    ensures |r| == |monthly|
  {
    seq(|monthly|, i requires 0 <= i < |monthly| => Entry(monthly[i].key, SeriesPrediction(monthly[i].val)))
  }

  /** What `computeForecast` returns. */
  function ForecastTable(rows: seq<Line>, catalog: seq<Product>): Arr<int, real> {
    FillMissing(Normalized(PredictionsOf(MonthlyOf(rows))), CatalogIds(catalog))
  }

  // ---------------------------------------------------------------------
  // The loops.

  /** `$xs[] = $i++; $ys[] = $qty;` over the `ksort`ed series. */
  method Points(sorted: Series) returns (xs: seq<real>, ys: seq<real>)
    ensures xs == Steps(|sorted|) && ys == Values(sorted)
  {
    xs, ys := [], [];
    var i := 0;
    for k := 0 to |sorted|
      invariant i == k && xs == Steps(k) && ys == Values(sorted[..k])
    {
      xs := xs + [i as real];
      i := i + 1;
      ys := ys + [sorted[k].val];
      assert Values(sorted[..k + 1]) == Values(sorted[..k]) + [sorted[k].val];
    }
    assert sorted[..|sorted|] == sorted;
  }

  /** The regression for one series of at least three points. */
  method Regress(xs: seq<real>, ys: seq<real>) returns (pred: real)
    requires |ys| >= 3 && xs == Steps(|ys|)
    ensures pred == LeastSquares(ys)
  {
    var n := |xs|;
    var sumX, sumY := Sum(xs), Sum(ys);
    var sumXX, sumXY := 0.0, 0.0;
    for k := 0 to n
      invariant sumXX == Dot(xs, xs, k) && sumXY == Dot(xs, ys, k)
    {
      sumXX := sumXX + xs[k] * xs[k];
      sumXY := sumXY + xs[k] * ys[k];
    }
    pred := Solve(n, sumX, sumY, sumXX, sumXY, ys[n - 1]);
  }

  /** The closed-form slope and intercept from the four sums. */
  method Solve(n: nat, sumX: real, sumY: real, sumXX: real, sumXY: real, last: real) returns (pred: real)
    requires n > 0
    ensures pred == Fit(n, sumX, sumY, sumXX, sumXY, last)
  {
    var den := n as real * sumXX - sumX * sumX;
    if Abs(den) < 0.000000001 {
      pred := last;
    } else {
      var b := (n as real * sumXY - sumX * sumY) / den;
      var a := (sumY - b * sumX) / n as real;
      var nextX := n;
      pred := a + b * nextX as real;
    }
  }

  /** The body of the loop over `$monthly` for one series. */
  method SeriesForecast(series: Series) returns (pred: real)
    ensures pred == SeriesPrediction(series)
  {
    var sorted := Chronological(series);
    var xs, ys := Points(sorted);
    if |xs| < 3 {
      pred := if ys != [] && ys[|ys| - 1] != 0.0 then ys[|ys| - 1] else 0.0;
      return;
    }
    pred := Regress(xs, ys);
    pred := if pred >= 0.0 then pred else 0.0;
  }

  /** `computeForecast` given the sale and order rows and the catalog. */
  method ComputeForecast(rows: seq<Line>, catalog: seq<Product>) returns (scores: Arr<int, real>)
    ensures scores == ForecastTable(rows, catalog)
  {
    var monthly := AggregateMonthly(rows);
    MonthlyWellFormed(rows);
    var preds := [];
    for i := 0 to |monthly|
      invariant preds == PredictionsOf(monthly)[..i]
    {
      var pid, series := monthly[i].key, monthly[i].val;
      var pred := SeriesForecast(series);
      FreshKey(monthly, preds, i);
      SetAppends(preds, pid, pred);
      preds := Set(preds, pid, pred);
      PrefixStep(PredictionsOf(monthly), i);
    }
    assert PredictionsOf(monthly)[..|monthly|] == PredictionsOf(monthly);
    scores := NormalizeByMax(preds);
    scores := FillMissingLoop(scores, CatalogIds(catalog));
  }

  // ---------------------------------------------------------------------
  // The sums over x = 0 .. n-1 in closed form.

  /** 0 + 1 + ... + (k-1) */
  function Tri(k: nat): real {
    if k == 0 then 0.0 else Tri(k - 1) + (k - 1) as real
  }

  /** 0² + 1² + ... + (k-1)² */
  function SqSum(k: nat): (r: real)
    ensures r >= 0.0
  {
    if k == 0 then 0.0 else SqSum(k - 1) + (k - 1) as real * (k - 1) as real
  }

  lemma SumSingleton(x: real)
    ensures Sum([x]) == x
  {
    assert [x][1..] == [];
  }

  lemma {:induction false} StepsSum(n: nat)
    ensures Sum(Steps(n)) == Tri(n)
  {
    if n > 0 {
      assert Steps(n) == Steps(n - 1) + [(n - 1) as real];
      SumAppend(Steps(n - 1), [(n - 1) as real]);
      SumSingleton((n - 1) as real);
      StepsSum(n - 1);
    }
  }

  lemma {:induction false} StepsDot(n: nat, k: nat)
    requires k <= n
    ensures Dot(Steps(n), Steps(n), k) == SqSum(k)
  {
    if k > 0 {
      StepsDot(n, k - 1);
      assert At(Steps(n), k - 1) == (k - 1) as real;
    }
  }

  lemma {:induction false} TriClosed(k: nat)
    ensures 2.0 * Tri(k) == k as real * (k as real - 1.0)
  {
    if k > 0 {
      TriClosed(k - 1);
      var m := (k - 1) as real;
      assert 2.0 * Tri(k) == m * (m - 1.0) + 2.0 * m;
    }
  }

  /** k·Σi² − (Σi)² grows with k and is already 1 at k = 2. */
  lemma {:induction false} SpreadAtLeastOne(k: nat)
    requires k >= 2
    ensures k as real * SqSum(k) - Tri(k) * Tri(k) >= 1.0
  {
    if k > 2 {
      SpreadAtLeastOne(k - 1);
      var m := (k - 1) as real;
      var a, b := SqSum(k - 1), Tri(k - 1);
      TriClosed(k - 1);
      assert 2.0 * b == m * (m - 1.0);
      assert SqSum(k) == a + m * m && Tri(k) == b + m;
      assert (m + 1.0) * (a + m * m) - (b + m) * (b + m)
          == (m * a - b * b) + a + m * m * m - m * (2.0 * b);
      assert m * (2.0 * b) == m * m * m - m * m;
    }
  }

  /** The `abs($den) < 1e-9` guard can never fire: with x = 0 .. n-1 and
      n >= 2 the denominator is at least 1. */
  lemma DenAtLeastOne(n: nat)
    requires n >= 2
    ensures Den(n) >= 1.0 && Abs(Den(n)) >= 0.000000001
  {
    StepsSpread(n, Sum(Steps(n)), Dot(Steps(n), Steps(n), n));
  }

  lemma StepsSpread(n: nat, sumX: real, sumXX: real)
    requires n >= 2
    requires sumX == Sum(Steps(n)) && sumXX == Dot(Steps(n), Steps(n), n)
    ensures Spread(n, sumX, sumXX) >= 1.0
  {
    StepsSums(n, sumX, sumXX);
  }

  lemma DivCancel(p: real, q: real, d: real)
    requires q != 0.0 && p == d * q
    ensures p / q == d
  {
  }

  /** On points that lie on a line the fit is exact. */
  lemma FitLine(n: nat, sumX: real, sumY: real, sumXX: real, sumXY: real, c: real, d: real, last: real)
    requires n >= 1 && n as real * sumXX - sumX * sumX >= 1.0
    requires sumY == n as real * c + d * sumX && sumXY == c * sumX + d * sumXX
    ensures Fit(n, sumX, sumY, sumXX, sumXY, last) == c + d * n as real
  {
    SlopeOfLine(n, sumX, sumY, sumXX, sumXY, c, d);
    InterceptOfLine(n, sumX, sumY, sumXX, sumXY, c, d);
  }

  /** The slope of the closed form is the line's slope. */
  lemma SlopeOfLine(n: nat, sumX: real, sumY: real, sumXX: real, sumXY: real, c: real, d: real)
    requires n as real * sumXX - sumX * sumX >= 1.0
    requires sumY == n as real * c + d * sumX && sumXY == c * sumX + d * sumXX
    ensures (n as real * sumXY - sumX * sumY) / (n as real * sumXX - sumX * sumX) == d
  {
    assert n as real * sumXY - sumX * sumY == d * (n as real * sumXX - sumX * sumX);
    DivCancel(n as real * sumXY - sumX * sumY, n as real * sumXX - sumX * sumX, d);
  }

  /** With that slope, the intercept of the closed form is the line's intercept. */
  lemma InterceptOfLine(n: nat, sumX: real, sumY: real, sumXX: real, sumXY: real, c: real, d: real)
    requires n >= 1 && n as real * sumXX - sumX * sumX >= 1.0
    requires (n as real * sumXY - sumX * sumY) / (n as real * sumXX - sumX * sumX) == d
    requires sumY == n as real * c + d * sumX
    ensures (sumY - (n as real * sumXY - sumX * sumY) / (n as real * sumXX - sumX * sumX) * sumX) / n as real == c
  {
    DivCancel(sumY - d * sumX, n as real, c);
  }

  /** `LeastSquares` in terms of its four sums. */
  lemma LeastSquaresBySums(ys: seq<real>, sumX: real, sumY: real, sumXX: real, sumXY: real)
    requires |ys| > 0
    requires sumX == Sum(Steps(|ys|)) && sumY == Sum(ys)
    requires sumXX == Dot(Steps(|ys|), Steps(|ys|), |ys|) && sumXY == Dot(Steps(|ys|), ys, |ys|)
    ensures LeastSquares(ys) == Fit(|ys|, sumX, sumY, sumXX, sumXY, ys[|ys| - 1])
  {
  }

  /** The point of the line c + d·x at x = i. */
  function OnLine(c: real, d: real, i: nat): real {
    c + d * i as real
  }

  /** The sums of a series lying on the line y = c + d·x. */
  lemma {:induction false} LineSum(ys: seq<real>, c: real, d: real, k: nat)
    requires k <= |ys|
    requires forall i {:trigger OnLine(c, d, i)} :: 0 <= i < |ys| ==> ys[i] == OnLine(c, d, i)
    ensures Sum(ys[..k]) == k as real * c + d * Tri(k)
  {
    if k > 0 {
      LineSum(ys, c, d, k - 1);
      assert ys[k - 1] == OnLine(c, d, k - 1);
      PrefixStep(ys, k - 1);
      SumAppend(ys[..k - 1], [ys[k - 1]]);
      SumSingleton(ys[k - 1]);
    }
  }

  lemma {:induction false} LineDot(ys: seq<real>, c: real, d: real, k: nat)
    requires k <= |ys|
    requires forall i {:trigger OnLine(c, d, i)} :: 0 <= i < |ys| ==> ys[i] == OnLine(c, d, i)
    ensures Dot(Steps(|ys|), ys, k) == c * Tri(k) + d * SqSum(k)
  {
    if k > 0 {
      LineDot(ys, c, d, k - 1);
      var m := (k - 1) as real;
      assert At(Steps(|ys|), k - 1) == m && At(ys, k - 1) == OnLine(c, d, k - 1);
      assert m * (c + d * m) == c * m + d * (m * m);
    }
  }

  /** A series of three or more months on the line c + d·i is continued to
      c + d·n, clamped at 0. */
  lemma LinearSeries(ys: seq<real>, c: real, d: real)
    requires |ys| >= 3
    requires forall i :: 0 <= i < |ys| ==> ys[i] == OnLine(c, d, i)
    ensures var p := c + d * |ys| as real; Prediction(ys) == if p >= 0.0 then p else 0.0
  {
    LineFit(ys, c, d);
  }

  lemma LineFit(ys: seq<real>, c: real, d: real)
    requires |ys| >= 3
    requires forall i {:trigger OnLine(c, d, i)} :: 0 <= i < |ys| ==> ys[i] == OnLine(c, d, i)
    ensures LeastSquares(ys) == c + d * |ys| as real
  {
    var n := |ys|;
    var sumX, sumY := Sum(Steps(n)), Sum(ys);
    var sumXX, sumXY := Dot(Steps(n), Steps(n), n), Dot(Steps(n), ys, n);
    FitOnLine(ys, n, c, d, sumX, sumY, sumXX, sumXY);
    FitOfLine(ys, n, c, d, sumX, sumY, sumXX, sumXY);
    LengthScale(ys, n, c, d, LeastSquares(ys));
  }

  /** The closed form over the sums of a series on a line is that line at x = n. */
  lemma FitOnLine(ys: seq<real>, n: nat, c: real, d: real, sumX: real, sumY: real, sumXX: real, sumXY: real)
    requires n == |ys| && n >= 3
    requires forall i {:trigger OnLine(c, d, i)} :: 0 <= i < |ys| ==> ys[i] == OnLine(c, d, i)
    requires sumX == Sum(Steps(n)) && sumY == Sum(ys)
    requires sumXX == Dot(Steps(n), Steps(n), n) && sumXY == Dot(Steps(n), ys, n)
    ensures Fit(n, sumX, sumY, sumXX, sumXY, ys[n - 1]) == c + d * n as real
  {
    NormalEquations(ys, n, c, d, sumX, sumY, sumXX, sumXY);
    FitLine(n, sumX, sumY, sumXX, sumXY, c, d, ys[n - 1]);
  }

  /** The sums of a series on a line satisfy that line's normal equations,
      and their denominator is at least 1. */
  lemma NormalEquations(ys: seq<real>, n: nat, c: real, d: real, sumX: real, sumY: real, sumXX: real, sumXY: real)
    requires n == |ys| && n >= 3
    requires forall i {:trigger OnLine(c, d, i)} :: 0 <= i < |ys| ==> ys[i] == OnLine(c, d, i)
    requires sumX == Sum(Steps(n)) && sumY == Sum(ys)
    requires sumXX == Dot(Steps(n), Steps(n), n) && sumXY == Dot(Steps(n), ys, n)
    ensures n as real * sumXX - sumX * sumX >= 1.0
    ensures sumY == n as real * c + d * sumX && sumXY == c * sumX + d * sumXX
  {
    StepsSums(n, sumX, sumXX);
    LineSums(ys, c, d, sumX, sumY, sumXX, sumXY);
    LengthScaleSum(ys, n, c, d, sumX, sumY);
  }

  lemma LengthScaleSum(ys: seq<real>, n: nat, c: real, d: real, sumX: real, sumY: real)
    requires n == |ys| && sumY == |ys| as real * c + d * sumX
    ensures sumY == n as real * c + d * sumX
  {
  }

  lemma FitOfLine(ys: seq<real>, n: nat, c: real, d: real, sumX: real, sumY: real, sumXX: real, sumXY: real)
    requires n == |ys| && n >= 3
    requires sumX == Sum(Steps(n)) && sumY == Sum(ys)
    requires sumXX == Dot(Steps(n), Steps(n), n) && sumXY == Dot(Steps(n), ys, n)
    requires Fit(n, sumX, sumY, sumXX, sumXY, ys[n - 1]) == c + d * n as real
    ensures LeastSquares(ys) == c + d * n as real
  {
    LeastSquaresBySums(ys, sumX, sumY, sumXX, sumXY);
  }

  lemma LengthScale(ys: seq<real>, n: nat, c: real, d: real, v: real)
    requires n == |ys| && v == c + d * n as real
    ensures v == c + d * |ys| as real
  {
  }


  /** The sums of a series on the line c + d·i satisfy the normal equations
      of that line, given Σi and Σi². */
  lemma LineSums(ys: seq<real>, c: real, d: real, sumX: real, sumY: real, sumXX: real, sumXY: real)
    requires forall i {:trigger OnLine(c, d, i)} :: 0 <= i < |ys| ==> ys[i] == OnLine(c, d, i)
    requires sumX == Tri(|ys|) && sumY == Sum(ys)
    requires sumXX == SqSum(|ys|) && sumXY == Dot(Steps(|ys|), ys, |ys|)
    ensures sumY == |ys| as real * c + d * sumX && sumXY == c * sumX + d * sumXX
  {
    LineSumWhole(ys, c, d, sumY, sumX);
    LineDotWhole(ys, c, d, sumXY, sumX, sumXX);
  }

  /** The sum of a whole series on the line c + d·i, with t = Σi. */
  lemma LineSumWhole(ys: seq<real>, c: real, d: real, sumY: real, t: real)
    requires forall i {:trigger OnLine(c, d, i)} :: 0 <= i < |ys| ==> ys[i] == OnLine(c, d, i)
    requires sumY == Sum(ys) && t == Tri(|ys|)
    ensures sumY == |ys| as real * c + d * t
  {
    LineSum(ys, c, d, |ys|);
    SumWhole(ys);
  }

  lemma SumWhole(ys: seq<real>)
    ensures Sum(ys[..|ys|]) == Sum(ys)
  {
    assert ys[..|ys|] == ys;
  }

  /** Σ i·y_i of a whole series on the line c + d·i, with t = Σi and q = Σi². */
  lemma LineDotWhole(ys: seq<real>, c: real, d: real, sumXY: real, t: real, q: real)
    requires forall i {:trigger OnLine(c, d, i)} :: 0 <= i < |ys| ==> ys[i] == OnLine(c, d, i)
    requires sumXY == Dot(Steps(|ys|), ys, |ys|) && t == Tri(|ys|) && q == SqSum(|ys|)
    ensures sumXY == c * t + d * q
  {
    LineDot(ys, c, d, |ys|);
  }

  /** The sums over x = 0 .. n-1 are Σi and Σi², and their spread is at least 1. */
  lemma StepsSums(n: nat, sumX: real, sumXX: real)
    requires n >= 2
    requires sumX == Sum(Steps(n)) && sumXX == Dot(Steps(n), Steps(n), n)
    ensures sumX == Tri(n) && sumXX == SqSum(n) && n as real * sumXX - sumX * sumX >= 1.0
  {
    StepsSum(n);
    StepsDot(n, n);
    SpreadAtLeastOne(n);
  }

  /** A series of one or two months predicts the quantity of its newest month
      (`end($ys)` after `ksort`). */
  lemma ShortSeriesLast(s: Series)
    requires 0 < |s| < 3
    ensures exists j :: (0 <= j < |s| && SeriesPrediction(s) == s[j].val
      && forall k :: 0 <= k < |s| ==> MonthIndex(s[k].key) <= MonthIndex(s[j].key))
  {
    var c := Chronological(s);
    SortDescSorted(s, Age);
    var newest := c[|c| - 1];
    assert newest in multiset(s);
    var j :| 0 <= j < |s| && s[j] == newest;
    forall k | 0 <= k < |s| ensures MonthIndex(s[k].key) <= MonthIndex(s[j].key) {
      assert s[k] in multiset(c);
      var p :| 0 <= p < |c| && c[p] == s[k];
      assert Age(c[p]) >= Age(newest);
    }
    assert Values(c)[|c| - 1] == newest.val;
  }

  /** A flat history of three or more months predicts its level (or 0). */
  lemma ConstantSeries(ys: seq<real>, c: real)
    requires |ys| >= 3 && forall i :: 0 <= i < |ys| ==> ys[i] == c
    ensures Prediction(ys) == if c >= 0.0 then c else 0.0
  {
    LinearSeries(ys, c, 0.0);
  }

  /** Non-negative history gives a non-negative prediction. */
  lemma PredictionNonNegative(ys: seq<real>)
    requires forall i :: 0 <= i < |ys| ==> ys[i] >= 0.0
    ensures Prediction(ys) >= 0.0
  {
  }

  // ---------------------------------------------------------------------
  // The table.

  lemma PredictionsOfKeys(monthly: MonthlyTable)
    ensures Keys(PredictionsOf(monthly)) == Keys(monthly)
  {
  }

  /** The months of a series in chronological order keep their quantities. */
  lemma ChronologicalNonNegative(s: Series)
    requires forall j :: 0 <= j < |s| ==> s[j].val >= 0.0
    ensures forall j :: 0 <= j < |s| ==> Values(Chronological(s))[j] >= 0.0
  {
    var c := Chronological(s);
    SortDescSorted(s, Age);
    forall j | 0 <= j < |c| ensures Values(c)[j] >= 0.0 {
      assert c[j] in multiset(s);
      var k :| 0 <= k < |s| && s[k] == c[j];
    }
  }

  lemma PredictionsNonNegative(rows: seq<Line>)
    requires NonNegativeLines(rows)
    ensures NonNegative(PredictionsOf(MonthlyOf(rows)))
  {
    var monthly := MonthlyOf(rows);
    MonthlyNonNegative(rows);
    forall i | 0 <= i < |monthly| ensures PredictionsOf(monthly)[i].val >= 0.0 {
      var s := monthly[i].val;
      assert forall j :: 0 <= j < |s| ==> s[j].val >= 0.0 by {
        forall j | 0 <= j < |s| ensures s[j].val >= 0.0 {
          assert monthly[i].val[j] == s[j];
        }
      }
      ChronologicalNonNegative(s);
      PredictionNonNegative(Values(Chronological(s)));
    }
  }

  /** The table covers exactly the products with history and the catalog;
      with non-negative quantities every score lies in [0,1]; catalog
      products without history read 0. */
  lemma ForecastEntries(rows: seq<Line>, catalog: seq<Product>, pid: int)
    ensures HasKey(ForecastTable(rows, catalog), pid) <==> Sold(rows, pid) || pid in CatalogIds(catalog)
    ensures !Sold(rows, pid) && pid in CatalogIds(catalog) ==> Get(ForecastTable(rows, catalog), pid, -1.0) == 0.0
    ensures NonNegativeLines(rows) && HasKey(ForecastTable(rows, catalog), pid) ==>
      0.0 <= Get(ForecastTable(rows, catalog), pid, -1.0) <= 1.0
  {
    var monthly := MonthlyOf(rows);
    var preds := PredictionsOf(monthly);
    var t := Normalized(preds);
    MonthlyKeys(rows, pid);
    PredictionsOfKeys(monthly);
    NormalizedKeys(preds);
    FillMissingGet(t, CatalogIds(catalog), pid);
    if NonNegativeLines(rows) && HasKey(t, pid) {
      PredictionsNonNegative(rows);
      NormalizedBounds(preds);
      GetPresent(t, pid, -1.0);
      var i :| 0 <= i < |t| && t[i] == Entry(pid, Get(t, pid, -1.0));
    }
  }
}
