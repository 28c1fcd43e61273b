/** `computeAll` end to end: the data store's rows are loaded once, every
    signal table is computed from them, and the composition ranks the catalog.
    The square root, the logarithm and the logistic function, the current
    month and the association rules mined from the transactions are
    parameters. */
module Service {
  import opened PhpArray
  import opened Rows
  import Cosine
  import Terms
  import Trend
  import Transactions
  import Mba
  import Content
  import Collab
  import Season
  import Forecast
  import Stock
  import Channel
  import Normalize
  import Recommend

  /** The data store as the service reads it. */
  datatype Store = Store(catalog: seq<Product>, sales: seq<Line>, orders: seq<Line>, stock: seq<StockRow>)

  /** The functions and values the service takes from PHP and its clock:
      `sqrt`, `log`, the logistic function and the current month. */
  datatype Env = Env(sqrt: real -> real, log: real -> real, logistic: real -> real, now: YearMonth)

  /** What the signals rely on: the square root is 0 at 0 and positive on
      positive arguments, the logarithm is non-negative from 1 on, and the
      logistic function lies strictly between 0 and 1. */
  ghost predicate ValidEnv(env: Env) {
    (env.sqrt(0.0) == 0.0 && forall x :: x > 0.0 ==> env.sqrt(x) > 0.0)
    && (forall x :: x >= 1.0 ==> env.log(x) >= 0.0)
    && (forall x :: 0.0 < env.logistic(x) < 1.0)
  }

  /** `getTransactions()` */
  function TransactionsOf(db: Store): seq<seq<int>> {
    Values(Transactions.GroupsOf(db.sales)) + Values(Transactions.GroupsOf(db.orders))
  }

  /** `computeMBA($transactions)`: nothing without transactions. */
  function MbaScoresOf(db: Store, rules: seq<Mba.Rule>): Arr<int, real> {
    if TransactionsOf(db) == [] then [] else Normalize.Normalized(Mba.RawScores(rules))
  }

  function MbaPairsOf(db: Store, rules: seq<Mba.Rule>): Arr<int, Arr<int, real>> {
    if TransactionsOf(db) == [] then [] else Mba.NormalizedRows(Mba.RawPairs(rules))
  }

  /** Every signal table `computeAll` builds before its loop. */
  function SignalsOf(env: Env, db: Store, rules: seq<Mba.Rule>): Recommend.Signals
    requires ValidEnv(env)
  {
    var txs := TransactionsOf(db);
    var rows := db.sales + db.orders;
    Recommend.Signals(
      MbaScoresOf(db, rules),
      MbaPairsOf(db, rules),
      Content.ContentScores(env.sqrt, env.log, db.catalog),
      Normalize.Normalized(Collab.RawCollab(env.sqrt, db.catalog, txs)),
      Season.SeasonTable(env.sqrt, env.logistic, rows, db.catalog, env.now),
      Trend.TrendTable(env.logistic, rows, db.catalog),
      Forecast.ForecastTable(rows, db.catalog),
      Stock.StockTable(db.catalog, db.stock),
      Channel.ChannelTable(db.catalog, db.sales, db.orders))
  }

  /** Steps 2 and 3 of `computeAll`. */
  method ComputeBasket(db: Store, rules: seq<Mba.Rule>)
    returns (txs: seq<seq<int>>, scores: Arr<int, real>, pairs: Arr<int, Arr<int, real>>)
    ensures txs == TransactionsOf(db)
    ensures scores == MbaScoresOf(db, rules) && pairs == MbaPairsOf(db, rules)
  {
    txs := Transactions.GetTransactions(db.sales, db.orders);
    scores, pairs := Mba.ComputeMba(txs, rules);
  }

  /** Steps 2 to 4 of `computeAll`. */
  method ComputeSignals(env: Env, db: Store, rules: seq<Mba.Rule>) returns (sig: Recommend.Signals)
    requires ValidEnv(env) && DistinctIds(db.catalog)
    ensures sig == SignalsOf(env, db, rules)
  {
    var txs, mbaScores, mbaPairs := ComputeBasket(db, rules);
    var contentSim := Content.ComputeContentSimilarity(env.sqrt, env.log, db.catalog);
    var collabSim := Collab.ComputeItemCollabSimilarity(env.sqrt, db.catalog, txs);
    var season := Season.ComputeSeasonality(env.sqrt, env.logistic, db.sales + db.orders, db.catalog, env.now);
    var trend := Trend.ComputeTrend(env.logistic, db.sales + db.orders, db.catalog);
    var forecast := Forecast.ComputeForecast(db.sales + db.orders, db.catalog);
    var stock := Stock.ComputeStockFactor(db.catalog, db.stock);
    var channel := Channel.ComputeChannelSales(db.catalog, db.sales, db.orders);
    sig := Recommend.Signals(mbaScores, mbaPairs, contentSim, collabSim, season, trend, forecast, stock, channel);
  }

  /** `computeAll($focus)` */
  method ComputeAll(focus: string, env: Env, db: Store, rules: seq<Mba.Rule>) returns (results: seq<Recommend.Result>)
    requires ValidEnv(env) && DistinctIds(db.catalog)
    ensures results == Recommend.Ranked(focus, db.catalog, SignalsOf(env, db, rules))
  {
    var sig := ComputeSignals(env, db, rules);
    results := Recommend.ComputeAll(focus, db.catalog, sig);
  }
  // ---------------------------------------------------------------------
  // End to end.

  /** The quantities the service sums are never negative, nor are the
      support and confidence of the mined rules. */
  ghost predicate WellFormed(env: Env, db: Store, rules: seq<Mba.Rule>) {
    ValidEnv(env) && DistinctIds(db.catalog) && NonNegativeLines(db.sales) && NonNegativeLines(db.orders)
    && Mba.NonNegativeRules(rules)
  }

  /** A table whose present entries lie in [0,1] reads in [0,1] under `?? 0`. */
  lemma ReadInUnit(t: Arr<int, real>, pid: int)
    requires HasKey(t, pid) ==> 0.0 <= Get(t, pid, -1.0) <= 1.0
    ensures 0.0 <= Recommend.Read(t, pid) <= 1.0
  {
    if HasKey(t, pid) {
      GetAnyDefault(t, pid, 0.0, -1.0);
    } else {
      GetMissing(t, pid, 0.0);
    }
  }

  lemma MbaRead(db: Store, rules: seq<Mba.Rule>, pid: int)
    requires Mba.NonNegativeRules(rules)
    ensures 0.0 <= Recommend.Read(MbaScoresOf(db, rules), pid) <= 1.0
  {
    if TransactionsOf(db) != [] {
      Mba.MbaInUnit(rules);
      Normalize.GetInUnit(Normalize.Normalized(Mba.RawScores(rules)), pid);
    }
  }

  lemma MonthlyReads(env: Env, db: Store, pid: int)
    requires ValidEnv(env) && NonNegativeLines(db.sales) && NonNegativeLines(db.orders)
    ensures 0.0 <= Recommend.Read(Season.SeasonTable(env.sqrt, env.logistic, db.sales + db.orders, db.catalog, env.now), pid) <= 1.0
    ensures 0.0 <= Recommend.Read(Trend.TrendTable(env.logistic, db.sales + db.orders, db.catalog), pid) <= 1.0
    ensures 0.0 <= Recommend.Read(Forecast.ForecastTable(db.sales + db.orders, db.catalog), pid) <= 1.0
  {
    NonNegativeConcat(db.sales, db.orders);
    Season.SeasonEntries(env.sqrt, env.logistic, db.sales + db.orders, db.catalog, env.now, pid);
    ReadInUnit(Season.SeasonTable(env.sqrt, env.logistic, db.sales + db.orders, db.catalog, env.now), pid);
    Trend.TrendEntries(env.logistic, db.sales + db.orders, db.catalog, pid);
    ReadInUnit(Trend.TrendTable(env.logistic, db.sales + db.orders, db.catalog), pid);
    Forecast.ForecastEntries(db.sales + db.orders, db.catalog, pid);
    ReadInUnit(Forecast.ForecastTable(db.sales + db.orders, db.catalog), pid);
  }

  lemma CatalogReads(env: Env, db: Store, pid: int)
    requires ValidEnv(env)
    ensures 0.0 <= Recommend.Read(Content.ContentScores(env.sqrt, env.log, db.catalog), pid) <= 1.0
    ensures 0.0 <= Recommend.Read(Normalize.Normalized(Collab.RawCollab(env.sqrt, db.catalog, TransactionsOf(db))), pid) <= 1.0
    ensures 0.0 <= Recommend.Read(Stock.StockTable(db.catalog, db.stock), pid) <= 1.0
  {
    Content.ContentInUnit(env.sqrt, env.log, db.catalog);
    Normalize.GetInUnit(Content.ContentScores(env.sqrt, env.log, db.catalog), pid);
    Collab.CollabInUnit(env.sqrt, db.catalog, TransactionsOf(db));
    Normalize.GetInUnit(Normalize.Normalized(Collab.RawCollab(env.sqrt, db.catalog, TransactionsOf(db))), pid);
    var st := Stock.StockTable(db.catalog, db.stock);
    Stock.StockTableInUnit(db.catalog, db.stock);
    assert Normalize.InUnit(st) by {
      forall i | 0 <= i < |st| ensures 0.0 <= st[i].val <= 1.0 {
        assert st[i] in st;
      }
    }
    Normalize.GetInUnit(st, pid);
  }

  /** Both channel shares of any id lie in [0,1]. */
  lemma ChannelRead(db: Store, pid: int)
    requires DistinctIds(db.catalog) && NonNegativeLines(db.sales) && NonNegativeLines(db.orders)
    ensures 0.0 <= Recommend.Mix(Channel.ChannelTable(db.catalog, db.sales, db.orders), pid).onlineRatio <= 1.0
    ensures 0.0 <= Recommend.Mix(Channel.ChannelTable(db.catalog, db.sales, db.orders), pid).otcRatio <= 1.0
  {
    var t := Channel.ChannelTable(db.catalog, db.sales, db.orders);
    if pid in CatalogIds(db.catalog) {
      var i :| 0 <= i < |db.catalog| && CatalogIds(db.catalog)[i] == pid;
      Channel.ChannelEntry(db.catalog, db.sales, db.orders, i);
      SumQtyNonNegative(db.sales, pid);
      SumQtyNonNegative(db.orders, pid);
      if SumQty(db.sales, pid) + SumQty(db.orders, pid) > 0 {
        Channel.MixSold(SumQty(db.sales, pid), SumQty(db.orders, pid));
      }
    } else {
      PerProductMissing(db.catalog, Channel.MixOfProduct(db.sales, db.orders), pid);
      GetMissing(t, pid, Channel.ChannelMix(0.0, 0.0, None));
    }
  }

  /** On well-formed data every final score `computeAll` can return lies in
      [0, 1.05], and one of a product that sold nothing in [0, 0.63]. */
  lemma FinalScoresBounded(focus: string, env: Env, db: Store, rules: seq<Mba.Rule>, pid: int)
    requires WellFormed(env, db, rules)
    ensures 0.0 <= Recommend.FinalScore(focus, SignalsOf(env, db, rules), pid) <= 1.05
    ensures Recommend.TotalSales(SignalsOf(env, db, rules).channel, pid) == 0 ==>
      Recommend.FinalScore(focus, SignalsOf(env, db, rules), pid) <= 0.63
  {
    var sig := SignalsOf(env, db, rules);
    MbaRead(db, rules, pid);
    CatalogReads(env, db, pid);
    MonthlyReads(env, db, pid);
    ChannelRead(db, pid);
    Recommend.FinalScoreBounds(focus, sig, pid);
  }

  /** Every returned result scores in [0, 1.05]. */
  lemma RankedBounded(focus: string, env: Env, db: Store, rules: seq<Mba.Rule>)
    requires WellFormed(env, db, rules)
    ensures forall r :: r in Recommend.Ranked(focus, db.catalog, SignalsOf(env, db, rules)) ==> 0.0 <= r.finalScore <= 1.05
  {
    AllFinalScoresBounded(focus, env, db, rules);
    Recommend.RankedScoresWithin(focus, db.catalog, SignalsOf(env, db, rules), 0.0, 1.05);
  }

  lemma AllFinalScoresBounded(focus: string, env: Env, db: Store, rules: seq<Mba.Rule>)
    requires WellFormed(env, db, rules)
    ensures forall pid :: 0.0 <= Recommend.FinalScore(focus, SignalsOf(env, db, rules), pid) <= 1.05
  {
    forall pid ensures 0.0 <= Recommend.FinalScore(focus, SignalsOf(env, db, rules), pid) <= 1.05 {
      FinalScoresBounded(focus, env, db, rules, pid);
    }
  }
}
