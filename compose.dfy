/** The score composition of `computeAll`: for every catalog product a weighted
    sum of the signal tables, a channel boost chosen by the focus, a penalty for
    products that sold little, the product's basket partners filtered by the
    focus, and the list ordered by final score with a stable sort. The signal
    tables are inputs here; each has its own module. */
module Recommend {
  import opened PhpArray
  import opened Rows
  import opened Sorting
  import opened Normalize
  import opened Channel

  /** The tables `computeAll` reads: MBA scores and partner rows, content and
      collaborative similarity, seasonality, trend, forecast, stock factor and
      the channel mix. */
  datatype Signals = Signals(
    mba: Arr<int, real>, pairs: Arr<int, Arr<int, real>>,
    content: Arr<int, real>, collab: Arr<int, real>, season: Arr<int, real>,
    trend: Arr<int, real>, forecast: Arr<int, real>, stock: Arr<int, real>,
    channel: Arr<int, ChannelMix>)

  /** `['name' => ..., 'score' => ...]` */
  datatype Pair = Pair(name: string, score: real)

  datatype Components = Components(
    mba: real, content: real, collab: real, season: real, trend: real,
    forecast: real, stockMultiplier: real, onlineRatio: real, otcRatio: real, totalSales: int)

  datatype Result = Result(id: int, name: string, finalScore: real, components: Components, pairs: seq<Pair>)

  // ---------------------------------------------------------------------
  // One product.

  /** `$table[$id] ?? 0` */
  function Read(t: Arr<int, real>, id: int): real {
    Get(t, id, 0.0)
  }

  /** `$channel[$id]`, with a missing row reading like ratios of 0 and no total. */
  function Mix(channel: Arr<int, ChannelMix>, id: int): ChannelMix {
    Get(channel, id, ChannelMix(0.0, 0.0, None))
  }

  /** `$channel[$id]['total_sales'] ?? 0` */
  function TotalSales(channel: Arr<int, ChannelMix>, id: int): int {
    match Mix(channel, id).totalSales
    case None => 0
    case Some(t) => t
  }

  function BaseScore(sig: Signals, id: int): real {
    Read(sig.mba, id) * 0.3
    + Read(sig.content, id) * 0.2
    + Read(sig.collab, id) * 0.2
    + Read(sig.season, id) * 0.05
    + Read(sig.trend, id) * 0.05
    + Read(sig.forecast, id) * 0.1
    + Read(sig.stock, id) * 0.05
  }

  function ChannelBoost(focus: string, channel: Arr<int, ChannelMix>, id: int): real {
    var mix := Mix(channel, id);
    if focus == "Online" then mix.onlineRatio * 0.1
    else if focus == "OTC" then mix.otcRatio * 0.1
    else mix.onlineRatio * 0.05 + mix.otcRatio * 0.05
  }

  function SalesMultiplier(totalSales: int): real {
    if totalSales == 0 then 0.6
    else if totalSales < 5 then 0.85
    else 1.0
  }

  /** PHP `round($x, 4)`: to the nearest multiple of 0.0001, halves away from zero. */
  function Round4(x: real): real {
    if x >= 0.0 then (x * 10000.0 + 0.5).Floor as real / 10000.0
    else -((-x * 10000.0 + 0.5).Floor as real / 10000.0)
  }

  function FinalScore(focus: string, sig: Signals, id: int): real {
    Round4((BaseScore(sig, id) + ChannelBoost(focus, sig.channel, id)) * SalesMultiplier(TotalSales(sig.channel, id)))
  }

  /** `$products[$pid]` (ids are the catalog's primary key, so the first match is the only one). */
  function NameOf(catalog: seq<Product>, id: int): string {
    if catalog == [] then ""
    else if catalog[0].id == id then catalog[0].name
    else NameOf(catalog[1..], id)
  }

  /** A partner survives the focus filter: under "Online" or "OTC" its
      matching ratio (`?? 0`) must be at least 0.5. */
  predicate KeepPartner(focus: string, channel: Arr<int, ChannelMix>, pid: int) {
    !(focus == "Online" && Mix(channel, pid).onlineRatio < 0.5)
    && !(focus == "OTC" && Mix(channel, pid).otcRatio < 0.5)
  }

  predicate Listed(focus: string, channel: Arr<int, ChannelMix>, catalog: seq<Product>, pid: int) {
    KeepPartner(focus, channel, pid) && pid in CatalogIds(catalog)
  }

  /** The partners of one product, in the order of its MBA row. */
  function PairsOf(focus: string, channel: Arr<int, ChannelMix>, catalog: seq<Product>, row: Arr<int, real>): seq<Pair> {
    if row == [] then []
    else
      var rest := PairsOf(focus, channel, catalog, row[..|row| - 1]);
      var e := row[|row| - 1];
      if Listed(focus, channel, catalog, e.key) then rest + [Pair(NameOf(catalog, e.key), e.val)] else rest
  }

  function ComponentsOf(sig: Signals, id: int): Components {
    var mix := Mix(sig.channel, id);
    Components(Read(sig.mba, id), Read(sig.content, id), Read(sig.collab, id), Read(sig.season, id),
               Read(sig.trend, id), Read(sig.forecast, id), Read(sig.stock, id),
               mix.onlineRatio, mix.otcRatio, TotalSales(sig.channel, id))
  }

  function ResultFor(focus: string, catalog: seq<Product>, sig: Signals, p: Product): Result {
    Result(p.id, p.name, FinalScore(focus, sig, p.id), ComponentsOf(sig, p.id),
           PairsOf(focus, sig.channel, catalog, Get(sig.pairs, p.id, [])))
  }

  /** The results in catalog order, before `usort`. */
  function Unranked(focus: string, catalog: seq<Product>, sig: Signals): (rs: seq<Result>)
    ensures |rs| == |catalog|
  {
    seq(|catalog|, i requires 0 <= i < |catalog| => ResultFor(focus, catalog, sig, catalog[i]))
  }

  function ScoreKey(r: Result): real { r.finalScore }

  /** What `computeAll` returns. */
  function Ranked(focus: string, catalog: seq<Product>, sig: Signals): seq<Result> {
    SortDesc(Unranked(focus, catalog, sig), ScoreKey)
  }

  // ---------------------------------------------------------------------
  // The loops.

  /** The loop over `$mbaResult['pairs'][$id] ?? []`. */
  method CollectPairs(focus: string, channel: Arr<int, ChannelMix>, catalog: seq<Product>, row: Arr<int, real>)
    returns (pairs: seq<Pair>)
    ensures pairs == PairsOf(focus, channel, catalog, row)
  {
    pairs := [];
    for j := 0 to |row|
      invariant pairs == PairsOf(focus, channel, catalog, row[..j])
    {
      var pid, score := row[j].key, row[j].val;
      assert row[..j + 1][..j] == row[..j];
      if focus == "Online" && Mix(channel, pid).onlineRatio < 0.5 {
        continue;
      }
      if focus == "OTC" && Mix(channel, pid).otcRatio < 0.5 {
        continue;
      }
      if pid in CatalogIds(catalog) {
        pairs := pairs + [Pair(NameOf(catalog, pid), score)];
      }
    }
    assert row[..|row|] == row;
  }

  /** The body of the loop over `$products` for one product. */
  method ScoreProduct(focus: string, catalog: seq<Product>, sig: Signals, p: Product) returns (r: Result)
    ensures r == ResultFor(focus, catalog, sig, p)
  {
    var id := p.id;
    var baseScore := Read(sig.mba, id) * 0.3
      + Read(sig.content, id) * 0.2
      + Read(sig.collab, id) * 0.2
      + Read(sig.season, id) * 0.05
      + Read(sig.trend, id) * 0.05
      + Read(sig.forecast, id) * 0.1
      + Read(sig.stock, id) * 0.05;
    var channelBoost := 0.0;
    if focus == "Online" {
      channelBoost := Mix(sig.channel, id).onlineRatio * 0.1;
    } else if focus == "OTC" {
      channelBoost := Mix(sig.channel, id).otcRatio * 0.1;
    } else {
      channelBoost := Mix(sig.channel, id).onlineRatio * 0.05 + Mix(sig.channel, id).otcRatio * 0.05;
    }
    var totalSales := TotalSales(sig.channel, id);
    var salesMultiplier;
    if totalSales == 0 {
      salesMultiplier := 0.6;
    } else if totalSales < 5 {
      salesMultiplier := 0.85;
    } else {
      salesMultiplier := 1.0;
    }
    var pairs := CollectPairs(focus, sig.channel, catalog, Get(sig.pairs, id, []));
    var finalScore := (baseScore + channelBoost) * salesMultiplier;
    r := Result(id, p.name, Round4(finalScore), ComponentsOf(sig, id), pairs);
  }

  /** `computeAll` given the catalog and the signal tables. */
  method ComputeAll(focus: string, catalog: seq<Product>, sig: Signals) returns (results: seq<Result>)
    ensures results == Ranked(focus, catalog, sig)
  {
    results := [];
    for i := 0 to |catalog|
      invariant results == Unranked(focus, catalog, sig)[..i]
    {
      var r := ScoreProduct(focus, catalog, sig, catalog[i]);
      results := results + [r];
      PrefixStep(Unranked(focus, catalog, sig), i);
    }
    assert Unranked(focus, catalog, sig)[..|catalog|] == Unranked(focus, catalog, sig);
    // usort($results, fn($a, $b) => $b['final_score'] <=> $a['final_score'])
    results := SortDesc(results, ScoreKey);
  }

  // ---------------------------------------------------------------------
  // The ranking.

  /** The returned list is ordered by final score, highest first, holds each
      product's result exactly as often as the catalog lists the product, and
      keeps catalog order among equal scores (PHP 8's `usort` is stable). */
  lemma RankedOrder(focus: string, catalog: seq<Product>, sig: Signals, k: real)
    ensures SortedDesc(Ranked(focus, catalog, sig), ScoreKey)
    ensures multiset(Ranked(focus, catalog, sig)) == multiset(Unranked(focus, catalog, sig))
    ensures WithKey(Ranked(focus, catalog, sig), ScoreKey, k) == WithKey(Unranked(focus, catalog, sig), ScoreKey, k)
  {
    SortDescSorted(Unranked(focus, catalog, sig), ScoreKey);
    SortDescStable(Unranked(focus, catalog, sig), ScoreKey, k);
  }

  /** Bounds that hold for every catalog product's final score hold for every ranked result. */
  lemma RankedScoresWithin(focus: string, catalog: seq<Product>, sig: Signals, lo: real, hi: real)
    requires forall i :: 0 <= i < |catalog| ==> lo <= FinalScore(focus, sig, catalog[i].id) <= hi
    ensures forall r :: r in Ranked(focus, catalog, sig) ==> lo <= r.finalScore <= hi
  {
    RankedCoversCatalog(focus, catalog, sig);
    forall r | r in Ranked(focus, catalog, sig) ensures lo <= r.finalScore <= hi {
      var i :| 0 <= i < |catalog| && r == ResultFor(focus, catalog, sig, catalog[i]);
    }
  }

  /** One result per catalog product and nothing else. */
  lemma RankedCoversCatalog(focus: string, catalog: seq<Product>, sig: Signals)
    ensures |Ranked(focus, catalog, sig)| == |catalog|
    ensures forall i :: 0 <= i < |catalog| ==> ResultFor(focus, catalog, sig, catalog[i]) in Ranked(focus, catalog, sig)
    ensures forall r :: r in Ranked(focus, catalog, sig) ==> exists i :: 0 <= i < |catalog| && r == ResultFor(focus, catalog, sig, catalog[i])
  {
    var u := Unranked(focus, catalog, sig);
    SortDescSorted(u, ScoreKey);
    forall i | 0 <= i < |catalog|
      ensures ResultFor(focus, catalog, sig, catalog[i]) in Ranked(focus, catalog, sig)
    {
      assert u[i] in multiset(u);
    }
    forall r | r in Ranked(focus, catalog, sig)
      ensures exists i :: 0 <= i < |catalog| && r == ResultFor(focus, catalog, sig, catalog[i])
    {
      assert r in multiset(u);
      var i :| 0 <= i < |u| && u[i] == r;
    }
  }

  /** The first result has the highest final score of all. */
  lemma RankedHead(focus: string, catalog: seq<Product>, sig: Signals, i: nat)
    requires i < |catalog|
    ensures FinalScore(focus, sig, catalog[i].id) <= Ranked(focus, catalog, sig)[0].finalScore
  {
    RankedCoversCatalog(focus, catalog, sig);
    var rs := Ranked(focus, catalog, sig);
    SortDescSorted(Unranked(focus, catalog, sig), ScoreKey);
    var r := ResultFor(focus, catalog, sig, catalog[i]);
    var j :| 0 <= j < |rs| && rs[j] == r;
    if j > 0 {
      assert ScoreKey(rs[0]) >= ScoreKey(rs[j]);
    }
  }

  // ---------------------------------------------------------------------
  // Partners.

  /** A catalog product's name under its own id. */
  lemma {:induction false} NameOfCatalog(catalog: seq<Product>, i: nat)
    requires DistinctIds(catalog) && i < |catalog|
    ensures NameOf(catalog, catalog[i].id) == catalog[i].name
  {
    if i > 0 {
      NameOfCatalog(catalog[1..], i - 1);
    }
  }

  /** A pair is listed exactly when some entry of the MBA row names a partner
      that passes the focus filter and is in the catalog, with that partner's
      name and that entry's score; no more pairs than row entries. */
  lemma {:induction false} PairsOfMembers(focus: string, channel: Arr<int, ChannelMix>, catalog: seq<Product>, row: Arr<int, real>, p: Pair)
    ensures |PairsOf(focus, channel, catalog, row)| <= |row|
    ensures p in PairsOf(focus, channel, catalog, row) <==>
      exists j :: 0 <= j < |row| && Listed(focus, channel, catalog, row[j].key)
        && p == Pair(NameOf(catalog, row[j].key), row[j].val)
  {
    if row != [] {
      var init := row[..|row| - 1];
      PairsOfMembers(focus, channel, catalog, init, p);
      if p in PairsOf(focus, channel, catalog, init) {
        var j :| 0 <= j < |init| && Listed(focus, channel, catalog, init[j].key)
          && p == Pair(NameOf(catalog, init[j].key), init[j].val);
        assert row[j] == init[j];
      }
      if exists j :: (0 <= j < |row| && Listed(focus, channel, catalog, row[j].key)
        && p == Pair(NameOf(catalog, row[j].key), row[j].val))
      {
        var j :| 0 <= j < |row| && Listed(focus, channel, catalog, row[j].key)
          && p == Pair(NameOf(catalog, row[j].key), row[j].val);
        if j < |init| {
          assert init[j] == row[j];
        }
      }
    }
  }

  /** With no channel focus every partner in the catalog is listed, in row order. */
  lemma {:induction false} NeutralFocusKeepsCatalogPartners(focus: string, channel: Arr<int, ChannelMix>, catalog: seq<Product>, row: Arr<int, real>)
    requires focus != "Online" && focus != "OTC"
    requires forall j :: 0 <= j < |row| ==> row[j].key in CatalogIds(catalog)
    ensures |PairsOf(focus, channel, catalog, row)| == |row|
    ensures forall j :: 0 <= j < |row| ==> PairsOf(focus, channel, catalog, row)[j] == Pair(NameOf(catalog, row[j].key), row[j].val)
  {
    if row != [] {
      var init := row[..|row| - 1];
      NeutralFocusKeepsCatalogPartners(focus, channel, catalog, init);
    }
  }

  // ---------------------------------------------------------------------
  // Scores.

  lemma Round4Close(x: real)
    ensures x - 0.00005 <= Round4(x) <= x + 0.00005
    ensures Round4(-x) == -Round4(x)
  {
  }

  lemma Round4Monotone(x: real, y: real)
    requires 0.0 <= x <= y
    ensures Round4(x) <= Round4(y)
  {
    var fx, fy := (x * 10000.0 + 0.5).Floor, (y * 10000.0 + 0.5).Floor;
    assert fx as real <= x * 10000.0 + 0.5 <= y * 10000.0 + 0.5 < fy as real + 1.0;
    assert fx <= fy;
  }

  lemma FloorHalf(k: int)
    ensures (k as real + 0.5).Floor == k
  {
  }

  /** Multiples of 0.0001 are left as they are. */
  lemma Round4Exact(k: int)
    ensures Round4(k as real / 10000.0) == k as real / 10000.0
  {
    var x := k as real / 10000.0;
    if k >= 0 {
      assert x * 10000.0 == k as real;
      FloorHalf(k);
    } else {
      assert -x * 10000.0 == (-k) as real;
      FloorHalf(-k);
    }
  }

  /** The weights add up to 0.95 and the boost to at most 0.1. */
  lemma RawBounds(focus: string, sig: Signals, id: int)
    requires 0.0 <= Read(sig.mba, id) <= 1.0 && 0.0 <= Read(sig.content, id) <= 1.0
    requires 0.0 <= Read(sig.collab, id) <= 1.0 && 0.0 <= Read(sig.season, id) <= 1.0
    requires 0.0 <= Read(sig.trend, id) <= 1.0 && 0.0 <= Read(sig.forecast, id) <= 1.0
    requires 0.0 <= Read(sig.stock, id) <= 1.0
    requires 0.0 <= Mix(sig.channel, id).onlineRatio <= 1.0 && 0.0 <= Mix(sig.channel, id).otcRatio <= 1.0
    ensures 0.0 <= BaseScore(sig, id) <= 0.95
    ensures 0.0 <= ChannelBoost(focus, sig.channel, id) <= 0.1
  {
  }

  /** Rounding the penalised score of a raw score in [0, 1.05]. */
  lemma PenalisedBounds(raw: real, totalSales: int)
    requires 0.0 <= raw <= 1.05
    ensures 0.0 <= Round4(raw * SalesMultiplier(totalSales)) <= 1.05
    ensures totalSales == 0 ==> Round4(raw * SalesMultiplier(totalSales)) <= 0.63
    ensures 0 < totalSales < 5 ==> Round4(raw * SalesMultiplier(totalSales)) <= 0.8925
  {
    var x := raw * SalesMultiplier(totalSales);
    assert 0.0 <= x <= raw;
    Round4Monotone(0.0, x);
    Round4Exact(0);
    Round4Exact(10500);
    Round4Monotone(x, 1.05);
    if totalSales == 0 {
      Round4Exact(6300);
      Round4Monotone(x, 0.63);
    } else if totalSales < 5 {
      Round4Exact(8925);
      Round4Monotone(x, 0.8925);
    }
  }

  lemma FinalScoreOfRaw(focus: string, sig: Signals, id: int)
    ensures FinalScore(focus, sig, id)
         == Round4((BaseScore(sig, id) + ChannelBoost(focus, sig.channel, id)) * SalesMultiplier(TotalSales(sig.channel, id)))
  {
  }

  /** With every signal of the product in [0,1] and its channel shares in
      [0,1], the weights (0.95 in all) and the boost (at most 0.1) keep the
      final score in [0, 1.05]; a product that sold nothing keeps at most 0.6
      of that, and one that sold fewer than 5 units at most 0.85 of it. */
  lemma FinalScoreBounds(focus: string, sig: Signals, id: int)
    requires 0.0 <= Read(sig.mba, id) <= 1.0 && 0.0 <= Read(sig.content, id) <= 1.0
    requires 0.0 <= Read(sig.collab, id) <= 1.0 && 0.0 <= Read(sig.season, id) <= 1.0
    requires 0.0 <= Read(sig.trend, id) <= 1.0 && 0.0 <= Read(sig.forecast, id) <= 1.0
    requires 0.0 <= Read(sig.stock, id) <= 1.0
    requires 0.0 <= Mix(sig.channel, id).onlineRatio <= 1.0 && 0.0 <= Mix(sig.channel, id).otcRatio <= 1.0
    ensures 0.0 <= FinalScore(focus, sig, id) <= 1.05
    ensures TotalSales(sig.channel, id) == 0 ==> FinalScore(focus, sig, id) <= 0.63
    ensures 0 < TotalSales(sig.channel, id) < 5 ==> FinalScore(focus, sig, id) <= 0.8925
  {
    RawBounds(focus, sig, id);
    FinalScoreOfRaw(focus, sig, id);
    PenalisedBounds(BaseScore(sig, id) + ChannelBoost(focus, sig.channel, id), TotalSales(sig.channel, id));
  }

  /** A product missing from every table reads 0 in every component, has no
      partners and scores 0: each `?? 0` falls back to 0. */
  lemma UnscoredProduct(focus: string, catalog: seq<Product>, sig: Signals, p: Product)
    requires !HasKey(sig.mba, p.id) && !HasKey(sig.content, p.id) && !HasKey(sig.collab, p.id)
    requires !HasKey(sig.season, p.id) && !HasKey(sig.trend, p.id) && !HasKey(sig.forecast, p.id)
    requires !HasKey(sig.stock, p.id) && !HasKey(sig.channel, p.id) && !HasKey(sig.pairs, p.id)
    ensures ResultFor(focus, catalog, sig, p)
         == Result(p.id, p.name, 0.0, Components(0.0, 0.0, 0.0, 0.0, 0.0, 0.0, 0.0, 0.0, 0.0, 0), [])
  {
    GetMissing(sig.mba, p.id, 0.0);
    GetMissing(sig.content, p.id, 0.0);
    GetMissing(sig.collab, p.id, 0.0);
    GetMissing(sig.season, p.id, 0.0);
    GetMissing(sig.trend, p.id, 0.0);
    GetMissing(sig.forecast, p.id, 0.0);
    GetMissing(sig.stock, p.id, 0.0);
    GetMissing(sig.channel, p.id, ChannelMix(0.0, 0.0, None));
    GetMissing(sig.pairs, p.id, []);
    FloorHalf(0);
  }
}
