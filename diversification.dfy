/** The diversification analysis page: market value per asset class, the
    number of classes, the largest class's share, a clamped score with its
    level, recommendations, and the overall performance. */
module Diversification {
  import opened Common
  import opened Valuation

  /** Quantity times the resolved price (live quote or purchase price). */
  function MarketValue(a: Asset, lookup: PriceLookup): real {
    a.quantity * CurrentPrice(a, lookup)
  }

  /** `sum(quantity * current_price)` over the assets. */
  function TotalValue(assets: seq<Asset>, lookup: PriceLookup): real {
    if assets == [] then 0.0
    else TotalValue(assets[..|assets| - 1], lookup) + MarketValue(assets[|assets| - 1], lookup)
  }

  /** `sum(quantity * buy_price)` over the assets. */
  function TotalInvested(assets: seq<Asset>): real {
    if assets == [] then 0.0
    else TotalInvested(assets[..|assets| - 1]) + assets[|assets| - 1].quantity * assets[|assets| - 1].buyPrice
  }

  /** The analysis page resolves prices as the dashboard does, so its total
      value and total invested are the dashboard's two totals. */
  lemma {:induction false} AnalysisTotalsAreDashboardTotals(assets: seq<Asset>, lookup: PriceLookup)
    ensures TotalValue(assets, lookup) == SumValues(Lines(assets, lookup))
    ensures TotalInvested(assets) == SumCosts(Lines(assets, lookup))
  {
    if assets != [] {
      var init := assets[..|assets| - 1];
      AnalysisTotalsAreDashboardTotals(init, lookup);
      var ls := Lines(assets, lookup);
      var last := LineOf(assets[|assets| - 1], lookup);
      assert ls[..|ls| - 1] == Lines(init, lookup) && ls[|ls| - 1] == last;
      assert last.value == MarketValue(assets[|assets| - 1], lookup);
    }
  }

  /** `m.get(k, 0)`. */
  function GetOrZero(m: map<string, real>, k: string): real {
    if k in m then m[k] else 0.0
  }

  /** The type distribution after the first assets of the loop: each asset
      adds its market value to the entry of its class. */
  function Distribution(assets: seq<Asset>, lookup: PriceLookup): map<string, real> {
    if assets == [] then map[]
    else
      var a := assets[|assets| - 1];
      var d := Distribution(assets[..|assets| - 1], lookup);
      d[a.assetType := GetOrZero(d, a.assetType) + MarketValue(a, lookup)]
  }

  /** The distribution has one entry per asset class present, and no other. */
  lemma {:induction false} DistributionKeys(assets: seq<Asset>, lookup: PriceLookup)
    ensures forall t :: t in Distribution(assets, lookup) <==> exists i :: 0 <= i < |assets| && assets[i].assetType == t
  {
    if assets != [] {
      var init := assets[..|assets| - 1];
      DistributionKeys(init, lookup);
      assert forall i :: 0 <= i < |init| ==> init[i] == assets[i];
    }
  }

  /** The loop that builds `type_distribution`. */
  method BuildDistribution(assets: seq<Asset>, lookup: PriceLookup) returns (dist: map<string, real>)
    ensures dist == Distribution(assets, lookup)
  {
    dist := map[];
    var i := 0;
    while i < |assets|
      invariant 0 <= i <= |assets|
      invariant dist == Distribution(assets[..i], lookup)
    {
      var a := assets[i];
      var value := a.quantity * CurrentPrice(a, lookup);
      dist := dist[a.assetType := GetOrZero(dist, a.assetType) + value];
      ghost var prefix := assets[..i + 1];
      assert prefix[..|prefix| - 1] == assets[..i] && prefix[|prefix| - 1] == a;
      assert value == MarketValue(a, lookup);
      i := i + 1;
    }
    assert assets[..i] == assets;
  }

  /** The sum of the values of a map (the order of the keys does not matter). */
  ghost function MapSum(m: map<string, real>): real
    decreases |m|
  {
    if m == map[] then 0.0
    else
      var k := PickKey(m);
      m[k] + MapSum(m - {k})
  }

  /** Some key of a non-empty map. */
  ghost function PickKey(m: map<string, real>): (k: string)
    requires m != map[]
    ensures k in m
  {
    Pick(m.Keys)
  }

  /** Any key can be taken out first. */
  lemma {:induction false} MapSumRemove(m: map<string, real>, k: string)
    requires k in m
    ensures MapSum(m) == m[k] + MapSum(m - {k})
    decreases |m|
  {
    var j := PickKey(m);
    if j != k {
      assert (m - {j}) - {k} == (m - {k}) - {j};
      MapSumRemove(m - {j}, k);
      MapSumRemove(m - {k}, j);
    }
  }

  /** Adding `v` to the entry of `k` (creating it at 0) adds `v` to the sum. */
  lemma MapSumAdd(m: map<string, real>, k: string, v: real)
    ensures MapSum(m[k := GetOrZero(m, k) + v]) == MapSum(m) + v
  {
    var m' := m[k := GetOrZero(m, k) + v];
    MapSumRemove(m', k);
    assert m' - {k} == m - {k};
    if k in m {
      MapSumRemove(m, k);
    } else {
      assert m - {k} == m;
    }
  }

  /** The distribution's values add up to the total market value. */
  lemma {:induction false} DistributionSumsToTotal(assets: seq<Asset>, lookup: PriceLookup)
    ensures MapSum(Distribution(assets, lookup)) == TotalValue(assets, lookup)
  {
    if assets != [] {
      var init := assets[..|assets| - 1];
      var a := assets[|assets| - 1];
      DistributionSumsToTotal(init, lookup);
      MapSumAdd(Distribution(init, lookup), a.assetType, MarketValue(a, lookup));
    }
  }

  /** With non-negative values, every entry is at most the sum. */
  lemma {:induction false} EntryAtMostSum(m: map<string, real>, k: string)
    requires forall j :: j in m ==> m[j] >= 0.0
    requires k in m
    ensures 0.0 <= m[k] <= MapSum(m)
  {
    MapSumRemove(m, k);
    MapSumNonNegative(m - {k});
  }

  lemma {:induction false} MapSumNonNegative(m: map<string, real>)
    requires forall j :: j in m ==> m[j] >= 0.0
    ensures MapSum(m) >= 0.0
    decreases |m|
  {
    if m != map[] {
      var k := PickKey(m);
      MapSumNonNegative(m - {k});
    }
  }

  /** `max(type_distribution.values())`. */
  function MaxValue(m: map<string, real>): (r: real)
    requires m != map[]
    ensures exists k :: k in m && m[k] == r
    ensures forall k :: k in m ==> m[k] <= r
  {
    var r := Largest(m.Values);
    assert forall k :: k in m ==> m[k] in m.Values;
    r
  }

  /** The largest element of a non-empty set of reals. */
  function Largest(s: set<real>): (r: real)
    requires s != {}
    ensures r in s && forall v :: v in s ==> v <= r
  {
    LargestExists(s);
    var r :| r in s && forall v :: v in s ==> v <= r; r
  }

  lemma {:induction false} LargestExists(s: set<real>)
    requires s != {}
    ensures exists r :: r in s && forall v :: v in s ==> v <= r
    decreases |s|
  {
    var x := Pick(s);
    var rest := s - {x};
    assert s == rest + {x};
    if rest == {} {
      LargestOfInsert(rest, x, x);
    } else {
      LargestExists(rest);
      var r :| r in rest && forall v :: v in rest ==> v <= r;
      LargestOfInsert(rest, x, r);
    }
  }

  /** Adding a value to a set whose largest value is `r` (or to the empty
      set, with `r` the added value) gives the larger of the two as largest. */
  lemma LargestOfInsert(s: set<real>, x: real, r: real)
    requires (s == {} && r == x) || (r in s && forall v :: v in s ==> v <= r)
    ensures var n := if r < x then x else r; n in s + {x} && forall v :: v in s + {x} ==> v <= n
  {
  }

  /** `max(values) / total if total > 0 else 0`. */
  function MaxConcentration(dist: map<string, real>, total: real): real
    requires total > 0.0 ==> dist != map[]
  {
    if total > 0.0 then MaxValue(dist) / total else 0.0
  }

  /** With non-negative market values and a positive total, the largest
      class holds between 0 and all of the total. */
  lemma ConcentrationIsAShare(assets: seq<Asset>, lookup: PriceLookup)
    requires forall i :: 0 <= i < |assets| ==> MarketValue(assets[i], lookup) >= 0.0
    requires TotalValue(assets, lookup) > 0.0
    ensures Distribution(assets, lookup) != map[]
    ensures 0.0 <= MaxConcentration(Distribution(assets, lookup), TotalValue(assets, lookup)) <= 1.0
  {
    var dist := Distribution(assets, lookup);
    var total := TotalValue(assets, lookup);
    NonEmptyWhenPositive(assets, lookup);
    DistributionNonNegative(assets, lookup);
    var k :| k in dist && dist[k] == MaxValue(dist);
    EntryAtMostSum(dist, k);
    DistributionSumsToTotal(assets, lookup);
    ShareBounds(dist[k], total);
  }

  lemma ShareBounds(part: real, total: real)
    requires total > 0.0 && 0.0 <= part <= total
    ensures 0.0 <= part / total <= 1.0
  {
  }

  lemma {:induction false} NonEmptyWhenPositive(assets: seq<Asset>, lookup: PriceLookup)
    requires TotalValue(assets, lookup) != 0.0
    ensures Distribution(assets, lookup) != map[]
  {
    assert assets != [];
    assert assets[|assets| - 1].assetType in Distribution(assets, lookup);
  }

  lemma {:induction false} DistributionNonNegative(assets: seq<Asset>, lookup: PriceLookup)
    requires forall i :: 0 <= i < |assets| ==> MarketValue(assets[i], lookup) >= 0.0
    ensures forall t :: t in Distribution(assets, lookup) ==> Distribution(assets, lookup)[t] >= 0.0
  {
    if assets != [] {
      var init := assets[..|assets| - 1];
      assert forall i :: 0 <= i < |init| ==> init[i] == assets[i];
      DistributionNonNegative(init, lookup);
      var a := assets[|assets| - 1];
      assert MarketValue(a, lookup) >= 0.0;
    }
  }

  /** The diversification score: 15 points per class, minus 50 times the
      largest share, plus 2 points per asset, clamped to [0, 100]; 0 when
      the portfolio is worth nothing. */
  function Score(typesCount: nat, maxConcentration: real, assetCount: nat, total: real): (score: real)
    ensures 0.0 <= score <= 100.0
    ensures total <= 0.0 ==> score == 0.0
    ensures total > 0.0 ==> var raw := 15.0 * typesCount as real - 50.0 * maxConcentration + 2.0 * assetCount as real;
      (0.0 <= raw <= 100.0 ==> score == raw) && (raw < 0.0 ==> score == 0.0) && (raw > 100.0 ==> score == 100.0)
  {
    if total > 0.0 then
      var raw := 15.0 * typesCount as real - 50.0 * maxConcentration + 2.0 * assetCount as real;
      if raw > 100.0 then 100.0 else if raw < 0.0 then 0.0 else raw
    else 0.0
  }

  /** The level shown next to the score. */
  function Level(score: real): (level: string)
    ensures level == "excellent" <==> score >= 70.0
    ensures level == "bon" <==> 50.0 <= score < 70.0
    ensures level == "faible" <==> score < 50.0
  {
    if score >= 70.0 then "excellent" else if score >= 50.0 then "bon" else "faible"
  }

  const TooFewClasses := "Diversifiez dans plus de classes d'actifs"
  const TooConcentrated := "Réduisez la concentration de votre actif principal"
  const TooFewAssets := "Augmentez le nombre d'actifs dans votre portefeuille"
  const WellDiversified := "Votre portefeuille est bien diversifié !"

  /** The position of each message in the page's list. */
  function Rank(message: string): int {
    if message == TooFewClasses then 0
    else if message == TooConcentrated then 1
    else if message == TooFewAssets then 2
    else 3
  }

  /** The recommendations, in the order the page lists them. */
  function Recommendations(typesCount: nat, maxConcentration: real, assetCount: nat): (recs: seq<string>)
    ensures |recs| >= 1
    ensures TooFewClasses in recs <==> typesCount < 3
    ensures TooConcentrated in recs <==> maxConcentration > 0.5
    ensures TooFewAssets in recs <==> assetCount < 5
    ensures WellDiversified in recs <==> typesCount >= 3 && maxConcentration <= 0.5 && assetCount >= 5
    ensures WellDiversified in recs ==> recs == [WellDiversified]
    ensures forall m :: m in recs ==> m in {TooFewClasses, TooConcentrated, TooFewAssets, WellDiversified}
    ensures forall i, j :: 0 <= i < j < |recs| ==> Rank(recs[i]) < Rank(recs[j])
  {
    var recs := (if typesCount < 3 then [TooFewClasses] else [])
      + (if maxConcentration > 0.5 then [TooConcentrated] else [])
      + (if assetCount < 5 then [TooFewAssets] else []);
    if recs == [] then [WellDiversified] else recs
  }

  /** The overall performance: the gain over the amount invested, as a
      percentage, and 0 when nothing positive was invested. */
  function Performance(totalValue: real, invested: real): (p: real)
    ensures invested <= 0.0 ==> p == 0.0
    ensures invested > 0.0 ==> p * invested == (totalValue - invested) * 100.0
    ensures invested > 0.0 ==> (p > 0.0 <==> totalValue > invested) && (p == 0.0 <==> totalValue == invested)
  {
    Percent(totalValue - invested, invested)
  }

  /** What the analysis page shows. */
  datatype Report = Report(
    totalValue: real,
    distribution: map<string, real>,
    typesCount: nat,
    maxConcentration: real,
    score: real,
    level: string,
    recommendations: seq<string>,
    performance: real)

  /** The analysis handler. */
  method Analyse(assets: seq<Asset>, lookup: PriceLookup) returns (r: Report)
    ensures r.totalValue == TotalValue(assets, lookup)
    ensures r.distribution == Distribution(assets, lookup)
    ensures r.typesCount == |r.distribution|
    ensures r.totalValue > 0.0 ==> r.distribution != map[]
    ensures r.maxConcentration == MaxConcentration(r.distribution, r.totalValue)
    ensures r.score == Score(r.typesCount, r.maxConcentration, |assets|, r.totalValue)
    ensures r.level == Level(r.score)
    ensures r.recommendations == Recommendations(r.typesCount, r.maxConcentration, |assets|)
    ensures r.performance == Performance(r.totalValue, TotalInvested(assets))
  {
    var total := TotalValue(assets, lookup);
    var dist := BuildDistribution(assets, lookup);
    if total > 0.0 {
      NonEmptyWhenPositive(assets, lookup);
    }
    var typesCount := |dist|;
    var maxConc := MaxConcentration(dist, total);
    var score := Score(typesCount, maxConc, |assets|, total);
    var invested := TotalInvested(assets);
    r := Report(total, dist, typesCount, maxConc, score, Level(score),
      Recommendations(typesCount, maxConc, |assets|), Performance(total, invested));
  }

  /** An empty portfolio scores 0 ("faible") and is told to diversify and
      add assets; its performance is 0. */
  lemma EmptyPortfolio(lookup: PriceLookup)
    ensures TotalValue([], lookup) == 0.0 && Distribution([], lookup) == map[]
    ensures Score(0, MaxConcentration(map[], 0.0), 0, 0.0) == 0.0
    ensures Level(0.0) == "faible"
    ensures Recommendations(0, 0.0, 0) == [TooFewClasses, TooFewAssets]
  {
  }
}
