/** The valuation aggregator behind the dashboard, the asset list and the
    import/export page: resolve each asset's price (live quote or purchase
    price), value it, and accumulate portfolio totals. */
module Valuation {
  import opened Common

  /** A holding of one user. `coinId` is the optional key for the live price
      service. Quantities and prices are exact reals. */
  datatype Asset = Asset(
    symbol: string,
    assetType: string,
    quantity: real,
    buyPrice: real,
    coinId: Option<string>)

  /** The live price service: lookup key to an optional quote. A failed or
      unknown lookup answers `None`. */
  type PriceLookup = string -> Option<real>

  /** The live quote is used only when the asset has a (non-empty) lookup key
      and the quote is truthy, so a quote of `0.0` also falls back. */
  predicate UsesLivePrice(a: Asset, lookup: PriceLookup) {
    TruthyString(a.coinId) && TruthyReal(lookup(a.coinId.value))
  }

  function CurrentPrice(a: Asset, lookup: PriceLookup): real {
    if UsesLivePrice(a, lookup) then lookup(a.coinId.value).value else a.buyPrice
  }

  /** One row of the dashboard table. */
  datatype Line = Line(
    asset: Asset,
    currentPrice: real,
    value: real,
    cost: real,
    pl: real,
    plPercent: real)

  function LineOf(a: Asset, lookup: PriceLookup): (l: Line)
    ensures l.asset == a
    ensures l.currentPrice == CurrentPrice(a, lookup)
    ensures l.value == a.quantity * l.currentPrice && l.cost == a.quantity * a.buyPrice
    ensures l.value - l.cost == l.pl == a.quantity * (l.currentPrice - a.buyPrice)
    ensures l.cost <= 0.0 ==> l.plPercent == 0.0
    ensures l.cost > 0.0 ==> l.plPercent * l.cost == l.pl * 100.0
    ensures !UsesLivePrice(a, lookup) ==> l.currentPrice == a.buyPrice && l.pl == 0.0 && l.plPercent == 0.0
    ensures UsesLivePrice(a, lookup) ==> Some(l.currentPrice) == lookup(a.coinId.value)
  {
    var price := CurrentPrice(a, lookup);
    var value := a.quantity * price;
    var cost := a.quantity * a.buyPrice;
    var pl := value - cost;
    Line(a, price, value, cost, pl, Percent(pl, cost))
  }

  function Lines(assets: seq<Asset>, lookup: PriceLookup): (ls: seq<Line>)
    ensures |ls| == |assets|
    ensures forall i :: 0 <= i < |assets| ==> ls[i] == LineOf(assets[i], lookup)
  {
    seq(|assets|, i requires 0 <= i < |assets| => LineOf(assets[i], lookup))
  }

  /** Sums in the order the handler accumulates them (last line added last). */
  function SumValues(ls: seq<Line>): real {
    if ls == [] then 0.0 else SumValues(ls[..|ls| - 1]) + ls[|ls| - 1].value
  }

  function SumCosts(ls: seq<Line>): real {
    if ls == [] then 0.0 else SumCosts(ls[..|ls| - 1]) + ls[|ls| - 1].cost
  }

  function SumPls(ls: seq<Line>): real {
    if ls == [] then 0.0 else SumPls(ls[..|ls| - 1]) + ls[|ls| - 1].pl
  }

  /** What the dashboard shows: the lines, the two totals, the global P/L and
      its zero-guarded percentage. */
  datatype Summary = Summary(
    lines: seq<Line>,
    totalValue: real,
    totalCost: real,
    pl: real,
    plPercent: real)

  /** The accumulation loop of the dashboard (and of the import/export page). */
  method Valuate(assets: seq<Asset>, lookup: PriceLookup) returns (s: Summary)
    ensures s.lines == Lines(assets, lookup)
    ensures s.totalValue == SumValues(s.lines)
    ensures s.totalCost == SumCosts(s.lines)
    ensures s.pl == s.totalValue - s.totalCost == SumPls(s.lines)
    ensures s.plPercent == Percent(s.pl, s.totalCost)
  {
    var totalVal := 0.0;
    var totalCost := 0.0;
    var lines: seq<Line> := [];
    var i := 0;
    while i < |assets|
      invariant 0 <= i <= |assets|
      invariant lines == Lines(assets[..i], lookup)
      invariant totalVal == SumValues(lines)
      invariant totalCost == SumCosts(lines)
    {
      var line := LineOf(assets[i], lookup);
      totalVal := totalVal + line.value;
      totalCost := totalCost + line.cost;
      assert (lines + [line])[..|lines|] == lines;
      LinesSnoc(assets, i, lookup);
      lines := lines + [line];
      i := i + 1;
    }
    assert assets[..i] == assets;
    DashboardPlIsSumOfLinePl(assets, lookup);
    var pl := totalVal - totalCost;
    s := Summary(lines, totalVal, totalCost, pl, Percent(pl, totalCost));
  }

  /** One more asset adds its line at the end. */
  lemma LinesSnoc(assets: seq<Asset>, i: nat, lookup: PriceLookup)
    requires i < |assets|
    ensures Lines(assets[..i + 1], lookup) == Lines(assets[..i], lookup) + [LineOf(assets[i], lookup)]
  {
    assert assets[..i + 1] == assets[..i] + [assets[i]];
  }

  /** The dashboard's lines meet `GlobalPlIsSumOfLinePl`'s hypothesis. */
  lemma DashboardPlIsSumOfLinePl(assets: seq<Asset>, lookup: PriceLookup)
    ensures SumValues(Lines(assets, lookup)) - SumCosts(Lines(assets, lookup)) == SumPls(Lines(assets, lookup))
  {
    GlobalPlIsSumOfLinePl(Lines(assets, lookup));
  }

  /** Each line's P/L is its value minus its cost. */
  ghost predicate Consistent(ls: seq<Line>) {
    forall i :: 0 <= i < |ls| ==> ls[i].pl == ls[i].value - ls[i].cost
  }

  /** The global P/L (total value minus total cost) is the sum of the
      per-asset P/L values. */
  lemma {:induction false} GlobalPlIsSumOfLinePl(ls: seq<Line>)
    requires Consistent(ls)
    ensures SumValues(ls) - SumCosts(ls) == SumPls(ls)
  {
    if ls != [] {
      GlobalPlIsSumOfLinePl(ls[..|ls| - 1]);
    }
  }

  /** Totals are additive over a split of the asset list. */
  lemma {:induction false} SumsAdditive(a: seq<Line>, b: seq<Line>)
    ensures SumValues(a + b) == SumValues(a) + SumValues(b)
    ensures SumCosts(a + b) == SumCosts(a) + SumCosts(b)
  {
    if b == [] {
      assert a + b == a;
    } else {
      var b' := b[..|b| - 1];
      assert (a + b)[..|a + b| - 1] == a + b';
      SumsAdditive(a, b');
    }
  }

  /** Valuing a portfolio is valuing its parts: the lines of a concatenation
      are the concatenated lines, and the totals add up. */
  lemma PortfolioAdditive(a: seq<Asset>, b: seq<Asset>, lookup: PriceLookup)
    ensures Lines(a + b, lookup) == Lines(a, lookup) + Lines(b, lookup)
    ensures SumValues(Lines(a + b, lookup)) == SumValues(Lines(a, lookup)) + SumValues(Lines(b, lookup))
    ensures SumCosts(Lines(a + b, lookup)) == SumCosts(Lines(a, lookup)) + SumCosts(Lines(b, lookup))
  {
    assert Lines(a + b, lookup) == Lines(a, lookup) + Lines(b, lookup);
    SumsAdditive(Lines(a, lookup), Lines(b, lookup));
  }

  /** When no asset gets a live quote, every asset is valued at its purchase
      price: the total value equals the total cost and the global P/L and its
      percentage are 0. */
  lemma {:induction false} NoLiveQuoteNoGain(assets: seq<Asset>, lookup: PriceLookup)
    requires forall i :: 0 <= i < |assets| ==> !UsesLivePrice(assets[i], lookup)
    ensures SumValues(Lines(assets, lookup)) == SumCosts(Lines(assets, lookup))
    ensures Percent(SumValues(Lines(assets, lookup)) - SumCosts(Lines(assets, lookup)), SumCosts(Lines(assets, lookup))) == 0.0
  {
    if assets != [] {
      var init := assets[..|assets| - 1];
      NoLiveQuoteNoGain(init, lookup);
      assert Lines(assets, lookup)[..|assets| - 1] == Lines(init, lookup);
    }
  }

  /** With non-negative quantities and prices (and quotes), totals are non-negative. */
  lemma {:induction false} TotalsNonNegative(assets: seq<Asset>, lookup: PriceLookup)
    requires forall i :: 0 <= i < |assets| ==> assets[i].quantity >= 0.0 && assets[i].buyPrice >= 0.0
    requires forall k :: lookup(k).Some? ==> lookup(k).value >= 0.0
    ensures SumValues(Lines(assets, lookup)) >= 0.0
    ensures SumCosts(Lines(assets, lookup)) >= 0.0
  {
    if assets != [] {
      var init := assets[..|assets| - 1];
      var ls := Lines(assets, lookup);
      TotalsNonNegative(init, lookup);
      assert ls[..|ls| - 1] == Lines(init, lookup);
      LineNonNegative(assets[|assets| - 1], lookup);
      assert SumValues(ls) == SumValues(Lines(init, lookup)) + ls[|ls| - 1].value;
      assert SumCosts(ls) == SumCosts(Lines(init, lookup)) + ls[|ls| - 1].cost;
    }
  }

  /** One asset with non-negative quantity, price and quotes has a
      non-negative value and cost. */
  lemma LineNonNegative(a: Asset, lookup: PriceLookup)
    requires a.quantity >= 0.0 && a.buyPrice >= 0.0
    requires forall k :: lookup(k).Some? ==> lookup(k).value >= 0.0
    ensures LineOf(a, lookup).value >= 0.0 && LineOf(a, lookup).cost >= 0.0
  {
    var p := CurrentPrice(a, lookup);
    assert p >= 0.0;
    NonNegativeProduct(a.quantity, p);
    NonNegativeProduct(a.quantity, a.buyPrice);
  }

  lemma NonNegativeProduct(x: real, y: real)
    requires x >= 0.0 && y >= 0.0
    ensures x * y >= 0.0
  {
  }

  /** The worked examples: quantity 2 bought at 100 and quoted at 150 is worth
      300 for a cost of 200, a gain of 100 or 50%; quantity 3 at 50 with no
      lookup key is worth 150 with no gain; an empty portfolio has zero totals. */
  lemma WorkedExamples(lookup: PriceLookup)
    requires lookup("bitcoin") == Some(150.0)
    ensures var l := LineOf(Asset("BTC", "crypto", 2.0, 100.0, Some("bitcoin")), lookup);
      l.value == 300.0 && l.cost == 200.0 && l.pl == 100.0 && l.plPercent == 50.0
    ensures var l := LineOf(Asset("GOLD", "commodity", 3.0, 50.0, None), lookup);
      l.currentPrice == 50.0 && l.value == 150.0 && l.pl == 0.0
    ensures SumValues(Lines([], lookup)) == 0.0 && SumCosts(Lines([], lookup)) == 0.0
  {
  }
}
