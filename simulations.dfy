/** Paper-trading simulations: creating one from an investment and an entry
    price, and revaluing it at a live price. */
module Simulations {
  import opened Common
  import opened Valuation

  datatype Simulation = Simulation(
    symbol: string,
    assetType: string,
    investment: real,
    quantity: real,
    currentPrice: real,
    currentValue: real,
    profitLoss: real)

  /** The quantity bought: investment over entry price, 0 when the entry
      price is not positive. */
  function QuantityBought(investment: real, entryPrice: real): (q: real)
    ensures entryPrice > 0.0 ==> q * entryPrice == investment
    ensures entryPrice <= 0.0 ==> q == 0.0
  {
    if entryPrice > 0.0 then investment / entryPrice else 0.0
  }

  /** A new simulation; the investment defaults to 0, the entry price to 1
      and the asset type to "crypto". It starts valued at its investment,
      with no gain. */
  function NewSimulation(symbol: string, investment: Option<real>, entryPrice: Option<real>, assetType: Option<string>): (s: Simulation)
    ensures s.symbol == Upper(symbol) && s.assetType == assetType.GetOr("crypto")
    ensures s.investment == investment.GetOr(0.0) && s.currentValue == s.investment && s.profitLoss == 0.0
    ensures s.currentPrice == entryPrice.GetOr(1.0)
    ensures s.quantity == QuantityBought(s.investment, s.currentPrice)
  {
    var inv := investment.GetOr(0.0);
    var entry := entryPrice.GetOr(1.0);
    Simulation(Upper(symbol), assetType.GetOr("crypto"), inv, QuantityBought(inv, entry), entry, inv, 0.0)
  }

  /** The symbol search of the price service: symbol to optional lookup key. */
  type CoinSearch = string -> Option<string>

  /** The price a revaluation uses: for a crypto simulation, the live quote
      when the symbol resolves to a key and the quote is truthy; otherwise
      the price it already has. */
  function RevaluationPrice(s: Simulation, search: CoinSearch, lookup: PriceLookup): (p: real)
    ensures s.assetType != "crypto" ==> p == s.currentPrice
    ensures p == s.currentPrice || (TruthyString(search(s.symbol)) && Some(p) == lookup(search(s.symbol).value))
    ensures s.assetType == "crypto" && TruthyString(search(s.symbol)) && TruthyReal(lookup(search(s.symbol).value)) ==>
      p == lookup(search(s.symbol).value).value
    ensures s.assetType == "crypto" && !(TruthyString(search(s.symbol)) && TruthyReal(lookup(search(s.symbol).value))) ==>
      p == s.currentPrice
  {
    if s.assetType == "crypto" then
      var coinId := search(s.symbol);
      if TruthyString(coinId) && TruthyReal(lookup(coinId.value)) then lookup(coinId.value).value
      else s.currentPrice
    else s.currentPrice
  }

  /** The simulation after a price update: its value at the new price, and
      its gain over the investment. */
  function Revalued(s: Simulation, search: CoinSearch, lookup: PriceLookup): (r: Simulation)
    ensures r == s.(currentPrice := r.currentPrice, currentValue := r.currentValue, profitLoss := r.profitLoss)
    ensures r.currentPrice == RevaluationPrice(s, search, lookup)
    ensures r.currentValue == s.quantity * r.currentPrice
    ensures r.profitLoss == r.currentValue - s.investment
  {
    var p := RevaluationPrice(s, search, lookup);
    var value := s.quantity * p;
    s.(currentPrice := p, currentValue := value, profitLoss := value - s.investment)
  }

  /** A fresh simulation revalued at a price `p`: with a positive entry price
      the gain is the investment scaled by the price move, so revaluing at
      the entry price breaks even; with a non-positive entry price nothing
      was bought and the whole investment counts as lost. */
  lemma RevaluedNewSimulation(symbol: string, investment: Option<real>, entryPrice: Option<real>,
                              assetType: Option<string>, search: CoinSearch, lookup: PriceLookup)
    ensures var s := NewSimulation(symbol, investment, entryPrice, assetType);
      var r := Revalued(s, search, lookup);
      (s.currentPrice > 0.0 ==> r.profitLoss * s.currentPrice == s.investment * (r.currentPrice - s.currentPrice)) &&
      (s.currentPrice <= 0.0 ==> r.profitLoss == -s.investment) &&
      (r.currentPrice == s.currentPrice ==> r.profitLoss == (if s.currentPrice > 0.0 then 0.0 else -s.investment))
  {
    var s := NewSimulation(symbol, investment, entryPrice, assetType);
    var r := Revalued(s, search, lookup);
    if s.currentPrice > 0.0 {
      calc {
        r.profitLoss * s.currentPrice;
        (s.quantity * r.currentPrice - s.investment) * s.currentPrice;
        (s.quantity * s.currentPrice) * r.currentPrice - s.investment * s.currentPrice;
        s.investment * r.currentPrice - s.investment * s.currentPrice;
      }
    }
  }

  /** Revaluing twice against the same price service is revaluing once. */
  lemma RevaluedIdempotent(s: Simulation, search: CoinSearch, lookup: PriceLookup)
    ensures Revalued(Revalued(s, search, lookup), search, lookup) == Revalued(s, search, lookup)
  {
    var r := Revalued(s, search, lookup);
    assert r.symbol == s.symbol && r.assetType == s.assetType;
  }
}
