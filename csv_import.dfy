/** The CSV import of holdings: each accepted row either merges into the
    asset of the same symbol at a weighted-average cost, or creates a new
    asset; the import reports how many rows it accepted. */
module CsvImport {
  import opened Common
  import opened Valuation

  /** A cell after `float(...)`: a number, or text that raises `ValueError`. */
  datatype Cell = Number(x: real) | Invalid

  /** One record of the CSV reader, already split into columns; `None` is a
      column the file does not have. */
  datatype Row = Row(
    symbol: Option<string>,
    quantity: Option<Cell>,
    buyPrice: Option<Cell>,
    assetType: Option<string>)

  /** The values an accepted row contributes. */
  datatype Entry = Entry(symbol: string, quantity: real, buyPrice: real, assetType: string)

  /** A row is accepted when it has both a symbol and a quantity column and
      its numbers parse; the buy price defaults to 0 and the asset type to
      "crypto", and the symbol is upper-cased. */
  function ParseRow(row: Row): (e: Option<Entry>)
    ensures e.Some? <==>
      row.symbol.Some? && row.quantity.Some? && row.quantity.value.Number? &&
      (row.buyPrice.Some? ==> row.buyPrice.value.Number?)
    ensures e.Some? ==> e.value.symbol == Upper(row.symbol.value) && e.value.quantity == row.quantity.value.x
    ensures e.Some? && row.buyPrice.None? ==> e.value.buyPrice == 0.0
    ensures e.Some? && row.buyPrice.Some? ==> e.value.buyPrice == row.buyPrice.value.x
    ensures e.Some? ==> e.value.assetType == row.assetType.GetOr("crypto")
  {
    if row.symbol.None? || row.quantity.None? then None
    else if row.quantity.value.Invalid? then None
    else
      var buy := row.buyPrice.GetOr(Number(0.0));
      if buy.Invalid? then None
      else Some(Entry(Upper(row.symbol.value), row.quantity.value.x, buy.x, row.assetType.GetOr("crypto")))
  }

  /** Merging `quantity` units bought at `buyPrice` into an existing holding:
      quantities add up and the cost basis is preserved by the new average
      price, which falls to 0 when the merged quantity is not positive. */
  function Merge(existing: Asset, quantity: real, buyPrice: real): (a: Asset)
    ensures a.symbol == existing.symbol && a.assetType == existing.assetType && a.coinId == existing.coinId
    ensures a.quantity == existing.quantity + quantity
    ensures a.quantity > 0.0 ==> a.quantity * a.buyPrice == existing.quantity * existing.buyPrice + quantity * buyPrice
    ensures a.quantity <= 0.0 ==> a.buyPrice == 0.0
  {
    var totalOld := existing.quantity * existing.buyPrice;
    var totalNew := quantity * buyPrice;
    var newQty := existing.quantity + quantity;
    var newAvg := if newQty > 0.0 then (totalOld + totalNew) / newQty else 0.0;
    existing.(quantity := newQty, buyPrice := newAvg)
  }

  /** The holdings after one accepted row. */
  function ApplyEntry(assets: map<string, Asset>, e: Entry): (r: map<string, Asset>)
    ensures r.Keys == assets.Keys + {e.symbol}
    ensures forall s :: s in assets && s != e.symbol ==> r[s] == assets[s]
    ensures e.symbol in assets ==> r[e.symbol] == Merge(assets[e.symbol], e.quantity, e.buyPrice)
    ensures e.symbol !in assets ==> r[e.symbol] == Asset(e.symbol, e.assetType, e.quantity, e.buyPrice, None)
  {
    if e.symbol in assets then assets[e.symbol := Merge(assets[e.symbol], e.quantity, e.buyPrice)]
    else assets[e.symbol := Asset(e.symbol, e.assetType, e.quantity, e.buyPrice, None)]
  }

  /** The holdings after one row; a rejected row changes nothing. */
  function ApplyRow(assets: map<string, Asset>, row: Row): map<string, Asset> {
    match ParseRow(row)
    case Some(e) => ApplyEntry(assets, e)
    case None => assets
  }

  /** The holdings after the rows, in file order. */
  function ApplyRows(assets: map<string, Asset>, rows: seq<Row>): map<string, Asset> {
    if rows == [] then assets
    else ApplyRow(ApplyRows(assets, rows[..|rows| - 1]), rows[|rows| - 1])
  }

  /** The number of rows accepted. */
  function AcceptedCount(rows: seq<Row>): (n: nat)
    ensures n <= |rows|
  {
    if rows == [] then 0
    else AcceptedCount(rows[..|rows| - 1]) + (if ParseRow(rows[|rows| - 1]).Some? then 1 else 0)
  }

  /** The answer of the import. */
  datatype Outcome = Imported(count: nat) | NoValidRecords

  /** The user's holdings, keyed by symbol. */
  class AssetTable {
    var assets: map<string, Asset>

    constructor (initial: map<string, Asset>)
      ensures assets == initial
    {
      assets := initial;
    }

    /** The import loop: apply every row and count the accepted ones. */
    method ImportRows(rows: seq<Row>) returns (outcome: Outcome)
      modifies this
      ensures assets == ApplyRows(old(assets), rows)
      ensures outcome == (if AcceptedCount(rows) > 0 then Imported(AcceptedCount(rows)) else NoValidRecords)
    {
      var count := 0;
      var i := 0;
      while i < |rows|
        invariant 0 <= i <= |rows|
        invariant assets == ApplyRows(old(assets), rows[..i])
        invariant count == AcceptedCount(rows[..i])
      {
        var row := rows[i];
        ghost var prefix := rows[..i + 1];
        assert prefix[..|prefix| - 1] == rows[..i] && prefix[|prefix| - 1] == row;
        ghost var before := assets;
        match ParseRow(row) {
        case Some(e) =>
          if e.symbol in assets {
            var existing := assets[e.symbol];
            var totalOld := existing.quantity * existing.buyPrice;
            var totalNew := e.quantity * e.buyPrice;
            var newQty := existing.quantity + e.quantity;
            var newAvg := if newQty > 0.0 then (totalOld + totalNew) / newQty else 0.0;
            assets := assets[e.symbol := existing.(quantity := newQty, buyPrice := newAvg)];
            assert assets[e.symbol] == Merge(existing, e.quantity, e.buyPrice);
          } else {
            assets := assets[e.symbol := Asset(e.symbol, e.assetType, e.quantity, e.buyPrice, None)];
          }
          assert assets == ApplyEntry(before, e);
          count := count + 1;
        case None =>
        }
        i := i + 1;
      }
      assert rows[..i] == rows;
      if count > 0 {
        outcome := Imported(count);
      } else {
        outcome := NoValidRecords;
      }
    }
  }

  /** An import that accepts nothing leaves the holdings as they were. */
  lemma {:induction false} NothingAcceptedNothingChanged(assets: map<string, Asset>, rows: seq<Row>)
    requires AcceptedCount(rows) == 0
    ensures ApplyRows(assets, rows) == assets
  {
    if rows != [] {
      NothingAcceptedNothingChanged(assets, rows[..|rows| - 1]);
    }
  }

  /** The symbols of the accepted rows, in file order. */
  function AcceptedSymbols(rows: seq<Row>): (syms: set<string>)
    ensures forall s :: s in syms <==> exists i :: 0 <= i < |rows| && ParseRow(rows[i]).Some? && ParseRow(rows[i]).value.symbol == s
  {
    if rows == [] then {}
    else
      var init := rows[..|rows| - 1];
      assert forall i :: 0 <= i < |init| ==> init[i] == rows[i];
      var last := ParseRow(rows[|rows| - 1]);
      AcceptedSymbols(init) + (if last.Some? then {last.value.symbol} else {})
  }

  /** Importing keeps every holding and adds exactly one per new symbol. */
  lemma {:induction false} ImportKeys(assets: map<string, Asset>, rows: seq<Row>)
    ensures ApplyRows(assets, rows).Keys == assets.Keys + AcceptedSymbols(rows)
  {
    if rows != [] {
      ImportKeys(assets, rows[..|rows| - 1]);
    }
  }

  /** Holdings whose symbol no accepted row names are left untouched. */
  lemma {:induction false} UnnamedHoldingsUnchanged(assets: map<string, Asset>, rows: seq<Row>, s: string)
    requires s in assets && s !in AcceptedSymbols(rows)
    ensures s in ApplyRows(assets, rows) && ApplyRows(assets, rows)[s] == assets[s]
  {
    if rows != [] {
      UnnamedHoldingsUnchanged(assets, rows[..|rows| - 1], s);
    }
  }

  /** The quantity held under `s`, 0 when there is no such holding. */
  function QuantityOf(assets: map<string, Asset>, s: string): real {
    if s in assets then assets[s].quantity else 0.0
  }

  /** The total quantity the accepted rows bring for symbol `s`. */
  function ImportedQuantity(rows: seq<Row>, s: string): real {
    if rows == [] then 0.0
    else
      var last := ParseRow(rows[|rows| - 1]);
      ImportedQuantity(rows[..|rows| - 1], s) + (if last.Some? && last.value.symbol == s then last.value.quantity else 0.0)
  }

  /** No quantity is lost or invented: after the import, each symbol holds
      what it held before plus the quantities of its accepted rows. */
  lemma {:induction false} QuantityConserved(assets: map<string, Asset>, rows: seq<Row>, s: string)
    ensures QuantityOf(ApplyRows(assets, rows), s) == QuantityOf(assets, s) + ImportedQuantity(rows, s)
  {
    if rows != [] {
      QuantityConserved(assets, rows[..|rows| - 1], s);
    }
  }

  /** Buying more of a holding at its own average price leaves that price
      unchanged. */
  lemma MergeAtSamePrice(existing: Asset, quantity: real)
    requires existing.quantity + quantity > 0.0
    ensures Merge(existing, quantity, existing.buyPrice).buyPrice == existing.buyPrice
  {
    var a := Merge(existing, quantity, existing.buyPrice);
    assert a.quantity * a.buyPrice == a.quantity * existing.buyPrice;
  }

  /** The worked example: 1 unit at 100 plus a row of 1 unit at 200 gives
      2 units at an average of 150; a row without a quantity column is
      skipped; a row whose buy price is missing defaults it to 0. */
  lemma WorkedExamples()
    ensures var btc := Asset("BTC", "crypto", 1.0, 100.0, None);
      Merge(btc, 1.0, 200.0) == Asset("BTC", "crypto", 2.0, 150.0, None)
    ensures ParseRow(Row(Some("eth"), None, Some(Number(5.0)), None)).None?
    ensures ParseRow(Row(Some("eth"), Some(Number(2.0)), None, None)) == Some(Entry("ETH", 2.0, 0.0, "crypto"))
  {
    var btc := Asset("BTC", "crypto", 1.0, 100.0, None);
    var m := Merge(btc, 1.0, 200.0);
    assert m.quantity == 2.0;
    assert 2.0 * m.buyPrice == 300.0;
    assert Upper("eth") == "ETH";
  }
}
