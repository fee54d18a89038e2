# Portfolio tracker (v3/app.py) — a verified model of its business rules

The web application keeps a portfolio of assets for each user. It values the
assets at live prices and keeps a daily history of the portfolio's total
value. It also scores how diversified the portfolio is and imports holdings
from CSV files. Around these sit small rules for goals, paper-trading
simulations, dividends, automatic-trading statistics and settings, and
interface translation.

This project models those rules in Dafny and proves properties about them.
Prices and amounts are exact reals. Days and times are integers. The live
price service is a function from a lookup key to an optional quote, and
the random draws of the history backfill are an injected sequence.

Modules, one file each:

- `Common` (`common.dfy`) holds the shared pieces:
  - Python truthiness of optional strings and prices.
  - The zero-guarded percentage `(pl / base * 100) if base > 0 else 0`.
  - ASCII upper-casing.
- `Valuation` (`valuation.dfy`) is the valuation loop of the dashboard.
  - `Valuate` is the loop itself.
  - It is proved equal to recursive sums over the per-asset lines.
  - The import/export page repeats the same loop with its totals
    (v3/app.py:753-774), so `Valuate` covers it too.
  - The asset list (v3/app.py:353-370) computes the same per-asset lines but
    keeps no totals, so only `LineOf` covers it.
  - The analysis page resolves prices the same way, and
    `AnalysisTotalsAreDashboardTotals` proves its totals are the dashboard's.
- `Snapshots` (`snapshots.dfy`) is the daily history of total values, kept as
  a map from day to value inside the class `SnapshotTable`. Three things can
  happen on a visit:
  - With no history at all, a 30-day synthetic backfill (`Backfill`).
  - With no row for today, an append.
  - With a row for today, a refresh in place.

  The chart then reads the history back.
- `Diversification` (`diversification.dfy`) is the analysis page:
  - the distribution of value per asset type, built in a loop;
  - the largest type's share;
  - a clamped score and its level;
  - the recommendations;
  - the overall performance.
- `CsvImport` (`csv_import.dfy`) merges parsed CSV rows into the holdings,
  which are a map from symbol to asset inside the class `AssetTable`.
- `Goals`, `Simulations`, `Dividends`, `AutoTrade` and `Translation` hold the
  small rules of the other handlers. `AutoTrade` includes the settings
  store, whose update is a method of the class `SettingsStore`.

Two details of the history are easy to misread, and the model follows the
code in both:

- The backfill writes the 30 days before today and no row for today
  (v3/app.py:300). Its last row, for yesterday, is forced to the current
  total (v3/app.py:304-306).
- The chart query sorts the days ascending and then keeps 30 rows, so it
  returns the earliest 30 days, not the latest (v3/app.py:330).

`SnapshotTable.Chart` is the query as written. The query that keeps the
latest 30 days is `LatestSeries`, recorded under Findings below.

The settings update (v3/app.py:998-1005) is modelled the same way:
`SettingsStore.Post` applies the merge as written, and the merge that keeps
absent settings is `Merge`, also under Findings.

## Model

| member | source | states |
|---|---|---|
| Common.Percent | v3/app.py:262 | the P/L percentage is 0 when the base is not positive; otherwise percentage × base = P/L × 100, and it has the sign of the P/L |
| Common.Upper | v3/app.py:805 | upper-casing keeps the length, maps each character through the ASCII case map, and leaves no lower-case ASCII letter |
| Common.UpperIdempotent | v3/app.py:805 | upper-casing an already upper-cased symbol changes nothing |
| Valuation.LineOf | v3/app.py:253-262 | live quote only with a truthy key and a truthy quote, else the buy price; a fallback asset has P/L 0 and P/L% 0; value = qty × price and cost = qty × buy price, so value − cost = P/L = qty × (price − buy); P/L% is 0 when cost ≤ 0 |
| Valuation.Lines | v3/app.py:253-277 | one dashboard line per asset, in order, each computed from its own asset |
| Valuation.Valuate | v3/app.py:249-280 | the loop's totals equal the recursive sums of the line values and costs; the global P/L is total value − total cost and equals the sum of the line P/Ls; global P/L% is the zero-guarded `Percent` of the P/L over the total cost (0 when total cost ≤ 0, else P/L% × cost = P/L × 100) |
| Valuation.GlobalPlIsSumOfLinePl | v3/app.py:259-279 | total value − total cost equals the sum of the per-asset P/L values |
| Valuation.SumsAdditive | v3/app.py:264-265 | the running totals of a concatenation are the sums of the parts' totals |
| Valuation.PortfolioAdditive | v3/app.py:249-277 | valuing two lists of assets one after the other gives the concatenated lines and added totals |
| Valuation.NoLiveQuoteNoGain | v3/app.py:253-262 | without any live quote, total value equals total cost and the global P/L% is 0 |
| Valuation.TotalsNonNegative | v3/app.py:259-265 | non-negative quantities, buy prices and quotes give non-negative totals |
| Valuation.WorkedExamples | v3/app.py:253-280 | 2 units bought at 100 and quoted 150 give 300, 200, 100 and 50%; 3 units at 50 with no key are valued at the buy price; no assets give zero totals |
| Snapshots.BaseAfterSign | v3/app.py:298-302 | with drift in [−0.05, 0.05], the drifting base keeps the sign of the total |
| Snapshots.BackfillRows | v3/app.py:299-313 | the rows of the first n backfill steps are exactly the days today−30 … today−31+n, each holding its step's value |
| Snapshots.Recorded | v3/app.py:291-327 | an empty history is backfilled; otherwise today's row is set to the total, no other key is added, and every other day keeps its value |
| Snapshots.FirstBackfillValue | v3/app.py:298-302 | the first backfill value is 0.8 × total × (1 + r₀) |
| Snapshots.NextBackfillValue | v3/app.py:299-302 | each backfill value before the last is the previous one × (1 + rᵢ) |
| Snapshots.BackfillDaysCovered | v3/app.py:299-300 | the backfill writes exactly 30 rows, for the days today−30 … today−1, and none for today |
| Snapshots.BackfillEnds | v3/app.py:298-306 | the row of today−30 is 0.8 × total × (1 + r₀) and the row of today−1 is exactly the total |
| Snapshots.BackfillSteps | v3/app.py:299-302 | each backfilled row between the first and the last is the previous day's row × (1 + rᵢ) |
| Snapshots.BackfillSign | v3/app.py:298-306 | a non-negative (positive) total gives non-negative (positive) backfilled rows |
| Snapshots.SameDayRefresh | v3/app.py:286-327 | once history exists, a second visit on the same day gives the same table as that visit alone; today's row always holds the latest total |
| Snapshots.RowCount | v3/app.py:292-327 | a backfill leaves 30 rows; an append adds exactly one; a refresh adds none |
| Snapshots.Ascending | v3/app.py:330 | the days of the table, each exactly once, in strictly ascending order |
| Snapshots.SeriesOf | v3/app.py:332-333 | the labels are the chosen days, with values of equal length aligned index by index |
| Snapshots.EarliestSeries | v3/app.py:330-333 | the query as written: min(30, rows) ascending days with aligned values, every day left out later than every day shown |
| Snapshots.LatestSeries | v3/app.py:330-333 | the corrected query: min(30, rows) ascending days with aligned values, every day left out earlier than every day shown |
| Snapshots.EarliestSeriesHidesLatestDay | v3/app.py:330 | with more than 30 rows, the query as written never shows the latest day; the corrected one does |
| Snapshots.BackfillThenNextDay | v3/app.py:293-330 | a backfill on day t then a visit on day t+1 leave 31 rows, and day t+1 is missing from the chart as written |
| Snapshots.Backfill | v3/app.py:297-314 | the backfill loop writes exactly the 30 rows `BackfillRows` describes: days today−30 … today−1, drifting values, the last forced to the total |
| Snapshots.SnapshotTable.Record | v3/app.py:283-327 | the table after a visit is the backfill, append or refresh of the old table |
| Snapshots.SnapshotTable.Chart | v3/app.py:329-333 | as written: min(30, rows) ascending days of the table with aligned values, the earliest ones, every day left out later than every day shown |
| Diversification.BuildDistribution | v3/app.py:663-667 | the loop's dictionary equals the per-type distribution of the market values |
| Diversification.AnalysisTotalsAreDashboardTotals | v3/app.py:642-689 | the analysis total value and total invested equal the dashboard's total value and total cost for the same assets and quotes |
| Diversification.DistributionKeys | v3/app.py:663-668 | the distribution has one key per asset type present and no other, so the types count is the number of types |
| Diversification.DistributionSumsToTotal | v3/app.py:661-667 | the distribution's values add up to the total market value |
| Diversification.DistributionNonNegative | v3/app.py:663-667 | non-negative market values give non-negative distribution entries |
| Diversification.NonEmptyWhenPositive | v3/app.py:670 | a non-zero total implies a non-empty distribution, so the maximum is defined |
| Diversification.MaxValue | v3/app.py:670 | the largest entry of the distribution: attained by some type and at least every entry |
| Diversification.ConcentrationIsAShare | v3/app.py:669-670 | with non-negative values and a positive total, the maximum concentration is between 0 and 1 |
| Diversification.Score | v3/app.py:672-677 | the score is within [0, 100]; it is 0 when the total is not positive; otherwise it is 15·types − 50·maxConc + 2·n clamped to [0, 100] |
| Diversification.Level | v3/app.py:679-681 | "excellent" iff score ≥ 70, "bon" iff 50 ≤ score < 70, "faible" iff score < 50 |
| Diversification.Recommendations | v3/app.py:683-687 | never empty; each advice appears iff its condition holds; the "bien diversifié" message appears iff types ≥ 3, maxConc ≤ 0.5 and n ≥ 5, and then alone; only these four messages appear, each at most once, in the page order (classes, concentration, number of assets) |
| Diversification.Performance | v3/app.py:689-691 | 0 when the amount invested is not positive; otherwise performance × invested = (total − invested) × 100, positive iff the total exceeds the amount invested and 0 iff they are equal |
| Diversification.Analyse | v3/app.py:642-691 | the report's total, distribution, types count, concentration, score, level, recommendations and `Performance` over the total invested |
| Diversification.EmptyPortfolio | v3/app.py:661-687 | an empty portfolio scores 0, is "faible", and is advised to diversify and to add assets |
| CsvImport.ParseRow | v3/app.py:803-808 | a row is accepted iff it has symbol and quantity columns and its numbers parse; the symbol is upper-cased, the buy price defaults to 0, the type to "crypto" |
| CsvImport.Merge | v3/app.py:812-819 | merged quantity = old + new; when it is positive, quantity × average = old cost + row cost; otherwise the average is 0 |
| CsvImport.ApplyEntry | v3/app.py:810-826 | an existing symbol is merged and a new one added with the row's values; every other holding is unchanged |
| CsvImport.AcceptedCount | v3/app.py:827 | the count of accepted rows is at most the number of rows |
| CsvImport.AssetTable.ImportRows | v3/app.py:800-835 | the holdings after the loop are the rows applied in order; the answer is the accepted count, or the error when it is 0 |
| CsvImport.NothingAcceptedNothingChanged | v3/app.py:827-835 | an import that accepts no row leaves the holdings unchanged |
| CsvImport.AcceptedSymbols | v3/app.py:803-805 | a symbol is imported iff some accepted row carries it (upper-cased) |
| CsvImport.ImportKeys | v3/app.py:810-826 | after the import the symbols are the old ones plus those of the accepted rows |
| CsvImport.UnnamedHoldingsUnchanged | v3/app.py:810-826 | a holding whose symbol no accepted row names is untouched |
| CsvImport.QuantityConserved | v3/app.py:812-826 | each symbol ends with its old quantity plus the quantities of its accepted rows |
| CsvImport.MergeAtSamePrice | v3/app.py:813-816 | buying more at the holding's own average price leaves the average unchanged |
| CsvImport.WorkedExamples | v3/app.py:803-819 | 1 at 100 merged with 1 at 200 gives 2 at 150; a row without quantity is rejected; a missing buy price becomes 0 |
| Goals.AmountOrZero | v3/app.py:499-500 | a missing or empty amount is 0 |
| Goals.SavedStatus | v3/app.py:503-506 | "completed" iff requested so, or requested "active" (the default) with current ≥ target; "active" only with current < target; otherwise the requested status |
| Goals.SavedStatusIdempotent | v3/app.py:505-506 | saving again with the saved status changes nothing |
| Goals.CompletedIsFinal | v3/app.py:505-506 | a goal saved as completed stays completed whatever its amounts |
| Goals.EmptyFormCompletes | v3/app.py:499-506 | a form with no amounts saves a completed goal |
| Simulations.QuantityBought | v3/app.py:591 | with a positive entry price, quantity × entry = investment; otherwise the quantity is 0 |
| Simulations.NewSimulation | v3/app.py:589-601 | defaults 0, 1 and "crypto"; the symbol upper-cased; valued at its investment with zero P/L |
| Simulations.RevaluationPrice | v3/app.py:613-619 | a non-crypto simulation keeps its price; a crypto one takes the live quote exactly when the searched key and the quote are truthy, and keeps its price otherwise |
| Simulations.Revalued | v3/app.py:621-623 | only price, value and P/L change; value = quantity × new price and P/L = value − investment |
| Simulations.RevaluedNewSimulation | v3/app.py:589-623 | with entry > 0, P/L × entry = investment × (new price − entry), so the entry price breaks even; with entry ≤ 0 the P/L is −investment |
| Simulations.RevaluedIdempotent | v3/app.py:613-623 | revaluing twice against the same prices is revaluing once |
| Dividends.NewDividend | v3/app.py:728-738 | the date defaults to now and the amount to 0; the status is "received" iff the date is not after now, else "upcoming" |
| Dividends.SplitIsPartition | v3/app.py:710-711 | upcoming total + received total = the sum of all amounts |
| Dividends.ReceivedGrowsWithTime | v3/app.py:710-711 | with non-negative amounts, a later clock never lowers the received total nor raises the upcoming one |
| Dividends.RecordedStatusAgreesLater | v3/app.py:728-738 | a dividend recorded as received counts as received on later views; one without a date is received |
| Translation.Language | v3/app.py:187-189 | French for anonymous users or an empty preference, otherwise the user's language |
| Translation.Translate | v3/app.py:186-190 | the entry of the language's table, the French table when the language has none, the text itself when the table lacks it |
| Translation.TranslationComesFromTables | v3/app.py:190 | the result is the text itself or an entry of some table for that text |
| Translation.UnknownLanguageReadsFrench | v3/app.py:190 | a language without a table reads exactly what an anonymous user reads |
| Translation.UntranslatedTextShownAsIs | v3/app.py:190 | a text no table translates is shown unchanged |
| AutoTrade.Filter | v3/app.py:1027-1028 | the kept transactions are those of the history satisfying the filter, in history order |
| AutoTrade.FilterAppend | v3/app.py:1027-1028 | filtering a concatenated history is the concatenation of the filtered parts, so the kept transactions stay in history order |
| AutoTrade.FilterCounts | v3/app.py:1027-1028 | each kept transaction occurs as often as in the history, and no other occurs, so the list lengths are the exact counts |
| AutoTrade.Wins | v3/app.py:1031 | the winning trades number at most the trades and are those with profit > 0 |
| AutoTrade.SuccessRate | v3/app.py:1032 | in [0, 100]; 0 with no trades; rate × n = wins × 100; 100 iff every trade wins; 0 iff none does |
| AutoTrade.Take | v3/app.py:1035-1036 | the truncated list is a prefix of length min(k, n) |
| AutoTrade.StatsOf | v3/app.py:1027-1042 | the lists are the first 50 automatic trades and the first 20 cash-outs of the history; counts, profit and cash-out sums over the full lists; rate from the wins |
| AutoTrade.AllWinsPositiveProfit | v3/app.py:1030-1031 | when every trade wins, the total profit is positive |
| AutoTrade.Join | v3/app.py:1013 | joining no pairs gives "" and one pair gives that pair |
| AutoTrade.JoinHead | v3/app.py:1013 | two or more pairs join as the first pair, a comma, and the join of the rest |
| AutoTrade.MergeAsWritten | v3/app.py:998-1013 | as written: an absent enabled flag becomes false and an absent take-profit 5.0; the other five settings keep their value when absent; the pairs are replaced |
| AutoTrade.Merge | v3/app.py:1004-1013 | every setting absent from the body keeps its current value, every present one takes the body's value; the pairs are replaced |
| AutoTrade.MergeAsWrittenResetsAbsentKeys | v3/app.py:998-1005 | a body with only the stop-loss switches trading off and resets take-profit as written, but not in the corrected merge |
| AutoTrade.MergesAgreeIff | v3/app.py:998-1005 | the two merges agree iff every absent enabled or take-profit key already held false or 5.0 |
| AutoTrade.MergeIdempotent | v3/app.py:1004-1013 | sending the same body twice is sending it once |
| AutoTrade.FullRequestOverrides | v3/app.py:1004-1010 | a body with every setting determines the result whatever the current settings |
| AutoTrade.SettingsStore.Post | v3/app.py:988-1016 | a missing body or the empty object is refused and changes nothing; any other body, even one without a setting, makes the stored settings the merge as written of the old ones with the body |

## Left out

- Flask plumbing is not modelled: routing, templates, redirects, `flash`, JSON responses, login and the auto-login bypass.
- The ORM is not modelled: `commit`/`rollback`, `DBPortfolioAdapter` and the models' `to_dict`. Tables are in-memory maps, so transactional atomicity is not modelled.
- The live price service (`CoinGeckoAPI.get_price`, `search_coin`) is not modelled. It is an injected function returning an optional quote, and network failures appear only as `None`.
- `random.uniform` is not modelled. The backfill takes an injected sequence of 30 draws, each in [−0.05, 0.05].
- Dates and clocks are not modelled as such. `datetime.now()`, `date` and `fromisoformat` become integer day numbers or times passed in.
  - The chart labels' `strftime('%d/%m')` formatting is not modelled; labels are day numbers.
  - A date that cannot be parsed is an absent date.
  - The dividend handler reads the clock twice. The model uses one reading.
- Floating point is not modelled. All amounts are exact reals, so the model makes no claim about rounding; division is guarded exactly where the code guards it.
- CSV decoding and `csv.DictReader` are not modelled. Rows arrive already split into columns.
  - A cell that `float` rejects is `Invalid`.
  - A short row's `None` cell is not modelled. The code would raise an error other than `ValueError` there.
  - The "no file part" and "no selected file" answers are not modelled.
- CsvImport.AssetTable.ImportRows: a later row with the same symbol sees the asset an earlier row of the same file created. In the code this depends on the session's autoflush. A new asset has no lookup key.
- CsvImport.AssetTable.ImportRows: the holdings are a map from symbol to asset, so a user holds at most one asset per symbol. The code creates assets without looking the symbol up (v3/app.py:422-437), so a user can hold two assets with the same symbol, and the import then merges into whichever one `.first()` returns (v3/app.py:810). That case is not modelled.
- Snapshots.SnapshotTable.Record: the history is a map from day to value, so it holds one row per day by construction. The code reads, then inserts (v3/app.py:286-323), which keeps one row per day only when requests do not overlap. Overlapping requests, which could write two rows for one day, are not modelled.
- Common.Upper: it upper-cases ASCII letters only. Python's `str.upper` also maps other scripts.
- The `AutoTradeSettings.from_dict_dummy` call (v3/app.py:995) is not part of this model. It is taken to return without raising.
- AutoTrade.Merge: JSON `null` values and values of the wrong type in the settings body are not modelled. A key is either absent or carries a value of the field's type.
- The GET side of the settings endpoint, the simulation and dividend list pages, goal storage by id, and `export_csv` are not modelled. They only read or render data.
- `set_language` and the other handlers outside the rules above (alerts, news, predictions, exchange connection, the trading engine) are not part of this model.
- Goals.AmountOrZero, Simulations.NewSimulation, Dividends.NewDividend: a form amount that `float` rejects makes the handler raise and save nothing (v3/app.py:499-500, 589-590, 736). The form amounts are optional reals, so that failure is not modelled.
- Simulations.NewSimulation: a missing `symbol` field, which makes the handler fail, is not modelled. The simulation's name is not modelled.

## Findings

| source | as written | input that shows it | evidently intended | confidence | as-written member | corrected member |
|---|---|---|---|---|---|---|
| v3/app.py:330 | the chart query orders by date ascending and then takes 30 rows, so it returns the earliest 30 days | a first visit on day t (30 backfilled rows), then a visit on day t+1: 31 rows, and day t+1 is not shown | the most recent 30 days, in ascending order | not executed | Snapshots.EarliestSeries | Snapshots.LatestSeries |
| v3/app.py:998-999 | `enabled` and the take-profit are set to `False` and `5.0` when absent before the "keep the current value" lines, so those lines keep the reset values | current settings enabled with take-profit 10, and a body holding only `stop_loss_percentage`: trading is switched off and take-profit becomes 5.0 | a setting absent from the body keeps its current value | not executed | AutoTrade.MergeAsWritten | AutoTrade.Merge |
