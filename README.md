# AI Stock Monitor: portfolio valuation and watchlist screener

A model of the two pieces of logic in the dashboard page `apps.py`.

- **Portfolio valuation** (module `Valuation`, file `valuation.dfy`). Each position of the
  positions sheet gets one price lookup, in row order. A fetched close is kept as it is
  for tickers ending in `.SZ` or `.HK`. Any other fetched close is multiplied by the
  fixed rate `USDINR = 83.5`. A failed lookup falls back to the row's `Buy Price (INR)`.
  The pass collects one current price per row and a running total of price × units.
  From these the tab derives:
  - the headline figures: total invested, current value, gain, and a gain percent that
    is 0 when nothing was invested;
  - four new table columns: Current Price, Current Value, Gain/Loss and Gain/Loss (%).

  The pass is the method `PriceRows`, a loop proved against the functions
  `CurrentPrice`, `CurrentPrices`, `ValueColumn` and `Sum`. The table is the class
  `PortfolioFrame`, whose method `AddValuationColumns` assigns the columns in place.
  `PortfolioTab` runs the whole tab.
- **Watchlist screener** (module `Screener`, file `screener.dfy`). An empty search
  keeps the whole watchlist. A non-empty search is lower-cased and keeps the rows
  whose lower-cased `Stock` or `Ticker` contains it. This is a boolean mask over the
  rows (`SearchMask`) followed by a selection (`Select`). The screener then adds two
  flag columns in place (`ScreenView.AddFlagColumns`):
  - `Undervalued`: the `P/E` cell parses to a number below 20;
  - `High Momentum`: `YTD %` is above 30.

The price lookup is an input: one `Option<real>` per row, where `None` is a failed
lookup. Parsing the `P/E` cell is also an input: a function `string -> Option<real>`.
Money is exact `real` arithmetic.

Two details of the code are kept as written:
- The per-row Gain/Loss (%) column divides by the row's investment with no guard
  (apps.py:68). A zero investment gives pandas' inf or NaN there. The model gives
  `None` in that case (`PercentOf`). It does not give 0.
- Only the headline gain percent is guarded (apps.py:61).

## Model

| member | source | states |
|---|---|---|
| Valuation.PriceRows | apps.py:33-57 | One price per row, in row order. A fetched close is kept for `.SZ`/`.HK` tickers and multiplied by 83.5 otherwise. A failed lookup gives the row's buy price. The total equals the sum of price × units over all rows. |
| Valuation.Summarize | apps.py:60-61 | gain + total invested = current value. The gain percent times total invested is 100 × gain when total invested is nonzero. Otherwise the gain percent is 0. |
| Valuation.PercentOf | apps.py:68 | The per-row percentage has no finite value exactly when the row's investment is 0. Otherwise it times the investment equals 100 × the row's gain/loss. |
| Valuation.GainColumnTotalsGain | apps.py:60-67 | The Gain/Loss column sums to the headline gain, which is current value minus total invested. |
| Valuation.SumOfDifference | apps.py:31-67 | A column that is the entry-wise difference of two columns sums to the difference of their sums. This is how the gain column relates to the value and investment columns. |
| Valuation.AllFallbackBreaksEven | apps.py:54-61 | Suppose every lookup fails and every investment equals buy price × units. Then both the gain and the gain percent are 0. |
| Valuation.ValueOfSplitSheet | apps.py:37-57 | Each row is priced from its own lookup only. So the value of a sheet split in two is the sum of the two parts' values. |
| Valuation.PortfolioFrame.constructor | apps.py:13 | The positions table starts with its rows and none of the derived columns. |
| Valuation.PortfolioFrame.AddValuationColumns | apps.py:65-68 | Assigns the price list as Current Price. It sets Current Value = price × units, Gain/Loss = value − investment, and Gain/Loss (%) relative to the investment. The rows are unchanged. |
| Valuation.PortfolioTab | apps.py:31-68 | The tab's figures come from the sum of the Investment column and the pricing pass. The four columns are added, and the Gain/Loss column sums to the reported gain. |
| Screener.LowerIdempotent | apps.py:84-85 | Lower-casing an already lower-cased text changes nothing. |
| Screener.ScreenLoweredQuery | apps.py:84-85 | Searching with the lower-cased query gives the same rows as searching with the query as typed. |
| Screener.ContainsIffOccurs | apps.py:85 | The substring test holds exactly when the query occurs at some position of the text. |
| Screener.Indices | apps.py:85 | The positions a mask selects are strictly increasing. Each one is a position where the mask is true, and every true position is among them. |
| Screener.SelectAtIndices | apps.py:85 | Masked selection returns the rows at the selected positions, in order. |
| Screener.Screen | apps.py:82-85 | An empty query returns the watchlist unchanged. |
| Screener.ScreenKeepsExactlyMatches | apps.py:82-85 | A non-empty query returns the rows at a strictly increasing run of positions. Those positions are exactly the rows whose lower-cased Stock or Ticker contains the lower-cased query. |
| Screener.ScreenMembership | apps.py:83-85 | A search never returns more rows than the watchlist has. A row is in the result exactly when it is in the watchlist and matches the query. |
| Screener.ScreenIgnoresQueryCase | apps.py:84-85 | Two queries that lower-case alike give the same result. |
| Screener.NotContainedWithoutFirstChar | apps.py:85 | A query cannot occur in a text that lacks the query's first character. |
| Screener.ScreenKeepsFirstOfTwo | apps.py:83-85 | With two rows where only the first matches, the search returns just the first. |
| Screener.ScreenFindsNameFragment | apps.py:83-85 | The mixed-case query "vId" finds the row named Nvidia. It drops a row (Apple, AAPL) that does not contain it. |
| Screener.ScreenView.constructor | apps.py:82-85 | The search result table starts with its rows and no flag columns. |
| Screener.ScreenView.AddFlagColumns | apps.py:87-92 | Adds one flag of each kind per row. Undervalued holds exactly when P/E parses to a number below 20, and is false when parsing fails. High Momentum holds exactly when YTD % > 30. The rows are unchanged. |
| Screener.ScreenTab | apps.py:82-92 | The watchlist tab is the search result with both flag columns. |

## Left out

- Page setup, tabs, metrics, the text inputs and the button (apps.py:6, 23-30, 81, 93, 106-108) are UI. The search text is a parameter of `Screen`.
- The pie and bar charts (apps.py:72-76, 95-96) are rendering by a charting library.
- Reading the two sheets from CSV and caching them (apps.py:9-20) is file I/O. The rows are inputs.
- The market-data lookup (apps.py:42-43) is a network call. It is replaced by one `Option<real>` per row. Exactly one outcome per row is taken as given (`requires |fetches| == |rows|`).
- Valuation.PriceRows: the lookup is the only failure point. The code's `try` also covers the append and the running-total update (apps.py:52-53). A failure after the append would append a second price for the same row. That path is not modelled.
- Floating-point arithmetic is left out. So are `.round(2)` (apps.py:66-68) and the display formatting and `int()` truncation of the metrics (apps.py:32, 59, 62). All money is exact `real`.
- Valuation.PercentOf: the inf and NaN that a zero investment produces are not told apart. Both are `None`.
- Parsing the P/E cell as a float (apps.py:89) is a parameter `parse: string -> Option<real>`. A cell that fails to parse and one that parses to NaN both give `None`, which gives a false flag.
- `YTD %` is taken to be a number. A NaN in that column (comparison false) is not modelled.
- Lower-casing covers ASCII letters only. Python's `str.lower` also folds non-ASCII letters.
- Data types are left out. `Stock` and `Ticker` are strings, so the `str(...)` conversion in the search (apps.py:85) is the identity. A ticker that is not a string is not modelled: in the code its `endswith` would raise and fall back to the buy price.
- Aliasing is left out. With an empty search, `filtered` is the loaded watchlist itself, so the flag columns are written into it. The model copies the rows into a fresh `ScreenView`.
- The research-notes tab (apps.py:98-108) has no logic and stores nothing.
