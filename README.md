# coin-vista, modelled in Dafny

coin-vista is a client-side cryptocurrency dashboard. It shows a live market table, a page per
coin, a watchlist and a portfolio tracker. Prices come from a public market-data API, and the
watchlist and the portfolio are kept in the browser's local storage. This project models the
logic inside those views, with fetched data taken as inputs and arithmetic done over `real`:

- **Portfolio** (`portfolio.dfy`, module `Portfolio`). A lot (`Holding`) is a coin id, a quantity
  and a buy price. The page (`PortfolioPage`) keeps the list of lots and persists it after every
  change. Lots are appended (coin id lower-cased) and removed by position. The module also
  models the id→price map built from the fetched prices, the totals (a `reduce` from 0), and
  the profit/loss percentage, which is guarded against a zero cost basis for the total and for
  every row.
- **Portfolio analytics** (`portfolio_charts.dfy`, module `PortfolioCharts`). Allocation slices
  are guarded against a zero total. The best performer is a `reduce` with a strict `>`. The
  best performer's gain and the 31-point value series are modelled too.
- **Watchlist** (`id_lists.dfy`, `coin_table.dfy`, `watchlist.dfy`). The market table keeps a
  JavaScript `Set`, which iterates in insertion order. It is modelled as a duplicate-free list
  in that order, toggled by the star buttons. The watchlist page keeps a plain list and removes
  ids with `filter`. Both views overwrite the shared storage key after each change.
- **Formatters and classifiers** (`formatters.dfy`, `market_stats.dfy`, `coin_details.dfy`).
  `formatPrice` and `formatMarketCap` are modelled once, in `Formatters`. The market table,
  the watchlist page (`src/pages/Watchlist.tsx:29-40`) and the coin page
  (`src/pages/CoinDetails.tsx:60-71`) each carry an identical copy. Also modelled:
  `formatNumber`, the fear-and-greed colour bands, the fallback and defaults of the
  fear-and-greed feed, description truncation to three ". "-segments, the card visibility
  rules, the chart-point mapping and the chart-range selector.
- Helpers: `Optional` (`Option`, and `Fetch` for a request's outcome), `Storage` (`Slot<T>`, one
  local-storage key holding decoded values), `Sums` (Σ and the left fold that computes it), and
  `Ascii` (letter case).

Rendering is modelled as the choice made, not the string produced. A `Display` records the
amount shown, whether `toFixed(n)` or a grouped `toLocaleString` is used, and the T/B/M
suffix.

In `bestPerformer` the leader's gain is divided by its buy price without a guard. The model
follows the code here. Dividing by zero gives +Infinity, -Infinity or NaN (datatype `Ext`), and
JavaScript compares against those values the way `GreaterThan` does. When every buy price is
positive, the result is the earliest lot of maximal gain. A leader bought at 0 whose coin has a
non-negative price is never replaced. `ZeroBuyPriceExample` shows such a lot beating a lot that
has doubled.

Quantities and buy prices are not checked to be positive in the code, and the model does not
assume they are.

## Model

| member | source | states |
|---|---|---|
| `Storage.Slot.Read` | src/pages/Portfolio.tsx:35 | reading a key gives what is stored, `None` when the key is absent |
| `Storage.Slot.Write` | src/pages/Portfolio.tsx:42 | a write overwrites the key wholesale with the new value |
| `Storage.WriteThenRead` | src/pages/Portfolio.tsx:34-43 | a value written and read back is the same value |
| `Sums.FoldAddIsSum` | src/pages/Portfolio.tsx:78-83 | `reduce((sum, x) => sum + x, acc)` equals acc + Σ x |
| `Portfolio.PriceMapKeys` | src/pages/Portfolio.tsx:47-53 | the price map's keys are exactly the coin ids of the lots |
| `Portfolio.PriceMapLastLotWins` | src/pages/Portfolio.tsx:50-53 | lots of one coin share one entry, holding the price fetched for the last of them |
| `Portfolio.ProfitLossPercent` | src/pages/Portfolio.tsx:85 | 0 when the cost is not positive; otherwise the percentage with value = cost + cost·r/100, positive iff value > cost and 0 iff value = cost |
| `Portfolio.Values` | src/pages/Portfolio.tsx:252-253 | definition: one current value per lot, in order, equal to that row's value (Σ and totals in `Portfolio.TotalValue`) |
| `Portfolio.Costs` | src/pages/Portfolio.tsx:254 | definition: one cost basis per lot, in order, quantity × buy price (Σ in `Portfolio.TotalCost`) |
| `Portfolio.ProfitLosses` | src/pages/Portfolio.tsx:255 | definition: one profit/loss per lot, in order, value − cost (their sum in `Portfolio.TotalProfitLossIsSumOfRows`) |
| `Portfolio.TotalValue` | src/pages/Portfolio.tsx:78-81 | the reduce equals Σ quantity × price over the lots, a missing price counting 0; 0 for an empty portfolio |
| `Portfolio.TotalCost` | src/pages/Portfolio.tsx:83 | the reduce equals Σ quantity × buy price; 0 for an empty portfolio |
| `Portfolio.TotalProfitLossIsSumOfRows` | src/pages/Portfolio.tsx:84 | total value − total cost equals the sum of the rows' profit/loss |
| `Portfolio.TotalsNonNegative` | src/pages/Portfolio.tsx:78-83 | non-negative quantities and prices give non-negative totals |
| `Portfolio.BitcoinExample` | src/pages/Portfolio.tsx:78-85 | 1 BTC bought at 20000 and priced 25000: value 25000, cost 20000, profit 5000, 25% |
| `Portfolio.RemoveAtSplices` | src/pages/Portfolio.tsx:75 | filtering out index i splices out exactly p[i] when i is in range, and changes nothing otherwise |
| `Portfolio.TotalsAfterAppend` | src/pages/Portfolio.tsx:61-68 | appending a lot adds its value and its cost to the totals |
| `Portfolio.TotalsAfterRemove` | src/pages/Portfolio.tsx:74-76 | removing lot i (p[..i] + p[i+1..], what the filter yields) takes its value and its cost off the totals |
| `Portfolio.PortfolioPage.constructor` | src/pages/Portfolio.tsx:34-43 | loads the stored list (empty when the key is absent), empty form, dialog closed, list persisted |
| `Portfolio.PortfolioPage.EditDraft` | src/pages/Portfolio.tsx:113-138 | the form fields change; the list and the dialog do not |
| `Portfolio.PortfolioPage.SetDialogOpen` | src/pages/Portfolio.tsx:98 | the dialog opens or closes; nothing else changes |
| `Portfolio.PortfolioPage.AddToPortfolio` | src/pages/Portfolio.tsx:59-72 | with all three fields non-empty, appends exactly one lot (id lower-cased) after the unchanged earlier lots, clears the form and closes the dialog; otherwise nothing changes; storage equals the list |
| `Portfolio.PortfolioPage.RemoveFromPortfolio` | src/pages/Portfolio.tsx:74-76 | in range: the list is p[..i] + p[i+1..]; out of range: unchanged; storage equals the list |
| `Ascii.ToLower` | src/pages/Portfolio.tsx:64 | same length; every character lower-cased |
| `Ascii.ToLowerIsLowerAndIdempotent` | src/pages/Portfolio.tsx:64 | a lower-cased id has no upper-case letter, and lower-casing it again changes nothing |
| `Ascii.CapitalizeChangesOnlyCase` | src/components/PortfolioCharts.tsx:69 | the display name has the id's length and tail, a first letter that is not lower-case, and the same lower-case form |
| `PortfolioCharts.AllocationData` | src/components/PortfolioCharts.tsx:65-73 | one slice per lot in order, named by the capitalised id, valued at the lot's value; percentage × total = value × 100 when the total is positive, 0 otherwise |
| `PortfolioCharts.Percentages` | src/components/PortfolioCharts.tsx:71 | definition: the slices' percentages, in order (their sum in `PortfolioCharts.AllocationsSumTo100`) |
| `PortfolioCharts.AllocationsSumTo100` | src/components/PortfolioCharts.tsx:66-71 | when the total passed in is the portfolio's positive value, the unrounded percentages sum to 100 |
| `PortfolioCharts.PerformanceMetrics` | src/components/PortfolioCharts.tsx:77-86 | profit = value − cost; return 0 when the cost is not positive, else value = cost + cost·r/100; asset count = number of lots; the best-performer card shows `BestPerformer`, absent iff empty |
| `PortfolioCharts.Div` | src/components/PortfolioCharts.tsx:84 | a non-zero divisor gives the finite quotient; a zero divisor gives +Infinity iff the dividend is positive, -Infinity iff negative, NaN iff 0 |
| `PortfolioCharts.RawGainPercent` | src/components/PortfolioCharts.tsx:84 | with a positive buy price the unguarded gain is the guarded gain of line 83 |
| `PortfolioCharts.BestPerformer` | src/components/PortfolioCharts.tsx:81-86 | absent exactly for an empty portfolio |
| `PortfolioCharts.LeaderIsSome` | src/components/PortfolioCharts.tsx:86 | the reduce seeded with `portfolio[0]` has a leader at every step iff the portfolio is non-empty |
| `PortfolioCharts.LeaderIsEarliestMaximum` | src/components/PortfolioCharts.tsx:81-86 | with positive buy prices, after n steps the leader is the first lot of p[..n] with maximal gain |
| `PortfolioCharts.BestPerformerIsEarliestMaximum` | src/components/PortfolioCharts.tsx:81-86 | with positive buy prices, the best performer is a lot of maximal gain, and the earliest such lot, since `>` is strict |
| `PortfolioCharts.ZeroBuyPriceLeaderStays` | src/components/PortfolioCharts.tsx:84-85 | a leader bought at 0 with a non-negative price is never replaced (its gain is +Infinity or NaN) |
| `PortfolioCharts.ZeroBuyPriceExample` | src/components/PortfolioCharts.tsx:81-86 | a first lot bought at 0 stays best performer although a later lot gained 100% |
| `PortfolioCharts.BestPerformerGain` | src/components/PortfolioCharts.tsx:88-90 | 0 without a best performer or when its price is missing or 0; its gain percentage when its price is set and its buy price positive |
| `PortfolioCharts.SimulatedValueWithinTenPercent` | src/components/PortfolioCharts.tsx:47-49 | for a draw in [0, 1) a simulated value is within ±10% of a trend line rising from the cost basis to 10% above it |
| `PortfolioCharts.GenerateHistoricalData` | src/components/PortfolioCharts.tsx:38-62 | 31 points from 30 days ago to today, every cost equal to the total cost, earlier values simulated, today's value the live total value |
| `IdLists.RemoveAllCounts` | src/pages/Watchlist.tsx:56 | the filter drops every copy of the id, keeps every other id as often as before, and never lengthens the list |
| `IdLists.RemoveAllDistributes` | src/pages/Watchlist.tsx:56 | the filter works piece by piece, so the remaining ids keep their relative order |
| `IdLists.RemoveAbsentIsIdentity` | src/pages/Watchlist.tsx:56 | removing an id that is not there leaves the list unchanged |
| `IdLists.RemoveAllIdempotent` | src/pages/Watchlist.tsx:56 | removing twice is removing once |
| `IdLists.RemoveAllKeepsNoDuplicates` | src/components/CoinTable.tsx:57 | deleting from a duplicate-free list keeps it duplicate-free |
| `IdLists.DedupIsSetOfList` | src/components/CoinTable.tsx:45 | `new Set(list)` holds exactly the list's ids, each once, and keeps a duplicate-free list as it is |
| `IdLists.ToggleFlipsMembership` | src/components/CoinTable.tsx:54-60 | toggling flips the id's membership, keeps every other id's, and keeps the set duplicate-free |
| `IdLists.ToggleTwice` | src/components/CoinTable.tsx:54-60 | toggling twice restores the set, and the very list when the id was absent |
| `CoinTable.CoinTableWatchlist.constructor` | src/components/CoinTable.tsx:44-46 | the set is the stored list's ids, empty when the key is absent |
| `CoinTable.CoinTableWatchlist.ToggleWatchlist` | src/components/CoinTable.tsx:54-63 | membership of the id flips, others unchanged, set stays duplicate-free, storage holds exactly the new set |
| `Watchlist.FetchWatchlistCoins` | src/pages/Watchlist.tsx:20-27 | an empty id list answers no coins without a request; otherwise the provider's answer |
| `Watchlist.PageView` | src/pages/Watchlist.tsx:71-83 | the empty card iff the list is empty, else the fetched coins (none while loading) |
| `Watchlist.EmptyListShortCircuits` | src/pages/Watchlist.tsx:48-53 | the query is enabled iff the list is non-empty; an empty list gives no coins and the empty card |
| `Watchlist.WatchlistPage.constructor` | src/pages/Watchlist.tsx:43-46 | the stored list, empty when the key is absent |
| `Watchlist.WatchlistPage.RemoveFromWatchlist` | src/pages/Watchlist.tsx:55-59 | the list loses every copy of the id and nothing else, never grows, and storage equals the new list |
| `Formatters.SuffixFor` | src/components/CoinTable.tsx:36-40 | T iff ≥ 1e12, B iff in [1e9, 1e12), M iff in [1e6, 1e9), none iff below 1e6 |
| `Formatters.ScaledFigureInRange` | src/components/CoinTable.tsx:37-39 | a suffixed figure divided by its power is at least 1, and below 1000 for B and M |
| `Formatters.FormatPrice` | src/components/CoinTable.tsx:30-34 | 6 decimals iff price < 1, 4 iff 1 ≤ price < 100, 2 grouped iff price ≥ 100; the price itself, no suffix |
| `Formatters.FormatPriceDecimalsShrink` | src/components/CoinTable.tsx:30-34 | a dearer coin never shows more decimals than a cheaper one |
| `Formatters.FormatMarketCap` | src/components/CoinTable.tsx:36-41 | the figure's suffix tier, an amount that times the suffix's power gives the figure, 2 decimals when suffixed and the default grouping otherwise |
| `MarketStats.FormatNumber` | src/components/MarketStats.tsx:54-60 | "$0" iff missing or 0; otherwise the suffix tier with 2 decimals and an amount that times the power gives the figure |
| `MarketStats.FormatNumberAgreesWithMarketCap` | src/components/MarketStats.tsx:56-59 | for a non-zero figure it picks the same tier and amount as `formatMarketCap`, with the same digits iff the figure is at least 1e6 |
| `MarketStats.FearGreedColor` | src/components/MarketStats.tsx:62-68 | red iff < 25, orange iff in [25, 45), yellow iff in [45, 55), green iff ≥ 55 |
| `MarketStats.FetchFearGreedIndex` | src/components/MarketStats.tsx:23-32 | a failure gives the fallback {"50", "Neutral"}; a response gives its first entry, or nothing when it has none |
| `MarketStats.GaugeValueText` | src/components/MarketStats.tsx:51 | the entry's value when set and non-empty, else "50" |
| `MarketStats.GaugeLabel` | src/components/MarketStats.tsx:52 | the entry's classification when set and non-empty, else "Neutral" |
| `MarketStats.GaugeDefaultsToNeutral` | src/components/MarketStats.tsx:29-52 | with the feed failed or not loaded the gauge shows 50, "Neutral", in yellow |
| `CoinDetails.Split` | src/pages/CoinDetails.tsx:255 | splitting always gives at least one segment |
| `CoinDetails.JoinSplit` | src/pages/CoinDetails.tsx:255 | joining the ". "-segments with ". " gives back the text |
| `CoinDetails.FirstSegmentIsPrefix` | src/pages/CoinDetails.tsx:255 | the first segment is a prefix of the text |
| `CoinDetails.SegmentsAreFreeOfSeparator` | src/pages/CoinDetails.tsx:255 | no segment contains ". " |
| `CoinDetails.JoinCut` | src/pages/CoinDetails.tsx:255 | a join is the join of the first m segments, ". ", and the join of the rest |
| `CoinDetails.ShortDescriptionShownWhole` | src/pages/CoinDetails.tsx:255 | a description of at most three segments is shown whole, followed by "." |
| `CoinDetails.LongDescriptionCutAtThirdSeparator` | src/pages/CoinDetails.tsx:255 | a longer description is cut just before its third ". ", and "." is appended |
| `CoinDetails.VisibleCards` | src/pages/CoinDetails.tsx:246-276 | About iff the description is non-empty; Links and the website button iff `homepage[0]` is set; the explorer button iff Links shows and `blockchain_site[0]` is set |
| `CoinDetails.ToChartPoints` | src/pages/CoinDetails.tsx:53-57 | one point per fetched pair, in order, with timestamp and price copied |
| `CoinDetails.OneButtonHighlighted` | src/pages/CoinDetails.tsx:194-204 | the range options have distinct lengths, so one button is highlighted for any offered range |
| `CoinDetails.ChartRange.constructor` | src/pages/CoinDetails.tsx:75 | the chart starts at 7 days, an offered range |
| `CoinDetails.ChartRange.Select` | src/pages/CoinDetails.tsx:200-205 | a button sets the range to its own length, which stays an offered range and is highlighted |

## Left out

- Network access: every request to the market-data provider and the sentiment feed, `Promise.all`, and react-query's polling and `enabled` scheduling. Fetched prices, coins, chart pairs and feed entries are inputs. A failed request is `Fetch.Failed`.
- `fetchCoinPrice` throws when a coin is missing from the answer, so the price query fails. The model takes the resulting price map as an input and does not model that failure.
- Browser storage: JSON encoding and decoding are treated as exact inverses. Malformed stored JSON is not recovered from: `JSON.parse` throws at `src/pages/Portfolio.tsx:36` and `src/components/CoinTable.tsx:45`, and the model, like the code, has no recovery path. Races between tabs are not modelled.
- Rendering: `toFixed`, `toLocaleString` and date strings are not produced. Only the chosen amount, digit rule and suffix are modelled.
- `PortfolioCharts.AllocationData`: keeps the unrounded value and percentage. The code rounds the value to 2 decimals and the percentage to 1 decimal for display.
- `PortfolioCharts.GenerateHistoricalData`: keeps the unrounded simulated value, not `parseFloat(toFixed(2))`. It keeps each point's distance in days from today, not its locale date label. The draws of `Math.random()` are the `randoms` parameter.
- `PortfolioCharts.BestPerformerIsEarliestMaximum`: holds only when every buy price is positive. With a zero buy price the unguarded division decides the result, as `ZeroBuyPriceLeaderStays` states.
- Floating point: figures are reals. NaN and infinities appear only where the code divides by a buy price that may be 0. `prices?.[id] || 0` also turns a NaN price into 0, and this is not modelled.
- `Portfolio.PortfolioPage.AddToPortfolio`: `parseFloat` is the `parse` parameter. It cannot return NaN, while `parseFloat` can.
- `Ascii.ToLower`, `Ascii.Capitalize`: map ASCII letters only. JavaScript's `toLowerCase` and `toUpperCase` follow Unicode.
- `MarketStats`: `parseInt` of the gauge text is left out. The gauge is modelled as its text and label, and the colour bands take the parsed integer. The market-cap change arrow and the dominance figure are layout.
- `CoinDetails`: HTML semantics of the description shown with `dangerouslySetInnerHTML` are left out, and so are the chart query's failure and loading states.
- Layout and routing: JSX, icons, CSS classes, `src/pages/Home.tsx`, `src/components/Header.tsx` and `src/pages/Index.tsx` hold no logic beyond what is listed above.
