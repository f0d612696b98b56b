# Synthetic market data of an HFT dashboard, modelled in Dafny

The dashboard shows three live widgets whose data is simulated in the browser:

- **The price chart** (`TradingChart`). On mount, and again whenever the time
  range (1H, 4H, 1D) changes, it generates a full history of OHLC candles. It
  steps a random walk from 100 and occasionally redraws a trend. Each candle
  opens at the previous close. Its high and low are the extremes of the open
  and ten intra-candle prices, and its close is the last of those prices.
  Once a second a tick evicts the oldest candle and appends a new one stamped
  with the wall clock. The tick also recomputes the last 50 visible candles,
  their padded price range and the current price. The renderer maps prices to
  pixels with a linear `yScale`.
- **The trade feed** (`TradeHistory`). Every two seconds it generates five
  trades, stamped one second apart backwards from now, and puts them in front
  of the displayed list. The list is then cut to ten entries.
- **The order book** (`OrderBook`). Every second it builds ten bid and ten ask
  levels, one tick (0.1) apart around 100, with random sizes. Depth bars are
  scaled by the largest level total. The header shows the first ask.

Modelling choices:

- Prices are exact `real`s.
- Every `Math.random()` call is a parameter satisfying `Draws.Unit`
  (a value in [0, 1)). The draws of one candle, trade or order-book level
  are grouped into a record.
- `Date.now()` is the parameter `now`, in milliseconds.
- The refs and the React state of the chart are the fields of the class
  `TradingChart.Chart`. The trade list is the field of `TradeHistory.TradeFeed`
  and the two order-book sides are the fields of `OrderBook.Book`.
- The generation loops are methods proved against specification functions:
  `GenerateCandle` against `CandleOf`, `GenerateHistory` (whose iteration
  is `GenerateStep`) against `InitialHistory`, `GenerateTrades` against
  `Batch`, and `GenerateData` against `Bids`/`Asks`.

Behaviour of the code that the model keeps:

- **A flat window draws nothing.** When every visible high and low is equal,
  the price range has zero width, and the renderer skips every candle
  (`yRange === 0`).
- **Only the initial history is evenly spaced.** A tick stamps its candle with
  the wall clock, so the timestamps stay strictly increasing only while the
  clock is past the last stamp (`Chart.Tick`).
- **The price range is stale after regeneration.** Regenerating the history
  leaves the price range as it was, `{0, 0}` right after mount. Only a tick
  recomputes it.
- **The trend carries over.** A regeneration starts from the current trend,
  not from 0.
- **An order-book size can be exactly 10.** `+(r * 10).toFixed(4)` rounds to
  the nearest 0.0001, so a size can reach 10 and not only stay below it
  (`OrderBook.SizeReachesMax`).
- **The trade list is not in time order across batches.** A batch reaches four
  seconds back, while refreshes are two seconds apart. After the second
  refresh the fifth trade is older than the sixth
  (`TradeHistory.FeedNotTimeOrdered`).

## Model

| member | source | states |
|---|---|---|
| TradingChart.RangeDuration | src/components/TradingChart.tsx:26-30 | each time range lasts a positive whole number of hours |
| TradingChart.CandleInterval | src/components/TradingChart.tsx:32-36 | each candle interval is a positive whole number of minutes that divides its range's duration |
| TradingChart.NumCandles | src/components/TradingChart.tsx:104 | each range divides into a positive whole number of candles (count × interval = duration): 60 for 1H, 48 for 4H, 96 for 1D |
| TradingChart.VisibleCount | src/components/TradingChart.tsx:38 | for an initial history the visible window holds all 48 candles of 4H and 50 candles of 1H and 1D (histories of 60, 48 and 96) |
| TradingChart.NextTrend | src/components/TradingChart.tsx:110-113 | the trend is kept when the roll is at least 0.1; a redrawn trend from an in-range trend lies in [-MAX_TREND, MAX_TREND) |
| TradingChart.TrendAfter | src/components/TradingChart.tsx:110-113 | the trend after a run of candles, one `NextTrend` per candle; it is the starting trend when no roll falls below 0.1 |
| TradingChart.TrendAfterBounds | src/components/TradingChart.tsx:110-113 | after any number of candles the trend stays in [-MAX_TREND, MAX_TREND) |
| TradingChart.PriceChange | src/components/TradingChart.tsx:128 | the relative move of one price point; from a draw in [0,1) and an in-range trend it lies in [−0.003, 0.003) |
| TradingChart.PricePoint | src/components/TradingChart.tsx:128-129 | a price point is a perturbation of the open (not of the previous point); from a positive open, a draw in [0,1) and an in-range trend it lies in [0.997, 1.003) × open |
| TradingChart.PricePath | src/components/TradingChart.tsx:127-133 | the ten intra-candle prices, one per tick draw, in order |
| TradingChart.PricePathBounds | src/components/TradingChart.tsx:127-133 | every one of a candle's intra-candle prices lies within 0.3% of its open and is positive: prices do not drift within a candle |
| TradingChart.CandleOf | src/components/TradingChart.tsx:116-145 | the candle at its slot: stamped with its timestamp, opening at the base price, high and low the extremes of the open and the ten prices, closing at the last price, volume from the draw (the other properties are in the lemmas below) |
| TradingChart.CandleOfOrdered | src/components/TradingChart.tsx:120-133 | a candle's open and close lie between its low and its high |
| TradingChart.CandleOfExtremes | src/components/TradingChart.tsx:122-133 | every one of the ten prices lies in [low, high] and the close is the tenth price |
| TradingChart.CandleOfWellFormed | src/components/TradingChart.tsx:120-135 | from a positive open, an in-range trend and draws in [0,1): 0 < low ≤ open, close ≤ high and 50 ≤ volume < 150 |
| TradingChart.GenerateCandle | src/components/TradingChart.tsx:120-135 | the running high/low/close loop computes the candle of `CandleOf`: the extremes of the open and the ten prices, and the last price |
| TradingChart.InitialHistory | src/components/TradingChart.tsx:107 | the initial history has one candle per draw |
| TradingChart.InitialHistoryStep | src/components/TradingChart.tsx:107-145 | the history of i + 1 draws is the history of i draws followed by candle i, opened at 100 or at the previous close, with the trend after i + 1 rolls |
| TradingChart.InitialHistoryShape | src/components/TradingChart.tsx:116-135 | the first candle opens at 100, each later one opens at its predecessor's close, and every candle is well formed |
| TradingChart.InitialHistoryStamps | src/components/TradingChart.tsx:108 | candle k is stamped startTime + k × interval |
| TradingChart.EvenStamps | src/components/TradingChart.tsx:108 | stamps start + k × step with a positive step are evenly spaced and strictly increasing |
| TradingChart.InitialTimestampsSpaced | src/components/TradingChart.tsx:101-108 | the initial history starts at now − duration, is evenly spaced and strictly increasing, and its last stamp is now − interval |
| TradingChart.GenerateStep | src/components/TradingChart.tsx:108-145 | one loop iteration turns the history and trend of i draws into those of i + 1 draws |
| TradingChart.GenerateHistory | src/components/TradingChart.tsx:106-145 | the generation loop produces exactly `InitialHistory` and leaves the trend at `TrendAfter` of the draws |
| TradingChart.Visible | src/components/TradingChart.tsx:149 | the displayed window holds at most 50 candles and no more than the history |
| TradingChart.VisibleWindow | src/components/TradingChart.tsx:149 | the visible data is the trailing min(50, length) candles of the history |
| TradingChart.AllPrices | src/components/TradingChart.tsx:198 | the flattened list holds two prices per candle |
| TradingChart.AllPricesAt | src/components/TradingChart.tsx:198 | candle i contributes its high at position 2i and its low at 2i + 1 |
| TradingChart.AllPricesFrom | src/components/TradingChart.tsx:198 | every position of the flattened list is the high or the low of some candle |
| TradingChart.PriceRangeOf | src/components/TradingChart.tsx:196-206 | a price range exists exactly when some candle is visible |
| TradingChart.PriceRangeBounds | src/components/TradingChart.tsx:198-206 | min ≤ max, and the range encloses every visible high and low |
| TradingChart.PriceRangeTight | src/components/TradingChart.tsx:198-206 | a lowest and a highest visible price exist, and for them the range is exactly [lo − (hi − lo)/10, hi + (hi − lo)/10]; it has zero width exactly when every visible high and low is equal |
| TradingChart.YScale | src/components/TradingChart.tsx:404-408 | on a non-empty range the minimum maps to the chart height and the maximum to 0 |
| TradingChart.YScaleMonotone | src/components/TradingChart.tsx:404-408 | a higher price maps to a smaller y, and prices inside the range map inside [0, height] |
| TradingChart.CandleGeometry | src/components/TradingChart.tsx:390-413 | a candle is drawn exactly when width, height and data length are non-zero and the range has non-zero height |
| TradingChart.CandleDrawnInside | src/components/TradingChart.tsx:401-413 | for a well-formed visible candle drawn against its own window's range, all four y values lie in [0, height], with the high on top, the low at the bottom, and the open and close between them |
| TradingChart.EvictAppend | src/components/TradingChart.tsx:192-194 | evicting the oldest candle and appending a well-formed one that opens at the last close keeps the length and the chained, well-formed shape, and puts the new candle last |
| TradingChart.EvictAppendIncreasing | src/components/TradingChart.tsx:183-192 | if the history was increasing and the new stamp is later than the last one, the result is increasing |
| TradingChart.Chart.constructor | src/components/TradingChart.tsx:87-95 | the mounted state: 1H, no data, price 100, range {0, 0}, trend 0 |
| TradingChart.Chart.Init | src/components/TradingChart.tsx:98-150 | the history becomes `InitialHistory` of the range's start time, interval and draws; the trend is carried through the draws; the price range is left untouched; the class invariant holds |
| TradingChart.Chart.Install | src/components/TradingChart.tsx:147-150 | the refs take the history, its last close and the trend, and the visible data and current price follow them |
| TradingChart.Chart.Tick | src/components/TradingChart.tsx:153-210 | the history becomes old[1..] + [the candle stamped now that opens at the old last price]; the length is kept; the last price is its close; the price range is that of the new visible data |
| TradingChart.Chart.AppendCandle | src/components/TradingChart.tsx:191-209 | eviction, append, last price, visible window, padded price range and current price, keeping the invariant |
| Extrema.Max | src/components/TradingChart.tsx:130 | the larger argument: an upper bound of both and one of them |
| Extrema.Min | src/components/TradingChart.tsx:131 | the smaller argument: a lower bound of both and one of them |
| Extrema.SeqMax | src/components/TradingChart.tsx:200 | `Math.max(...xs)` as a fold over a non-empty list; what it computes is stated by `SeqMaxIsMax` |
| Extrema.SeqMin | src/components/TradingChart.tsx:199 | `Math.min(...xs)` as a fold over a non-empty list; what it computes is stated by `SeqMinIsMin` |
| Extrema.SeqMaxIsMax | src/components/TradingChart.tsx:200 | `Math.max(...xs)` bounds every element and is one of them |
| Extrema.SeqMinIsMin | src/components/TradingChart.tsx:199 | `Math.min(...xs)` bounds every element from below and is one of them |
| Extrema.SeqMaxSnoc | src/components/TradingChart.tsx:130 | extending the list by one price takes the max with the running high |
| Extrema.SeqMinSnoc | src/components/TradingChart.tsx:131 | extending the list by one price takes the min with the running low |
| TradeHistory.TradeOf | src/components/TradeHistory.tsx:69-72 | BUY exactly when the draw exceeds 0.5; from draws in [0,1): 100 ≤ price < 110, 0 ≤ size < 5, −500 ≤ pnl < 500 |
| TradeHistory.Batch | src/components/TradeHistory.tsx:68 | one trade per draw |
| TradeHistory.BatchTimes | src/components/TradeHistory.tsx:66-74 | trade i is stamped now − 1000·i, so stamps within a batch strictly decrease |
| TradeHistory.GenerateTrades | src/components/TradeHistory.tsx:64-89 | the loop pushes exactly five trades, the batch `Batch` |
| TradeHistory.Merge | src/components/TradeHistory.tsx:91 | length min(10, new + old); the new trades come first; the rest is a prefix of the previous list in order |
| TradeHistory.FeedAfter | src/components/TradeHistory.tsx:91-95 | the list after successive refreshes from an empty list; it never holds more than ten trades |
| TradeHistory.FeedAfterLength | src/components/TradeHistory.tsx:91-95 | after the first refresh the list holds 5 trades, from the second on 10 |
| TradeHistory.FeedAfterNewestFirst | src/components/TradeHistory.tsx:91 | the newest batch is always the top five entries |
| TradeHistory.FeedNotTimeOrdered | src/components/TradeHistory.tsx:74-95 | refreshes at t and t + 2000 leave the fifth trade (t − 2000) older than the sixth (t) |
| TradeHistory.PnlPrefix | src/components/TradeHistory.tsx:148 | a "+" prefix exactly when pnl ≥ 0, nothing otherwise |
| TradeHistory.TradeFeed.constructor | src/components/TradeHistory.tsx:60 | the list starts empty |
| TradeHistory.TradeFeed.Refresh | src/components/TradeHistory.tsx:64-91 | the list becomes the merge of the new batch and the old list: 5 long after the first refresh and 10 afterwards, batch first, old entries in order after it |
| OrderBook.ToFixed4 | src/components/OrderBook.tsx:89-90 | four-decimal rounding moves a value by at most half a unit in the last place and keeps it non-negative |
| OrderBook.SizeOf | src/components/OrderBook.tsx:89-90 | a size drawn from [0,1) lies in [0, 10] |
| OrderBook.SizeReachesMax | src/components/OrderBook.tsx:89 | the draw 0.99999999 gives a size of exactly 10 |
| OrderBook.BidPrice | src/components/OrderBook.tsx:91 | bid level i lies i + 1 ticks below the base price |
| OrderBook.AskPrice | src/components/OrderBook.tsx:92 | ask level i lies i + 1 ticks above the base price |
| OrderBook.BidOrder | src/components/OrderBook.tsx:89-94 | a bid is below the base, has a size in [0, 10] and its total is size × price |
| OrderBook.AskOrder | src/components/OrderBook.tsx:90-95 | an ask is above the base, has a size in [0, 10] and its total is size × price |
| OrderBook.Bids | src/components/OrderBook.tsx:88 | one bid level per draw |
| OrderBook.Asks | src/components/OrderBook.tsx:88 | one ask level per draw |
| OrderBook.GenerateData | src/components/OrderBook.tsx:84-99 | the loop produces exactly ten bids and ten asks, the levels of `Bids` and `Asks` |
| OrderBook.Ladder | src/components/OrderBook.tsx:85-92 | bid i is at 100 − (i+1)·0.1 and ask i at 100 + (i+1)·0.1; bids strictly fall, asks strictly rise, every bid < 100 < every ask |
| OrderBook.LevelSizes | src/components/OrderBook.tsx:89-95 | every generated level has a size in [0, 10] and a non-negative total |
| OrderBook.Totals | src/components/OrderBook.tsx:107-108 | one total per level |
| OrderBook.MaxTotal | src/components/OrderBook.tsx:106-109 | a largest total exists exactly when some level exists (otherwise −Infinity) |
| OrderBook.MaxTotalBounds | src/components/OrderBook.tsx:106-109 | the largest total is ≥ every bid and ask total and equals one of them |
| OrderBook.RowCount | src/components/OrderBook.tsx:151 | the row count is the longer side's length |
| OrderBook.LevelAt | src/components/OrderBook.tsx:152-153 | row i has a level exactly when the side is longer than i, and it is that side's level i |
| OrderBook.Depth | src/components/OrderBook.tsx:154-155 | a missing level has depth 0; a present level over a zero largest total has no finite depth |
| OrderBook.DepthInRange | src/components/OrderBook.tsx:154-155 | with a positive largest total bounding the level's non-negative total, the depth is a finite percentage in [0, 100] |
| OrderBook.Rows | src/components/OrderBook.tsx:151-153 | one row per level of the longer side, holding the bid and the ask at that index |
| OrderBook.RowsDepthInRange | src/components/OrderBook.tsx:151-155 | with non-negative totals and a positive largest total, every bar is in [0, 100], and rows past a side's end have no bar on that side |
| OrderBook.BestAsk | src/components/OrderBook.tsx:125 | the header price exists exactly when there is an ask |
| OrderBook.BestAskOfGenerated | src/components/OrderBook.tsx:125 | on a generated book the header shows 100.1, the lowest ask |
| OrderBook.Book.constructor | src/components/OrderBook.tsx:80-81 | both sides start empty |
| OrderBook.Book.Refresh | src/components/OrderBook.tsx:97-98 | both sides are replaced by the generated ladder, and the table has ten rows |

## Left out

- Rendering is not modelled: JSX, MUI styling, recharts, the `Candlestick` and tooltip components, the order-book `DepthRow` bars, and the pages and layout under `src/app`.
- `src/components/RecentTrades.tsx` and `src/components/PerformanceMetrics.tsx` are not part of this model. They only render fixed values.
- The timers (`setInterval`/`clearInterval`) and the React effect lifecycle are not modelled. Each timer firing is one call of `Tick` or `Refresh`, and a range change is one call of `Init`.
- `Math.random()` and `Date.now()` become parameters. The model does not fix how the draws interleave in one random stream. In particular, the trend draw is consumed only when the roll is below 0.1.
- IEEE-754 floating point is not modelled. Prices are exact reals, so `toFixed(3)` on an order-book price is the identity. `toFixed(2)` and `toLocaleTimeString` only format for display and are not modelled.
- TradeHistory.TradeOf: the displayed time is the millisecond stamp `now - i*1000`, not its locale string.
- TradingChart.CandleDrawnInside: the candle body is a rectangle at least 1 px tall (`Math.max(1, …)`, src/components/TradingChart.tsx:433-435). When the open and the close map within 1 px of the low, the drawn body reaches below the wick. Against the window's own range a low maps at most 11/12 of the way down, so the body leaves the chart only on a chart under 12 px tall. The lemma states only where the four y values lie, not where the drawn rectangle ends.
- TradingChart.CandleGeometry: only the vertical geometry of a candle is modelled. The horizontal layout (spacing, x position, body width) and the `isNaN`/`typeof` guards are left out, because with exact reals they never fire.
- The current-price colour comparison of the chart header is left out. It compares the current price with the last price, and these are always equal.
- TradingChart.Chart.Tick: strictly increasing timestamps are stated only under the condition that the wall clock is past the last stamp. The code does not ensure it.
- OrderBook.Depth: a present level over a `-Infinity` largest total cannot occur, because some level exists. The depth is therefore only defined against a finite largest total.
