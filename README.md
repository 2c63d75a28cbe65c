# Volume-reversal signal engine

This project is a Dafny model of the signal-detection engine in `script.js`. The engine is a browser
page that watches USDT pairs on an exchange. For each kline (candle) it estimates buying and selling
pressure as a 70/30 split of the volume. It compares the third-from-last candle and the two after it
with the mean pressure of all earlier candles. From that comparison it raises a BUY or SELL reversal
signal with stop-loss and take-profit levels. A signal is shown as live until a newer signal
replaces it or a timer resets the panel: its own, when it is archived to a history list fifteen
minutes after it was shown, or an earlier signal's.

Prices and volumes are mathematical reals. An empty baseline's `0 / 0 = NaN` is the explicit `None`
of `Baseline.Mean`, so at most three candles give no signal.

Modules:

- `Candles` (candles.dfy): raw klines, normalized candles, and the 70/30 split.
- `Baseline` (baseline.dfy): the left-to-right sum, the mean, the baseline window (all but the last three candles), and the two baselines.
- `Detector` (detector.dfy): the signal datatype and the decision rule `Detect`.
- `Lifecycle` (lifecycle.dfy): the class `SignalBoard`. It holds the current symbol, the live slot, the pending archival timers, the history and a millisecond clock. A ghost sequence `issued` records every displayed signal. `Valid()` states that `issued == history + signals of pending`: each displayed signal is archived exactly once, in display order. It also states that the timers are sorted, none overdue, and none more than one delay in the future.
- `Symbols` (symbols.dfy): the tradable-pair filter and the case-insensitive search limited to thirty entries.
- `Scenarios` (scenarios.dfy): concrete detection passes over normalized klines.
- `Wrappers` (wrappers.dfy): `Option`.

Behaviour of script.js that the model keeps:

- The SELL branch (script.js:91) is the `else` of the BUY climax guard (script.js:83). A flat climax candle (`close == open`) can pass both climax guards; when it passes the BUY guard, a SELL is never produced, even if every SELL condition holds. `Scenarios.FlatClimaxSuppressesSell` shows such a series.
- With one to three candles, `data.slice(0, -3)` (script.js:78-79) is empty and its mean is NaN, so no comparison at script.js:83 or 91 holds and no signal fires. The model gives no signal for `|data| <= 3`. With no candles at all, script.js:83 reads a field of `undefined`, so `Detect` requires a non-empty series.
- There is one live panel and one current symbol (script.js:3, 113). When a timer fires (script.js:122-125), the panel is reset to waiting even if a newer signal is showing.
- `parseFloat` (script.js:58-60) turns a malformed number into NaN without rejecting the candle. Parsing is not modelled.

## Model

| member | source | states |
|---|---|---|
| `Candles.NormalizeCandle` | script.js:58-70 | Copies time, open, close and volume. Sets `buy + sell == volume` and splits the volume 70/30 in one direction or the other. For non-zero volume, the 70% share goes to `sell` exactly when `close < open`. For positive volume, `sell > buy` exactly on a bearish candle. For non-negative volume, `buy >= sell` when bullish or flat and `buy <= sell` when bearish. |
| `Candles.Normalize` | script.js:57-72 | The mapping keeps the length, and element `i` is the normalization of kline `i` (same order). |
| `Candles.NormalizeAppend` | script.js:57-72 | Normalizing a concatenation equals concatenating the normalizations: the mapping works element by element and keeps order. |
| `Baseline.Sum` | script.js:109 | The `reduce((a, b) => a + b, 0)` sum, folded from the left. No contract of its own; `SumRightFold`, `SumConstant` and `SumSplit` state its properties. |
| `Baseline.SumRightFold` | script.js:109 | Folding from the right gives the same sum, so the order of `reduce` does not matter over the reals. |
| `Baseline.Buys` | script.js:79 | The `.map(d => d.buy)`: same length, element `i` is candle `i`'s `buy`. |
| `Baseline.Sells` | script.js:78 | The `.map(d => d.sell)`: same length, element `i` is candle `i`'s `sell`. |
| `Baseline.Mean` | script.js:108-110 | Defined exactly for a non-empty input (`None` is the NaN of `0/0`). Then mean times length equals the left-to-right sum. |
| `Baseline.Window` | script.js:78-79 | `data.slice(0, -3)`: a prefix of the series with three fewer candles, or empty when there are at most three. |
| `Baseline.AvgBuy` | script.js:79 | Defined exactly when there are at least four candles. Then it times the window length equals the sum of `buy` over `data[..|data|-3]`. |
| `Baseline.AvgSell` | script.js:78 | The same for `sell`. |
| `Baseline.SumConstant` | script.js:109 | The sum of `n` equal values `c` is `n * c`. |
| `Baseline.MeanConstant` | script.js:108-110 | The mean of a non-empty run of equal values is that value. |
| `Baseline.SumSplit` | script.js:61-63 | When each candle's `buy + sell` is its volume, the buy sum plus the sell sum is the volume sum. |
| `Baseline.MeanSplit` | script.js:108-110 | Under the same condition, mean buy plus mean sell is the mean volume. |
| `Baseline.BaselineSplitsVolume` | script.js:57-79 | On normalized klines (at least four), `avgBuy + avgSell` is the mean volume of the baseline window. |
| `Detector.Detect` | script.js:75-106 | No signal with at most three candles. A BUY fires exactly when all four conditions hold: `sell > 1.5*avgSell` and `close >= open` on the climax candle, `recent[1].buy > avgBuy`, and `recent[2].buy > recent[1].buy`. It has `sl = 0.98*close` and `tp = 1.04*close`. A SELL fires exactly when the BUY climax guard fails and the mirrored four conditions hold. It has `sl = 1.02*close` and `tp = 0.96*close`. A fired signal carries the climax candle's time and the caller's symbol. For a positive close, a BUY has `sl < close < tp` and a SELL has `tp < close < sl`. |
| `Detector.BuyClimaxShadowsSell` | script.js:83-99 | When the BUY climax guard holds but BUY confirmation fails, there is no signal. If the SELL climax also holds, the climax candle is flat. |
| `Detector.UniformMarketIsQuiet` | script.js:75-99 | When every baseline candle equals the climax candle and pressures are non-negative, nothing fires, whatever the two confirmation candles are: the climax equals its baselines and cannot exceed one and a half times them. |
| `Scenarios.SeriesBaselines` | script.js:57-79 | For seven equal baseline klines followed by three more, both baselines equal the repeated kline's split, and the last three candles are the normalized last three klines. |
| `Scenarios.BuyReversal` | script.js:57-106 | A concrete bullish series yields exactly `BUY, sl 98.98, tp 105.04`, with the climax time and the symbol. |
| `Scenarios.SellReversal` | script.js:57-106 | The mirrored bearish series yields exactly `SELL, sl 100.98, tp 95.04`. |
| `Scenarios.FlatClimaxSuppressesSell` | script.js:83-99 | A flat climax candle passes the SELL climax guard and the SELL confirmation holds, yet no signal fires, because of the `else if`. |
| `Lifecycle.SignalBoard.constructor` | script.js:3 | Starts waiting, with no timers, empty history and the given symbol. |
| `Lifecycle.SignalBoard.SelectSymbol` | script.js:30 | Changes only the current symbol. |
| `Lifecycle.SignalBoard.DisplayLiveSignal` | script.js:112-126 | The signal becomes live. One timer for it, due one delay (900000 ms) from now, is appended after the earlier timers, none of which is cancelled. History is unchanged. |
| `Lifecycle.SignalBoard.CheckForSignal` | script.js:101-105 | The result is `Detect` on the current symbol. A fired signal is displayed. With no signal, the live slot, timers and history are all unchanged. |
| `Lifecycle.SignalBoard.Fire` | script.js:122-125 | The earliest timer fires at its deadline. Its own signal is appended at the end of the history (length plus one, earlier entries unchanged). The live slot becomes waiting, whichever signal was live. |
| `Lifecycle.SignalBoard.Tick` | script.js:122-125 | Time advances to `t`. Exactly the due timers fire, in scheduling order. History grows by their signals, the rest stay pending, and none is left due. Once a whole delay has passed, every displayed signal is in the history. |
| `Lifecycle.ArchiveStep` | script.js:122-124 | Archiving the earliest pending signal keeps every displayed signal archived-or-pending exactly once, in order, with the timers well scheduled. |
| `Lifecycle.OverwrittenLiveSignal` | script.js:112-125 | Two signals displayed less than a delay apart: when the first timer fires, the history is exactly the first signal, the slot shows waiting, and the second is still pending. |
| `Symbols.Filter` | script.js:9 | The result is no longer than the input; every element kept is from the input and satisfies the predicate. |
| `Symbols.FilterAppend` | script.js:9 | Filtering a concatenation concatenates the filtered parts (order preserved). |
| `Symbols.FilterKeeps` | script.js:22 | Every input element satisfying the predicate is kept. |
| `Symbols.Includes` | script.js:12-13 | `includes` holds exactly when the substring occurs at some position. |
| `Symbols.EndsWith` | script.js:10 | `endsWith` holds exactly when the suffix fits and matches the last characters position by position. |
| `Symbols.IsTradable` | script.js:9-13 | Holds exactly when the symbol ends in `USDT`, the status is `TRADING`, and neither `UP` nor `DOWN` occurs at any position. |
| `Symbols.TradablePairs` | script.js:8-14 | At most one name per table entry; every listed name ends in `USDT` and contains neither `UP` nor `DOWN`. |
| `Symbols.TradablePairsMembership` | script.js:8-14 | A name is listed exactly when some entry that ends in `USDT`, has status `TRADING` and contains neither `UP` nor `DOWN` carries it. |
| `Symbols.TradablePairsAppend` | script.js:8-14 | The list for a split table is the two lists in table order. |
| `Symbols.ToLower` | script.js:23 | Same length; each character is lower-cased (ASCII `A`-`Z` shifted by 32, every other character unchanged). |
| `Symbols.Take` | script.js:24 | `slice(0, n)`: a prefix of the input, of length `n` or the whole input when shorter. |
| `Symbols.ToLowerIdempotent` | script.js:23 | ASCII lower-casing twice is lower-casing once. |
| `Symbols.SearchPairs` | script.js:22-24 | At most thirty entries and no more than the list it searches. Each is from the list and its lower-case form contains the lower-case filter. |
| `Symbols.SearchPairsAppend` | script.js:22-24 | The list for a split input is the first thirty of the two parts' lists one after the other: matches are shown in list order. |
| `Symbols.FirstThirty` | script.js:22-24 | Once the first part of the list holds thirty matches, symbols after it are never shown: the list is the first thirty matches. |
| `Symbols.SearchSingleton` | script.js:22-24 | A one-symbol list shows that symbol exactly when it matches, once; with `SearchPairsAppend` this fixes the result for every list. |
| `Symbols.SearchIgnoresFilterCase` | script.js:22-24 | Lower-casing the filter first does not change the result. |
| `Symbols.SearchShowsEveryMatch` | script.js:22-24 | A matching symbol is listed unless the list already holds thirty entries. |
| `Symbols.SearchEmptyFilter` | script.js:15 | The empty filter lists the first thirty symbols in order. |

## Left out

- Network fetches of the exchange's symbol table and klines (script.js:5-7, 53-56): I/O against a foreign service. Symbol tables and kline series are inputs.
- `parseFloat` and IEEE-754 arithmetic: prices and volumes are reals, so `buy + sell == volume` holds exactly rather than within rounding.
- The locale formatting of the open time (script.js:65) and `toFixed(3)` (script.js:119, 133): a candle's and a signal's `time` is the raw open time, an opaque integer.
- The DOM: building the list items, the live panel text and the history entries (script.js:19-47, 113-120, 129-134). Only their state effects are kept: the live slot, its reset to waiting, and the history append. The `trim` and empty check of the search box (script.js:38-47) are UI.
- Wall-clock scheduling by `setTimeout` (script.js:122-125): time is the field `now`, advanced explicitly by `Tick`/`Fire`.
- Chart rendering (script.js:138-197): a foreign library. `renderChart`'s call of the detector is `SignalBoard.CheckForSignal`.
- Unicode case mapping: `toLowerCase` is modelled for ASCII letters only.
