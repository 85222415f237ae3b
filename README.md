# Alpha Sniper signal engine, in Dafny

A model of the analysis core of the "Alpha Sniper Platinum+" stock dashboard
(`super_trader.py`). For each ticker, the dashboard downloads about two years of daily bars
and resolves a display currency by testing whether `.T`, `.F`, `.TW` or `.TWO` occurs
anywhere in the ticker. It then decides whether
the instrument looks like a fund (flat intraday ranges, unless the ticker is on a whitelist
of ETFs). It derives 20/50/200-bar moving averages with fallbacks for short histories, takes
the RSI and lower Bollinger band, and runs three ordered blocks of rules that overwrite an
(action, colour, confidence) triple:

- buy: panic floor, then golden price, then uptrend;
- sell: overheated, then danger;
- trend break.

It reports the result, with the 200-bar "golden price" shown as "N/A" when there is none.
The comma-separated ticker lists of the sidebar are parsed with `split`, `strip` and `upper`.

Modules, one per file:

- `Optional` (`optional.dfy`): the Option datatype.
- `Text` (`text.dfy`): the Python string built-ins used. Substring `in`, `split(',')`,
  `strip()` with Python's exact whitespace set, and `upper()`.
- `Watchlist` (`watchlist.dfy`): ticker-list parsing.
- `Series` (`series.dfy`): bars, sums and means, moving-average columns, golden price and
  the RSI fallback.
- `Instrument` (`instrument.dfy`): currency, ETF whitelist, fund-likeness and display name.
- `Signal` (`signal.dfy`): the rule blocks. `DeriveSignal` is the step-by-step procedure
  over local variables. `SignalOf` is the same outcome stated as a fold of optional
  overrides, and the lemmas characterise it.
- `Analysis` (`analysis.dfy`): the per-ticker orchestration. `Analyze` is the function;
  `AnalyzeAsset` is the procedure that calls `DeriveSignal` and is proved equal to it.

Prices are `real`. A derived cell that has no finite value is `Reading.Undefined`: a rolling
window that is not yet full, a Bollinger band on a short history, or a change in percent
against a zero close. Comparisons with it are false, as Python's are with NaN.

Two behaviours of the code that the model keeps:

- A history too short for a Bollinger band (under 20 bars) is not rejected. The band is NaN,
  the panic rule cannot fire, and the analysis goes on. The band is an input of the model,
  and the caller is expected to pass `Undefined` for such a history; with that input
  `AtPanicFloor` is false and `Analysis.ShortHistoryNoPanicBottom` shows no panic-bottom
  action results.
- The currency test checks `.T` before `.TW`. The model keeps this order in
  `ResolveCurrencyAsWritten` and uses the corrected order elsewhere (see Findings).

## Model

| member | source | states |
|---|---|---|
| `Text.ContainsIffOccurs` | super_trader.py:90-91 | the substring test `p in s` holds exactly when `p` occurs at some position of `s` |
| `Text.ContainsPrefixOf` | super_trader.py:90-91 | a string containing `p + q` contains `p` (why `.TW` implies `.T`) |
| `Text.ContainsInContext` | super_trader.py:99 | a string contains whatever any part of it contains |
| `Text.FirstCharOccurs` | super_trader.py:90-91 | an occurrence of `p` starts with `p`'s first character early enough for `p` to fit |
| `Text.Split` | super_trader.py:23 | `split(',')` yields at least one piece and no piece holds a comma |
| `Text.SplitCount` | super_trader.py:23 | `split` yields one more piece than there are separators |
| `Text.JoinSplit` | super_trader.py:23 | joining the pieces of a split with the separator gives the text back |
| `Text.SplitJoin` | super_trader.py:23 | splitting a join of separator-free pieces gives the pieces back |
| `Text.LeadingSpaces` | super_trader.py:23 | the leading run of whitespace: all whitespace, followed by a non-space or the end |
| `Text.TrailingStart` | super_trader.py:23 | the trailing run of whitespace: all whitespace, preceded by a non-space or the start |
| `Text.Strip` | super_trader.py:23 | `strip()` is the slice of the text between leading and trailing whitespace and has no whitespace at either end |
| `Text.StripTrimmed` | super_trader.py:23 | stripping text without edge whitespace changes nothing (strip is idempotent) |
| `Text.Upper` | super_trader.py:23 | `upper()` keeps the length, leaves no lower-case ASCII letter, capitalises each lower-case letter and keeps every other character |
| `Text.UpperKeeps` | super_trader.py:23 | upper-casing neither adds nor removes a comma or any other non-letter |
| `Watchlist.ParseTickerList` | super_trader.py:23 | a ticker list has one entry per comma-separated piece, each without comma, edge whitespace or lower-case letter |
| `Watchlist.ParsePieces` | super_trader.py:23 | entry `k` of the list read from comma-joined, comma-free pieces is piece `k` stripped and upper-cased |
| `Watchlist.NormalizedIsCanonical` | super_trader.py:29 | stripping and upper-casing a comma-free piece gives a canonical entry |
| `Watchlist.CanonicalIsFixed` | super_trader.py:35 | a canonical entry is unchanged by stripping and upper-casing |
| `Watchlist.ParseJoin` | super_trader.py:23 | canonical tickers written comma-separated parse back to the same list (so parsing is idempotent) |
| `Watchlist.StripAfterBlank` | super_trader.py:21-23 | a canonical ticker after one blank strips to itself |
| `Watchlist.ParseSpaced` | super_trader.py:21-23 | canonical tickers written with ", " between them, as in the default lists, parse back to the tickers |
| `Watchlist.DefaultFamilyList` | super_trader.py:21-23 | the default family text "ZETA, NBIS" parses to `["ZETA", "NBIS"]` |
| `Series.SumBounds` | super_trader.py:131 | a sum of `n` values each in `[lo, hi]` lies in `[n*lo, n*hi]` |
| `Series.MeanBounds` | super_trader.py:131 | a mean lies between any lower and upper bound of the averaged values |
| `Series.SumPositive` | super_trader.py:135-137 | a non-empty sum of positive prices is positive |
| `Series.MeanPositive` | super_trader.py:135-137 | the mean of positive prices is positive |
| `Series.SmaColumn` | super_trader.py:131-132 | the `w`-bar moving-average column is as long as the history and holds a number exactly from bar `w-1` on |
| `Series.SmaWithinWindow` | super_trader.py:131-136 | each moving average lies within the range of the closes in its window |
| `Series.SmaOfFlatSeries` | super_trader.py:131-136 | on a flat series every full-window moving average equals the close |
| `Series.Line` | super_trader.py:131-132 | the 20/50-bar line is the moving average with more than `w` bars and the closes otherwise; its last two cells, read by the signal, are always numbers |
| `Series.GoldenPrice` | super_trader.py:134-137 | the golden price is 0 with 200 bars or fewer and the mean of the last 200 closes otherwise |
| `Series.GoldenPriceAvailable` | super_trader.py:134-137 | for positive prices the golden price is positive exactly when there are more than 200 bars |
| `Series.LongLine` | super_trader.py:134-139 | the stored 200-bar column is the 200-bar moving average with more than 200 bars, whose last cell is the golden price; otherwise the 50-bar line; its last two cells are always numbers |
| `Series.RsiOrNeutral` | super_trader.py:141 | the RSI the rules read is the computed 14-bar RSI with more than 14 bars, and the neutral 50 with 14 or fewer |
| `Instrument.TaiwanContainsT` | super_trader.py:90-91 | every ticker that passes the Taiwan test contains `.T` |
| `Instrument.Symbol` | super_trader.py:89-91 | each currency has its own symbol: "$" exactly for dollars, "¥" exactly for yen, "NT$" exactly for Taiwan dollars |
| `Instrument.ResolveCurrencyAsWritten` | super_trader.py:89-91 | as written: yen exactly when `.T` or `.F` occurs; NT$ exactly for Taiwan tickers without `.T`/`.F`; dollars when neither test passes |
| `Instrument.AsWrittenNeverTaiwanDollar` | super_trader.py:89-91 | as written, no ticker gets "NT$", and Taiwan tickers get "¥" |
| `Instrument.AsWrittenNeverNtSymbol` | super_trader.py:89-91 | as written, the symbol "NT$" is never chosen for any ticker |
| `Instrument.Taiwan50PricedInYen` | super_trader.py:91 | as written, "0050.TW" passes the Taiwan test yet is shown in yen |
| `Instrument.ResolveCurrency` | super_trader.py:89-91 | corrected order: NT$ exactly for Taiwan tickers; ¥ exactly for other `.T`/`.F` tickers; $ otherwise |
| `Instrument.TokyoFundInYen` | super_trader.py:90 | "2563.T" resolves to yen |
| `Instrument.UsStockInDollars` | super_trader.py:89 | "AAPL" resolves to dollars |
| `Instrument.Taiwan50InTaiwanDollars` | super_trader.py:91 | with the corrected order, "0050.TW" resolves to Taiwan dollars |
| `Instrument.CurrencyDiffersOnlyOnTaiwan` | super_trader.py:89-91 | the corrected currency equals the written one exactly for tickers that fail the Taiwan test |
| `Instrument.AnyInIff` | super_trader.py:99 | `any(x in ticker for x in tokens)` holds exactly when some token of the list is in the ticker |
| `Instrument.Recent` | super_trader.py:94 | `tail(10)`: the last min(10, n) bars, in order |
| `Instrument.IsFundLike` | super_trader.py:94-104 | a whitelisted ticker is never fund-like; any other is fund-like exactly when each of its last min(10, n) bars has high == low |
| `Instrument.KnownEtfInContext` | super_trader.py:98-99 | adding text around a whitelisted ticker keeps it whitelisted |
| `Instrument.FixedName` | super_trader.py:107-111 | exactly the four funds "0P0000XS79.F", "2563.T", "2558.T", "0050.TW" have a hand-written name, which is non-empty and differs from the ticker |
| `Instrument.DisplayName` | super_trader.py:107-117 | a hand-written fund name wins; else a non-empty provider name; else the ticker |
| `Signal.BuyRule` | super_trader.py:159-171 | block 1 proposes nothing exactly when the panic, golden and uptrend tests all fail; a proposal is green or blue with confidence 80, 90 or 95, and is the panic bottom exactly when the close is at the panic floor |
| `Signal.SellRule` | super_trader.py:174-181 | block 2 proposes nothing exactly when RSI <= 75; a proposal has confidence 85 or 95 and is danger exactly when RSI > 85 |
| `Signal.BreaksTrend` | super_trader.py:183-185 | a trend break means the close fell by more than the trend line of its asset type did, and is not on that line |
| `Signal.SignalOf` | super_trader.py:153-187 | the recommendation's confidence is one of 50, 80, 85, 90, 95; it is a trend break (orange, on the asset type's line) exactly when the trend breaks; otherwise a firing sell rule decides it |
| `Signal.DeriveSignal` | super_trader.py:153-187 | the step-by-step overwrite yields `SignalOf`; the confidence is one of 50, 80, 85, 90, 95; RSI above 85 gives 95 and (without a trend break) danger in red; a trend break is reported exactly when the close crosses under the trend line |
| `Signal.BuyRulePrecedence` | super_trader.py:159-171 | panic floor beats golden price, golden price beats uptrend; the uptrend fires only when both fail and 50 < RSI < 75 |
| `Signal.SignalCharacterization` | super_trader.py:153-187 | each final action, in both directions, in terms of the inputs |
| `Signal.ConfidenceValues` | super_trader.py:154-187 | confidence is in {50, 80, 85, 90, 95}, is untouched by block 3, and is 95 exactly when RSI > 85 or the panic rule fired with no sell rule |
| `Signal.DangerOverrides` | super_trader.py:174-187 | with RSI > 85: (danger, red, 95), or (trend break, orange, 95) when the trend breaks |
| `Signal.NeutralRsiQuiet` | super_trader.py:168-181 | an RSI of 50 rules out the uptrend and both sell rules |
| `Signal.FlatTrendNoBreak` | super_trader.py:183-187 | when the trend line equals the close no trend break is reported |
| `Analysis.ShowGolden` | super_trader.py:193 | the golden price is shown as "N/A" exactly when it is not positive, else as itself |
| `Analysis.ChangePct` | super_trader.py:191 | the change in percent is `Undefined` against a zero close, where the source gets an infinity or NaN; otherwise applying it to the previous close gives the current close, and with a positive previous close it is positive exactly when the price rose |
| `Analysis.Analyze` | super_trader.py:77-199 | "FIG" fails as unlisted before anything is used; a failed download fails; fewer than 5 bars fails for no data; a report exists exactly otherwise (its currency follows the corrected order, see Left out) |
| `Analysis.AnalyzeAsset` | super_trader.py:77-196 | the procedure equals `Analyze`; a report's confidence is one of the five values and its price is the last close |
| `Analysis.ShortHistoryNeutralRsi` | super_trader.py:141 | with 14 bars or fewer the RSI is 50, so no uptrend, overheated or danger action |
| `Analysis.ShortHistoryNoTrendBreak` | super_trader.py:131-185 | a stock with 20 bars or fewer, or an ETF with 50 or fewer, never reports a trend break |
| `Analysis.ReportCurrency` | super_trader.py:89-91 | the report's currency is the Taiwan-first currency, which equals the order as written exactly for tickers that fail the Taiwan test |
| `Analysis.ShortHistoryNoPanicBottom` | super_trader.py:143-145 | with fewer than 20 bars and no band value, the panic price is shown as no number and the panic-bottom action never results |
| `Analysis.GoldenShownWhenAvailable` | super_trader.py:134-193 | Golden is "N/A" exactly when the golden price is not positive; always with 200 bars or fewer; never with more than 200 positive closes |

## Left out

- Dashboard rendering (page setup, sidebar text, manual, expanders, metrics, the progress bar
  and `draw_chart`): presentation with no logic. Also the three lists' loops, which skip empty
  entries and sort the watchlist results by RSI.
- Analysis.Analyze: the report's currency uses the corrected Taiwan-first order
  (`Instrument.ResolveCurrency`), not the order as written, so a `.TW`/`.TWO` ticker is
  reported in NT$ where the dashboard shows "¥" (see Findings and `Analysis.ReportCurrency`).
- Analysis.AnalyzeAsset: the same currency correction as `Analysis.Analyze`.
- The download (`yf.Ticker`, `history`): the bars come in as `Feed.bars`, and a download that
  raises is `Feed` = `None`.
- Fundamentals (forward P/E, revenue growth, institutional holdings, news): provider I/O plus
  string formatting. Only the provider's long name, used for the display name, is an input.
  The rule that fetches fundamentals only for stocks is not modelled.
- The 14-bar RSI and the Bollinger band: the third-party `ta` library computes both. Their
  latest values are inputs (`Feed.rsi`, `Feed.band`). Which history lengths give a NaN band
  is decided by that library; the caller passes `Undefined` for it.
- Rounding to 2 or 1 decimals: the report holds exact values. Floating-point rounding, and
  NaN in the downloaded prices, are not modelled.
- The blanket exception handler: only a failed download is modelled as an error. Other
  exceptions a library might raise are not.
- Action labels and trend-line names: they are Chinese display strings in the source and
  enumerations here (`Action`, `TrendLine`). The asset type is a string that the callers
  set to "stock" or "etf"; here it is the two-valued `AssetType`.
- `Text.Upper`: models `upper()` on ASCII letters only. Other letters are kept unchanged,
  whereas Python also capitalises accented and other non-ASCII letters, sometimes into two
  characters.
- Bar dates: the order of the sequence stands for the date index.

## Findings

| source | as written | input that shows it | evidently intended | confidence | as-written member | corrected member |
|---|---|---|---|---|---|---|
| super_trader.py:89-91 | the `.T`/`.F` test comes before the `.TW`/`.TWO` test, and every Taiwan ticker contains `.T`, so Taiwan tickers are shown in "¥" and "NT$" is never used | "0050.TW" (on the default ETF roster; line 68 describes it as a Taiwan-dollar fund) | Taiwan tickers shown in "NT$" | high; not executed | `Instrument.ResolveCurrencyAsWritten`, shown by `Instrument.Taiwan50PricedInYen` | `Instrument.ResolveCurrency` |
