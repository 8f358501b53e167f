# Nifty-50 intraday scanner: a verified model of its decision pipeline

The scanner (`app.py`) downloads 60 days of daily bars for the 51 symbols of
its Nifty-50 universe. For each symbol it reads a handful of indicators off
the last bar (close, previous close, volume and its 20-day average, ATR,
VWAP, RSI, EMA 9 and EMA 21). It scores each symbol, labels it with a
signal, a strategy and a trend, and attaches an entry, a stop-loss, two
targets and a risk/reward ratio. It ranks the records by score and keeps the
ranked list in a five-minute cache, which a refresh endpoint can clear.

The model follows that pipeline module by module:

| file | module | what it models |
|---|---|---|
| `rounding.dfy` | `Rounding` | Python's `round(x, 2)` and `round(x, 1)`: nearest value, ties to even, on exact reals |
| `scoring.dfy` | `Scoring` | the four sub-scores, their sum, the signal bands, the strategy decision tree, the trend label |
| `entry_exit.dfy` | `EntryExit` | `calculate_entry_exit`: the buy, sell and fallback branches |
| `tickers.dfy` | `Tickers` | the `TICKERS` universe, `str.replace`, and the display-name rewrite |
| `analyzer.dfy` | `Analyzer` | `analyze_stock`: from indicator readings to the reported record |
| `ranking.dfy` | `Ranking` | the stable descending sort by score, as a function and as an in-place array sort |
| `scanner.dfy` | `Scanner` | the scan loop, the ranked result, the cache (`ScannerCache`) and `api_refresh` |
| `wrappers.dfy` | `Wrappers` | `Option` |

A few consequences of the code are worth stating up front:

- Only the momentum term (-2) and the RSI term (-1) can be negative, so the
  score never goes below -3. STRONG SELL (score at most -5) can never be
  produced, and SELL is produced only at exactly -3 (`Scoring.SellSignalsAtFloor`).
- The volatility test at app.py:113 is strict, so an ATR of exactly 2% of the
  close scores +1, not +2. A breakout with that ATR, a rising EMA stack, a
  volume ratio of 1.6 and an RSI of 50 scores 7 and is a STRONG BUY
  (`Analyzer.StrongBuyBreakoutExample`).
- A buy entry is 0.2% under the close, rounded to cents. Above a close of 2.5
  it is always strictly under the close, and a sell entry strictly over it
  (`EntryExit.EntrySideOfClose`). At a close of exactly 2.5 the discount
  rounds away and the buy entry equals the close
  (`EntryExit.EntryAtCloseForSmallPrice`).
- The cache freshness test compares `timedelta.seconds`, which wraps at one
  day (see Findings).

## Model

| member | source | states |
|---|---|---|
| Rounding.RoundHalfEven | app.py:68 | the result is within 0.5 of the input, and an exact tie goes to the even neighbour |
| Rounding.RoundHalfEvenMonotone | app.py:68 | rounding to an integer never inverts the order of two values |
| Rounding.Round2 | app.py:145-151 | `round(x, 2)` is within half a cent of `x` and is a whole number of cents |
| Rounding.Round2OfCents | app.py:68-83 | a whole number of cents is its own rounding to cents |
| Rounding.Round1 | app.py:149 | `round(rsi, 1)` is within 0.05 of the RSI |
| Rounding.Round2Monotone | app.py:68-83 | rounding to cents preserves order |
| Rounding.Round2Idempotent | app.py:68-83 | rounding a value to cents twice gives the same as rounding it once |
| Scoring.MomentumScore | app.py:111 | the momentum term is -2, 0 or 2 |
| Scoring.VolumeScore | app.py:112 | the volume term is 0, 1 or 2 |
| Scoring.VolatilityScore | app.py:113 | the volatility term is 0, 1 or 2 |
| Scoring.RsiScore | app.py:114 | the RSI term is -1, 1 or 2 |
| Scoring.FinalScore | app.py:111-115 | the final score lies in [-3, 8] |
| Scoring.SignalOf | app.py:118-127 | each signal is produced exactly on its band: STRONG BUY iff >= 5, BUY iff 3..4, NEUTRAL iff -2..2, SELL iff -4..-3, STRONG SELL iff <= -5 |
| Scoring.StrategyOf | app.py:130-139 | VWAP Breakout iff close above VWAP, RSI below 70 and volume ratio above 1.2; VWAP Support only below the VWAP with RSI above 30 and volume ratio above 1.2; Gap Trade only with a move of more than 2%; Momentum Scalp only with ATR% above 2 and 40 < RSI < 60 |
| Scoring.TrendOf | app.py:152 | Bullish only with the close above EMA 21, Bearish only with it below; a close equal to EMA 9, or EMA 9 equal to EMA 21, is Neutral |
| Scoring.TrendMatchesMomentum | app.py:152 | the trend is Bullish iff the momentum term is 2, Bearish iff it is -2, and Neutral iff it is 0 |
| Scoring.RsiBoundariesScoreLow | app.py:114 | an RSI of exactly 30, 40, 60 or 70, or an undefined RSI, scores -1 |
| Scoring.VolumeScoreMonotone | app.py:112 | a higher volume ratio never lowers the volume term |
| Scoring.VolatilityScoreMonotone | app.py:113 | a higher ATR percentage never lowers the volatility term |
| Scoring.SellSignalsAtFloor | app.py:115-127 | no input produces STRONG SELL; SELL is produced iff the score is -3 |
| Scoring.FloorScoreIff | app.py:111-115 | the score is -3 iff close < EMA9 < EMA21, volume ratio <= 1.2, ATR% <= 1.5 and the RSI term is -1 |
| Scoring.CeilingScoreIff | app.py:111-115 | the score is 8 iff close > EMA9 > EMA21, volume ratio > 1.5, ATR% > 2 and 40 < RSI < 60 |
| Scoring.BreakoutTakesPrecedence | app.py:130-131 | close above VWAP, RSI below 70 and volume ratio above 1.2 always give VWAP Breakout, whatever the other inputs |
| Scoring.MomentumScalpConditions | app.py:130-137 | Momentum Scalp iff both VWAP rules fail, the price change is within ±2%, ATR% > 2 and 40 < RSI < 60 |
| Scoring.RangeTradeIff | app.py:130-139 | Range Trade iff all four earlier rules fail |
| EntryExit.RiskReward | app.py:72 | the ratio is a whole number of cents; with a positive stop distance it is within half a cent of reward / risk, otherwise it is 1.5; it is never negative when the reward is not |
| EntryExit.BuyPlan | app.py:67-72 | every level and the ratio of a buy plan are whole numbers of cents |
| EntryExit.SellPlan | app.py:73-78 | every level and the ratio of a sell plan are whole numbers of cents |
| EntryExit.NeutralPlan | app.py:79-84 | every level is a whole number of cents and the ratio is 1.5 |
| EntryExit.CalculateEntryExit | app.py:65-86 | whatever the signal, every level and the ratio are whole numbers of cents |
| EntryExit.BuyPlanLevels | app.py:67-72 | for STRONG BUY and BUY with ATR >= 0: the entry is within half a cent of 0.998 x close; stop <= entry <= target1 <= target2, each within half a cent of entry - 0.5 ATR, entry + 0.75 ATR and entry + 1.5 ATR; the ratio is not negative |
| EntryExit.SellPlanLevels | app.py:73-78 | the mirror image for STRONG SELL and SELL around 1.002 x close: target2 <= target1 <= entry <= stop |
| EntryExit.NeutralPlanLevels | app.py:79-84 | for any other signal the entry is the VWAP rounded to cents; the stop and targets are within half a cent of entry - 0.3 ATR, entry + 0.5 ATR and entry + ATR; with ATR >= 0 they are ordered; the ratio is 1.5 |
| EntryExit.ZeroAtrCollapses | app.py:65-86 | with ATR = 0 every level equals the entry and the stop distance is 0, so the ratio falls back to 1.5 for every signal |
| EntryExit.EntrySideOfClose | app.py:67-74 | above a close of 2.5 a buy entry is strictly below the close and a sell entry strictly above it |
| EntryExit.EntryAtCloseForSmallPrice | app.py:68 | at a close of 2.5 the buy entry equals the close |
| EntryExit.RsiIsIgnored | app.py:65-86 | the `rsi` argument has no influence on the plan |
| EntryExit.StrongBuyExample | app.py:67-72 | close 100 and ATR 2 under STRONG BUY give entry 99.80, stop 98.80, targets 101.30 and 102.80, ratio 1.5 |
| Tickers.ReplaceAll | app.py:144 | `str.replace` leaves a string shorter than the pattern alone, keeps the length when the replacement is as long as the pattern, and never lengthens it when the replacement is shorter |
| Tickers.DisplayUnchanged | app.py:144 | a name containing none of ".NS", "ETERNAL" and "TMCV" is shown unchanged |
| Tickers.ReplaceAbsent | app.py:144 | `str.replace` leaves a string without the pattern unchanged |
| Tickers.StripSuffix | app.py:144 | replacing ".NS" by "" in `base + ".NS"` gives `base` when `base` has no dot |
| Tickers.PlainSymbolName | app.py:144 | a symbol without a dot, "ETERNAL" or "TMCV" is shown as itself without ".NS" |
| Tickers.EternalShownAsZomato | app.py:144 | "ETERNAL.NS" is shown as "ZOMATO" |
| Tickers.TmcvShownAsTataMotorsCv | app.py:144 | "TMCV.NS" is shown as "TATAMOTORS-CV" |
| Tickers.PlainSymbolShown | app.py:144 | a dot-free base that misses a letter of "ETERNAL" and a letter of "TMCV" is shown as the symbol minus ".NS" |
| Tickers.PlainSymbolsRow1 | app.py:18 | each of these five symbols is shown as itself minus ".NS" |
| Tickers.PlainSymbolsRow2 | app.py:19 | each of these five symbols is shown as itself minus ".NS" |
| Tickers.PlainSymbolsRow3 | app.py:20 | each of these five symbols is shown as itself minus ".NS" |
| Tickers.PlainSymbolsRow4 | app.py:21 | each of these five symbols is shown as itself minus ".NS" |
| Tickers.PlainSymbolsRow5 | app.py:22 | each of these five symbols is shown as itself minus ".NS" |
| Tickers.PlainSymbolsRow6 | app.py:23 | each of these five symbols is shown as itself minus ".NS" |
| Tickers.PlainSymbolsRow7 | app.py:24 | each of these five symbols, "M&M.NS" included, is shown as itself minus ".NS" |
| Tickers.PlainSymbolsRow8 | app.py:25 | each of these five symbols is shown as itself minus ".NS" |
| Tickers.PlainSymbolsRow9 | app.py:26 | each of these five symbols is shown as itself minus ".NS" |
| Tickers.PlainSymbolsRow10 | app.py:27 | each of the four symbols on this line other than "TMCV.NS" and "ETERNAL.NS" is shown as itself minus ".NS" |
| Tickers.UniverseDisplayNames | app.py:17-28 | the universe has 51 symbols; every one except "ETERNAL.NS" and "TMCV.NS" is shown as itself minus ".NS" |
| Analyzer.AtrPct | app.py:101 | for a positive close, the percentage times the close is 100 x ATR; otherwise 0; never negative for a non-negative ATR |
| Analyzer.VolumeRatio | app.py:107 | for a positive average, the ratio times the average is the volume; otherwise 0; never negative for a non-negative volume |
| Analyzer.PercentFrom | app.py:103-108 | the value is the base grown by the result in percent; used for the VWAP distance (app.py:103) and the price change (app.py:108) |
| Analyzer.RoundRsi | app.py:149 | an undefined RSI stays undefined, a defined one moves by at most 0.05 |
| Analyzer.Analyze | app.py:89-163 | no record iff fewer than 20 bars; otherwise the record carries the display name, a score in [-3, 8], the signal of that score, the trend matching the momentum term, the strategy of the unrounded readings, the entry/exit plan for that signal, the RSI rounded to a tenth, and the price, change, volume ratio, ATR%, VWAP and VWAP distance each within half a cent of the unrounded value |
| Analyzer.ShortSeriesSkipped | app.py:92-93 | a series of fewer than 20 bars never yields a record |
| Analyzer.StrongBuyBreakoutExample | app.py:89-163 | close 100, EMAs 99.5 and 99, volume 1.6x average, ATR 2, VWAP 99 and RSI 50 score 7: STRONG BUY, VWAP Breakout, Bullish, entry 99.80, stop 98.80, targets 101.30 and 102.80 |
| Ranking.WithScoreMembers | app.py:207 | the records selected for score k are exactly the records of that score |
| Ranking.Insert | app.py:207 | inserting adds exactly the one record |
| Ranking.InsertKeepsOrder | app.py:207 | inserting into a descending sequence keeps it descending |
| Ranking.RankByScore | app.py:207 | the ranking is non-increasing in score and a permutation of its input |
| Ranking.WithScoreAppend | app.py:207 | selecting by score distributes over concatenation |
| Ranking.WithScoreInsert | app.py:207 | an inserted record goes in front of the records of its own score |
| Ranking.RankingIsStable | app.py:207 | for every score, the ranked records of that score appear in their input order |
| Ranking.RankByScoreIsStableRanking | app.py:207 | the ranking is a stable descending sort of its input |
| Ranking.SameClassesSameSequence | app.py:207 | two descending sequences with the same records of every score, in the same order, are equal |
| Ranking.StableRankingUnique | app.py:207 | any stable descending sort of the input is the ranking |
| Ranking.ShiftOutscoring | app.py:207 | the inner loop of the in-place sort shifts left exactly the records after `a[i]` that outscore it and stops at the first that does not |
| Ranking.InsertIntoRanked | app.py:207 | one step of the in-place sort leaves the prefix alone and replaces the suffix by the insertion of `a[i]` into the ranked rest |
| Ranking.SortByScore | app.py:207 | sorting the array in place leaves exactly the ranking of its old contents |
| Ranking.RankingExample | app.py:207 | scores 5, -1, 3 in scan order are reported as 5, 3, -1 |
| Scanner.AnalyzeSkipsOnlyShortSeries | app.py:92-93 | the analysis returns nothing exactly for series of fewer than 20 bars |
| Scanner.Contribution | app.py:193-196 | a symbol adds at most one record, and only when it has at least 20 bars and its analysis succeeds |
| Scanner.Successes | app.py:188-202 | the loop collects at most one record per symbol |
| Scanner.Errors | app.py:188-202 | the loop counts at most one error per symbol |
| Scanner.ScanSymbols | app.py:188-202 | the loop over the symbols collects exactly the records and the error count that the specification functions give |
| Scanner.RecordsAndErrorsBounded | app.py:188-202 | records plus errors never exceed the number of symbols, even when an analysis fails and counts as neither |
| Scanner.EverySymbolAccountedFor | app.py:188-202 | with `analyze_stock`'s behaviour, records plus errors equal the number of symbols |
| Scanner.SuccessesAppend | app.py:190 | records are collected in symbol order: scanning `a + b` collects the records of `a`, then those of `b` |
| Scanner.RecordsComeFromAcceptedSymbols | app.py:192-196 | every collected record is the analysis of a symbol that is present and has at least 20 bars |
| Scanner.AcceptedSymbolsAreReported | app.py:192-196 | every present symbol with at least 20 bars and a successful analysis contributes its record |
| Scanner.ShortSeriesCountedAsErrors | app.py:192-198 | when no symbol has 20 bars the result is empty and every symbol counts as an error |
| Scanner.Scan | app.py:188-207 | the reported list is in non-increasing score order, is a permutation of the collected records, and has at most one record per symbol of the universe |
| Scanner.ScanIsRankedSuccesses | app.py:188-207 | the reported list is a stable descending sort and a permutation of the collected records, and with the errors it accounts for every symbol of the universe |
| Scanner.FreshAsWritten | app.py:173 | the check as written accepts every list less than five minutes old and rejects one between five minutes and a day old |
| Scanner.FreshAgreesWithinADay | app.py:173 | within a day of the timestamp the check as written and the intended check agree |
| Scanner.DayOldCachePassesCheck | app.py:173 | a list stored a day and ten seconds earlier passes the check as written but is not fresh |
| Scanner.StaleCachePassesEveryDay | app.py:173 | on every later day there is a five-minute window in which a stale list passes the check as written |
| Scanner.ScannerCache.constructor | app.py:31 | the cache starts with no list and no timestamp |
| Scanner.ScannerCache.GetScannerData | app.py:167-216 | a stored, fresh list is returned and nothing changes; otherwise a failed download returns [] and leaves both fields alone, and a successful one returns the ranked scan (possibly empty) and stores it with the time the analysis finished |
| Scanner.ScannerCache.Refresh | app.py:253-260 | after a refresh the cache holds the new scan and its time, or nothing when the download failed; the count is the number of records and never exceeds the size of the universe |
| Scanner.RepeatedRequestServedFromCache | app.py:172-174 | two requests within five minutes of a successful scan return the same ranked list, whatever the second download would have returned |

## Left out

- The indicators themselves: ATR, RSI, EMA 9/21, the VWAP sum and the 20-day average volume are computed by pandas (app.py:35-61, 98-106). The model takes them as inputs.
- The binary representation of floats. Prices and ratios are exact reals, and `round` is round-half-even on exact reals.
- Non-finite values. An RSI of 0/0 is `Undefined` and fails every comparison, as NaN does. All other readings are finite.
- Analyzer.Analyze: the divisions by the VWAP and by the previous close are unguarded in the source. The model requires both to be non-zero (the `Readings` subset type), so the `except` branch of `analyze_stock` (app.py:162-163) cannot be reached through `Analyze`. The scan lemmas are stated for any per-symbol analysis, which covers an analysis that fails on a long enough series.
- Scanner.Frame: the downloaded frame is reduced to its number of complete bars and the readings of its last bar. The column selection and `dropna` are not modelled. A symbol missing from the download counts as an error, as the `KeyError` path does.
- `yf.download` and its threaded fetch (app.py:182-183) are a `Download` input that either failed or gives a frame per symbol. The 60-day window is not modelled.
- Scanner.ScannerCache.GetScannerData: times are whole seconds, passed in as `now` (the request) and `finishedAt` (the end of the analysis). Sub-second precision is not modelled. The method uses the corrected freshness check (see Findings).
- Two requests racing on the unlocked module-level cache are not modelled; each method runs alone.
- Flask routing, `render_template`, `jsonify` and the server start (app.py:219-265) are presentation only.
- The statistics of `api_scanner` (counts of STRONG BUY and BUY, the average risk/reward, the IST timestamp) are presentation and float arithmetic.
- `print` logging.
- Tickers.DisplayName has no contract of its own. Its behaviour is stated by the lemmas about it (`DisplayUnchanged`, `PlainSymbolName`, `EternalShownAsZomato`, `TmcvShownAsTataMotorsCv`, `UniverseDisplayNames`).

## Findings

| source | as written | input that shows it | evidently intended | confidence | as-written member | corrected member |
|---|---|---|---|---|---|---|
| app.py:173 | the freshness test compares the `.seconds` field of the `timedelta`, which is the elapsed time modulo one day | a list stored at time 0 and requested at 86410 s (one day and ten seconds later) is served as fresh | serve the stored list only while the whole elapsed time is under 300 s (`total_seconds()`) | not executed | Scanner.DayOldCachePassesCheck | Scanner.ScannerCache.GetScannerData |
