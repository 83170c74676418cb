# A verified model of the trading and screening scripts for the Korean stock market

The repository is a set of polling scripts for KRX stocks. Screening scripts
(`analyze/`, `analyze_buying_stocks.py`, `buying_stocks.py`) rank stocks by
technical, investor-flow and fundamental signals. Trading programs
(`trading_system/`, `autotrader.py`, `trading_system/sharp_decline_trader.py`)
buy and sell through a broker's REST interface while keeping a per-symbol
position history, a list of pending orders and a daily performance log.
`backtest_fixed.py` replays a long/flat rule over daily closes.

This project models the logic under that plumbing, one Dafny module per
source file:

- **Positions.** `PositionBook` holds the position history map, its
  purchase and sale bookkeeping and the purchase and sale gates.
  `AutoTrader` holds autotrader.py's variants of the gates.
- **Orders.** `OrderPricing` covers the KRX tick table, position sizing,
  limit prices and the urgency of each order strategy. `OrderTracking` is
  the pending-order state machine and the position calls it makes.
- **Signals.** `MacdSignals` derives MACD cross flags and golden-cross
  reports. `HybridStrategy` combines a daily signal, minute-bar timing and
  a 4-hour analysis cache. The autotrader variants are in `AutoTrader`.
- **Selling and the clock.** `MainTrader` models the sell priority of
  trading_system/main.py. `SharpDecline` models the 09:00–09:30 buy window
  and 15:00 sale of the sharp-decline trader. `MarketSchedule` is the
  holiday calendar, the session and the termination rule.
- **Screening.** `AnalyzeIndicators`, `EnhancedIndicators`, `DataFetcher`,
  `AnalyzeUtils`, `BuyingAnalysis` and `BuyingStocks` model the screening
  predicates, the scores and the parsing helpers.
- **Reporting.** `DailyPerformance` is the daily summary and trade log.
  `Backtest` is the backtest loop and the portfolio weights.
- **Shared.** `Common` holds options, sums, truncation and the wall clock.

State that the source mutates in place is a Dafny `class` with `modifies`
clauses:

- the position manager;
- the order tracker;
- the daily performance tracker;
- the progress tracker;
- the hybrid analysis cache;
- the sharp-decline trader's purchase list;
- the sell side of the main trader.

Each method that loops is proved against a specification function. Lemmas
state what the source promises about those functions. The wall clock, the
broker's answers (quotes, fills, holdings, cash) and library numerics
(pandas `ewm` with `adjust=True`, rolling RSI, standard deviations) enter as
parameters. Floats are exact reals. Python's `int()` is truncation toward
zero (`Common.Trunc`), and `//` is floor division.

Where the code differs from what its names or comments say, the model follows the code:

- `record_purchase` keeps no weighted average cost. The average price comes from the broker.
- In trading_system/strategy/hybrid_strategy.py a SELL score overrides a BUY score. autotrader.py gives BUY precedence. Both are modelled as written.
- analyze/technical_indicators.py computes its MACD with EMA spans 8 and 18 (and signal span 9), whatever its variable names say.
- `evaluate_buy_timing` accepts a frame of five minute bars but then reads the bar six back. Such a frame ends in the error result (`HybridStrategy.BuyTiming`).
- The short-term trend score of the hybrid strategy is at most 4 (`HybridStrategy.TrendScoreAtMostFour`). Its `>= 6` tier can never be reached.
- The market closes after 15:30 in trading_system/main.py, autotrader.py and market_schedule_checker.py (15:30 is open). trading_system/sharp_decline_trader.py closes at 15:30 (15:30 is closed).

## Model

| member | source | states |
|---|---|---|
| AnalyzeIndicators.MovingAverage | analyze/technical_indicators.py:31-32 | `rolling(window=w).mean()` at a row is the mean of the w values ending there, and lies between their minimum and maximum |
| AnalyzeIndicators.MovingAverageStep | analyze/technical_indicators.py:25-42 | one row later, a w-day rolling mean changes by the new close minus the dropped close, divided by w |
| AnalyzeIndicators.GoldenCross | analyze/technical_indicators.py:22-47 | the decision of `is_golden_cross`: at least 21 closes, the 5-day average below the 20-day one on the previous row and above it on the last; GoldenCrossNeedsFasterRise states what that demands of the closes |
| AnalyzeIndicators.GoldenCrossNeedsFasterRise | analyze/technical_indicators.py:25-42 | on a golden cross the 5-day average gains more than the 20-day average on the last row |
| AnalyzeIndicators.VolumeBreakout | analyze/technical_indicators.py:230-250 | the decision of `is_volume_breakout`: more than `period` rows, a non-zero average of the last `period` volumes and today's volume above the multiplier times it; BreakoutNeedsSmallMultiplier bounds the multipliers that can fire |
| AnalyzeIndicators.BreakoutNeedsSmallMultiplier | analyze/technical_indicators.py:233-245 | today's volume is part of its own average, so a volume breakout over non-negative volumes needs a multiplier below the window length |
| AnalyzeIndicators.Ema | analyze/technical_indicators.py:113-153 | `ewm(adjust=False)`: same length as the prices, starts at the first price, and each later value is the alpha-weighted step from the previous one |
| AnalyzeIndicators.EmaWithinBounds | analyze/technical_indicators.py:113-153 | with a factor in [0, 1] every EMA value stays between any bounds of the prices |
| AnalyzeIndicators.EmaOfConstant | analyze/technical_indicators.py:113-153 | the EMA of a flat series is that series |
| AnalyzeIndicators.MacdLine | analyze/technical_indicators.py:113-153 | the MACD line has one value per close |
| AnalyzeIndicators.SignalLine | analyze/technical_indicators.py:113-153 | the signal line has one value per close |
| AnalyzeIndicators.MacdGoldenCross | analyze/technical_indicators.py:110-159 | the decision of `is_macd_golden_cross` with the spans as parameters: at least 35 rows, an upward cross of the signal by a rising line on the last row, a signal of at most the cap, and from 50 rows on a volume above 1.1 times the 10-day mean; MacdGoldenCrossIsUpwardCross and FlatPricesNeverCross are its partners |
| AnalyzeIndicators.AnalyzeMacdGoldenCross | analyze/technical_indicators.py:124-127 | the analyze package's MACD golden cross is the general rule with the spans 8 and 18, the signal span 9 and the cap 0.2 |
| AnalyzeIndicators.MacdGoldenCrossIsUpwardCross | analyze/technical_indicators.py:113-153 | a reported MACD golden cross is an upward cross of the line over its signal on the last row |
| AnalyzeIndicators.FlatPricesNeverCross | analyze/technical_indicators.py:113-153 | flat prices never give a MACD golden cross |
| AnalyzeIndicators.MinimaBelow | analyze/technical_indicators.py:292-314 | exactly the strict local minima before row k, in increasing row order; none in fewer than three rows |
| AnalyzeIndicators.NoMinimaInShortSeries | analyze/technical_indicators.py:292-314 | fewer than three lows hold no local minimum |
| AnalyzeIndicators.DoubleBottom | analyze/technical_indicators.py:283-319 | the decision of `is_double_bottom_pattern`: at least `2 * lookback` lows and, among the local minima of the last `2 * lookback`, the last two within the tolerance of each other with the close 2% above both; IsDoubleBottomPattern computes it and DoubleBottomWitness states what a detection rests on |
| AnalyzeIndicators.IsDoubleBottomPattern | analyze/technical_indicators.py:283-319 | the loop collecting local minima decides exactly the double-bottom predicate |
| AnalyzeIndicators.DoubleBottomWitness | analyze/technical_indicators.py:292-314 | a detected double bottom rests on two strict local minima of the window that are within the tolerance, with the close 2% above both |
| AnalyzeIndicators.Score | analyze/technical_indicators.py:411-436 | the score never exceeds the number of signals |
| AnalyzeIndicators.ActiveSignals | analyze/technical_indicators.py:411-436 | a name is listed iff some signal of that name is on |
| AnalyzeIndicators.ScoreCountsActive | analyze/technical_indicators.py:411-436 | the score is the number of listed active signals |
| AnalyzeIndicators.BuySignals | analyze/technical_indicators.py:411-436 | thirteen signals; the foreign signal is on only for `steady_buying`, the institution signal for `steady_buying` or `accumulating` |
| AnalyzeIndicators.BuySignalScore | analyze/technical_indicators.py:409-441 | an empty frame scores 0 with no names; otherwise the score is the count of the listed active signals |
| AnalyzeIndicators.PassesFundamentalFilters | analyze/technical_indicators.py:472-481 | passes iff at least one of PER, ROE and debt ratio is present and each present one meets its bound (PER < 80, ROE > 1, debt < 500); analyze_buying_stocks.py:599-608 is the same filter |
| AnalyzeUtils.Chunks | analyze/utils.py:249-250 | every chunk is non-empty and at most n long, all but the last exactly n; no chunks iff the message is empty |
| AnalyzeUtils.ChunksConcatenate | analyze/utils.py:249-250 | the chunks concatenate back to the whole message |
| AnalyzeUtils.ProgressTracker.constructor | analyze/utils.py:467-474 | all counters start at zero |
| AnalyzeUtils.ProgressTracker.Update | analyze/utils.py:476-485 | a success counts once as analysed and as exactly one of passed or failed; a failure counts once as an error |
| AnalyzeUtils.ProgressTracker.Summary | analyze/utils.py:507-515 | the summary reports the tracker's own counters and the given elapsed time; total is analysed plus errors and analysed is passed plus failed; the success rate is analysed over total and the pass rate passed over analysed, as percentages, 0 when nothing was counted and 100 with no errors |
| AnalyzeUtils.Rate | analyze/utils.py:513-514 | a percentage in [0, 100]: for a non-empty whole, the rate times the whole is 100 times the part; 0 for an empty whole, 100 when the part is the whole |
| AnalyzeUtils.Word | analyze/utils.py:437 | the leading run of non-space characters, ended by a space or the end |
| AnalyzeUtils.Words | analyze/utils.py:437 | `split()` yields only non-empty words |
| AnalyzeUtils.Zfill | analyze/utils.py:439 | `zfill` gives the longer of the string and the width |
| AnalyzeUtils.ZfillOfDigits | analyze/utils.py:439 | a code of one to six digits pads to a valid six-digit code ending in the original digits |
| AnalyzeUtils.LineEntry | analyze/utils.py:434-442 | a line that contributes gives a code of at least six characters |
| AnalyzeUtils.RawCodesHaveNames | analyze/utils.py:434-442 | every code read has a name |
| AnalyzeUtils.Deduped | analyze/utils.py:447-455 | only valid codes of the input, none twice, and every valid input code present |
| AnalyzeUtils.DedupedExtends | analyze/utils.py:447-455 | more lines only add codes at the end: the order of first occurrence is kept |
| AnalyzeUtils.LoadStockCodes | analyze/utils.py:430-458 | the codes are the valid codes in first-occurrence order; the name map has exactly those keys, each with the name the last line for it gave |
| AnalyzeUtils.ReadCodeLines | analyze/utils.py:434-442 | the first loop gathers every listed code in file order, and the names with later lines overwriting earlier ones |
| AnalyzeUtils.KeepFirstValid | analyze/utils.py:447-455 | the second loop keeps each valid code at its first occurrence and copies its name |
| AnalyzeUtils.LaterLineReplacesName | analyze/utils.py:434-442 | a later line for a code appends it again and replaces its name |
| AnalyzeUtils.RepeatedCodeIsKeptOnce | analyze/utils.py:447-455 | a repeated code adds nothing to the deduplicated list |
| AutoTrader.PurchaseGate | autotrader.py:1386-1413 | a cool-down refusal of this trader never names a last sale |
| AutoTrader.PurchaseGatesAgree | autotrader.py:1386-1413 | this gate and the trading_system gate give the same verdict on the quantity this trader holds, with the same remaining cool-down |
| AutoTrader.SaleGate | autotrader.py:1415-1435 | a symbol this trader does not hold cannot be sold |
| AutoTrader.SaleGatesAgree | autotrader.py:1415-1435 | this sale gate equals the trading_system gate on the held quantity |
| AutoTrader.LongTermTrendScore | autotrader.py:188-230 | the trend score lies in [0, 9]; 9 iff all five return thresholds and the moving-average alignment hold; with five prices or fewer only the alignment counts; trading_system/strategy/hybrid_strategy.py:370-411 computes the same score |
| AutoTrader.LongTermScoreDominatesShortTerm | autotrader.py:188-230 | the long-term score is at least the hybrid strategy's trend score and at most five above it |
| AutoTrader.BuyScore | autotrader.py:243-288 | the buy score of six weighted conditions lies in [0, 10] |
| AutoTrader.SellScore | autotrader.py:292-307 | the sell score of four weighted conditions lies in [0, 7.5] |
| AutoTrader.DailySignal | autotrader.py:310-316 | BUY iff the buy score reaches 5; SELL iff it does not and the sell score reaches 3, so BUY wins a tie; the strength is the capped score, 0 on HOLD |
| AutoTrader.MarketOpen | autotrader.py:1805-1823 | autotrader.py's market rule in hours and minutes; MarketOpenAsMinutes shows it is main.py's interval |
| AutoTrader.MarketOpenAsMinutes | autotrader.py:1810-1823 | the hour-and-minute rule is the same interval as main.py's minute rule, 15:30 included |
| AutoTrader.RiskAllowed | autotrader.py:1793-1803 | trading stops when the absolute daily P&L exceeds the limit or there are more than 100 trades; RiskIsSymmetric states its consequences |
| AutoTrader.RiskIsSymmetric | autotrader.py:1795-1803 | a gain counts against the loss limit exactly like a loss; allowed trading means the P&L is within the limit and at most 100 trades |
| Backtest.Step | backtest_fixed.py:410-442 | one row: a flat book buys only on signal 1 at the row's price and logs the buy; a long book sells on signal -1, a loss of 8% or a gain of 25%, compounding the capital by the return and logging the sell; a row that changes nothing leaves the book equal |
| Backtest.Run | backtest_fixed.py:404-442 | from row 1 on, the book is flat or long, and long only at a positive entry price |
| Backtest.RunKeepsLedger | backtest_fixed.py:404-442 | the log alternates buy and sell from a buy, the book is long iff the log has odd length, and the capital is the starting capital times the product of (1 + return) of the completed trades |
| Backtest.SellsAreHalfTheLog | backtest_fixed.py:445-447 | in an alternating log the completed trades are half the log, rounded down |
| Backtest.MetricsOf | backtest_fixed.py:445-475 | the trade count is the number of completed trades, the winning trades are those with a positive return and the rest are losing, the win rate is winning over total (in [0, 1]); the final capital and the total return against the starting capital |
| Backtest.Ratio | backtest_fixed.py:454 | a count ratio lies in [0, 1], times the whole gives back the part, and is 1 iff the part is the whole |
| Backtest.BacktestOutcome | backtest_fixed.py:392-479 | fewer than 20 rows fail with 데이터 부족, no signals with 신호 생성 실패; reported figures have total return equal to the compounded growth of the trades minus 1 |
| Backtest.SimpleBacktest | backtest_fixed.py:392-479 | the loop over rows 1 … n-1 followed by the figures computes exactly the outcome of the run |
| Backtest.OpenPositionIsNotCounted | backtest_fixed.py:445-447 | a run ending long holds one open buy that is not a completed trade |
| Backtest.HoldsInsideTheBand | backtest_fixed.py:421-429 | a long position with no sell signal and a return strictly between -8% and 25% is kept unchanged |
| Backtest.ScoreSum | backtest_fixed.py:757 | the sum of the return scores is at least the number of stocks, so it is positive for a non-empty portfolio |
| Backtest.Weight | backtest_fixed.py:761-763 | every weight lies in [8, 20] |
| Backtest.PortfolioWeights | backtest_fixed.py:746-763 | no portfolio iff there is no recommended stock; otherwise at most eight weights, one per selected stock, each in [8, 20] |
| Backtest.WeightIsMonotone | backtest_fixed.py:761-763 | a better backtest return never gets a smaller weight |
| Backtest.WeightKeepsModerateShares | backtest_fixed.py:761-763 | a share already between 8% and 20% is kept as it is |
| BuyingAnalysis.MacdGoldenCross | analyze_buying_stocks.py:291-348 | the script's MACD golden cross is the analyze package's rule with the standard spans 12 and 26, the signal span 9 and the cap 0.2 |
| BuyingAnalysis.NearGoldenCross | analyze_buying_stocks.py:351-414 | the decision of `is_macd_near_golden_cross`: at least 35 rows, the line below but close to its signal, rising or improving over two rows, and a signal of at most 0.3; NearCrossIsBelowSignal, NearAndGoldenExclusive and SmallGapIsClose are its partners |
| BuyingAnalysis.NearCrossIsBelowSignal | analyze_buying_stocks.py:377-410 | a near golden cross is only reported with the MACD line strictly below its signal and the signal at most 0.3 |
| BuyingAnalysis.NearAndGoldenExclusive | analyze_buying_stocks.py:295-344 | the near golden cross and the golden cross of the same day exclude each other |
| BuyingAnalysis.SmallGapIsClose | analyze_buying_stocks.py:381-383 | with the line below the signal, a rising line and the signal at most 0.3, a gap of at most 0.03 always counts as a near cross |
| BuyingAnalysis.KisNetbuyTrend | analyze_buying_stocks.py:38-61 | the parsed quantities of the first `days` rows and their trend, `([], "unknown")` when a field does not parse, neutral for an empty answer; the foreign-investor variant at analyze_buying_stocks.py:464-509 follows the same rule |
| BuyingAnalysis.InstitutionConsecutiveBuying | analyze_buying_stocks.py:448-461 | a steady-buying verdict over exactly `days` values; SteadyBuyingHasEveryDay shows it means at least three days, all of them bought |
| BuyingAnalysis.SteadyBuyingHasEveryDay | analyze_buying_stocks.py:448-461 | consecutive institutional buying holds iff at least three and exactly `days` quantities were read and all are positive |
| BuyingAnalysis.BuySignals | analyze_buying_stocks.py:1050-1069 | thirteen signals; the foreign signal is on iff the trend is steady buying, the institutional one iff there is an app key and consecutive buying |
| BuyingAnalysis.InvestorSignalsAlone | analyze_buying_stocks.py:1050-1069 | with every technical signal off, the score counts only the two investor signals |
| BuyingAnalysis.GradeOf | analyze_buying_stocks.py:1270-1279 | no bucket iff the score is below 1; ultra strong iff 5 or more; single iff exactly 1 |
| BuyingAnalysis.GradeIsMonotone | analyze_buying_stocks.py:1270-1279 | a higher score never lands in a lower bucket, and the bucket rank is the score capped at 5 |
| BuyingStocks.RawFundamentalScore | buying_stocks.py:220-281 | the sum of the growth, profitability and stability points lies in [0, 40], stopping where a stored None growth value raises |
| BuyingStocks.FundamentalScore | buying_stocks.py:220-281 | the capped score lies in [0, 40] and the cap never bites: it equals the raw sum |
| BuyingStocks.FullScoreNeedsTopTiers | buying_stocks.py:220-281 | the full 40 points need every tier at its top: sales growth > 20, profit growth > 30, EPS growth > 20, ROE > 15, PER in (5, 15), debt ratio < 30, PBR in (0.5, 2) |
| BuyingStocks.MissingSalesGrowthScoresNothing | buying_stocks.py:220-281 | a stored None for the sales growth scores nothing |
| BuyingStocks.ZeroPerEarnsNothing | buying_stocks.py:220-281 | a PER of 0 is falsy and earns no PER points, while a PER of 1 earns the two points of the low band |
| BuyingStocks.Weighted | buying_stocks.py:599-607 | only a bear or a bull market changes the components, and never the news score |
| BuyingStocks.ComprehensiveScore | buying_stocks.py:609 | the score is at most 100 and at most the weighted total; a weighted total of at most 100 is kept as it is, and a larger one becomes 100 |
| BuyingStocks.WeightingNeverLowers | buying_stocks.py:597-609 | with non-negative components, the market weighting never lowers the score and the score is not negative |
| BuyingStocks.Recommendation | buying_stocks.py:890-899 | 강력매수 iff the total reaches 85 and the risk score 70; 보류 iff the total is below 70; always one of the five grades |
| BuyingStocks.RecommendationIsMonotone | buying_stocks.py:890-899 | a better total or risk score never gives a weaker recommendation |
| BuyingStocks.FirstSector | buying_stocks.py:750-753 | no sector iff no keyword of any row is in the name; otherwise a row whose keyword is in the name |
| BuyingStocks.ClassifySector | buying_stocks.py:743-753 | the sector is one of 반도체, 바이오, IT and 자동차 |
| BuyingStocks.SemiconductorWinsTies | buying_stocks.py:743-753 | a name with a semiconductor keyword is a semiconductor stock, whatever else it contains |
| BuyingStocks.SamsungElectronicsIsSemiconductor | buying_stocks.py:743-753 | a name holding both 삼성전자 and 바이오 is classified as 반도체, the first row of the table |
| DailyPerformance.TotalValue | trading_system/monitoring/daily_performance.py:44-52 | the stock value summed holding by holding; ProfitIsValueMinusPurchase relates it to the profit and purchase totals |
| DailyPerformance.ProfitIsValueMinusPurchase | trading_system/monitoring/daily_performance.py:44-52 | the profit summed holding by holding is the total value minus the total purchase amount |
| DailyPerformance.Detail | trading_system/monitoring/daily_performance.py:45-63 | each detail keeps the symbol and the value, its profit is the value minus the purchase amount, and its percentage is 0 without a positive purchase amount |
| DailyPerformance.Totals | trading_system/monitoring/daily_performance.py:39-63 | the loop yields the total value, the total purchase, their difference as the profit, and one detail per holding in order |
| DailyPerformance.SummaryOf | trading_system/monitoring/daily_performance.py:66-86 | total assets are cash plus stock value, the profit is value minus purchase, the return is 0 without purchases, one detail per holding, and the two flags mean holdings exist and no program trade was made today |
| DailyPerformance.TodayTrades | trading_system/monitoring/daily_performance.py:132-135 | exactly the records whose timestamp starts with today's date |
| DailyPerformance.FirstDateIndex | trading_system/monitoring/daily_performance.py:181-185 | the index found carries the date, no earlier entry does, and None means no entry does |
| DailyPerformance.Upsert | trading_system/monitoring/daily_performance.py:177-191 | a save replaces the first entry of its date or appends, then keeps the last 90; UpsertKeepsNinety and UpsertStoresSummary state what it keeps |
| DailyPerformance.UpsertKeepsNinety | trading_system/monitoring/daily_performance.py:191 | after every save at most 90 entries remain |
| DailyPerformance.UpsertStoresSummary | trading_system/monitoring/daily_performance.py:177-191 | dates stay unique, the new summary is stored and is the only entry of its date, and with room left no other date is lost |
| DailyPerformance.TrendAnalysis | trading_system/monitoring/daily_performance.py:208-224 | nothing for fewer than two recent entries (the last `days`, or all when there are fewer); otherwise the average is the mean of the recent returns, the best and worst day are returns of recent entries that bound every other one, the winning days are the entries with a positive return, the total days the number of recent entries, and the asset growth is the last total assets minus the first |
| DailyPerformance.CountPositiveIsCardinality | trading_system/monitoring/daily_performance.py:222 | the running count of positive returns is the number of positions holding a positive return |
| DailyPerformance.TrendWindow | trading_system/monitoring/daily_performance.py:208 | a report never covers more days than the window |
| DailyPerformance.TodayTradeSummary | trading_system/monitoring/daily_performance.py:235-268 | all zero without trades; otherwise the trade count, the BUY and SELL counts and amounts, and the net amount as sells minus buys; the traded symbols count the distinct symbols and the traded stocks are the distinct stock names |
| DailyPerformance.CountsWithinTrades | trading_system/monitoring/daily_performance.py:247-251 | the BUY and SELL counts together, and the distinct symbols, never exceed the number of trades |
| DailyPerformance.DailyPerformanceTracker.constructor | trading_system/monitoring/daily_performance.py:19-23 | the tracker starts from the two stored files |
| DailyPerformance.DailyPerformanceTracker.RecordTrade | trading_system/monitoring/daily_performance.py:141-167 | one record is appended whose amount is the quantity times the price; the performance list is untouched |
| DailyPerformance.DailyPerformanceTracker.SaveDailyPerformance | trading_system/monitoring/daily_performance.py:169-197 | the search loop with `break` and the 90-entry cut produce exactly the upsert; the trade log is untouched |
| DailyPerformance.DailyPerformanceTracker.CalculateDailySummary | trading_system/monitoring/daily_performance.py:25-95 | no account answer gives no summary and saves nothing; otherwise the summary of today's trades is returned and saved |
| DataFetcher.ParseInt | analyze/data_fetcher.py:135-137 | an empty field never parses |
| DataFetcher.DigitsRoundTrip | analyze/data_fetcher.py:135-137 | reading the decimal digits of a natural number gives the number back |
| DataFetcher.ParseShowRoundTrip | analyze/data_fetcher.py:135-137 | `int(str(n)) == n` for every integer, negative ones included |
| DataFetcher.ParsedNetbuys | analyze/data_fetcher.py:133-137 | the list read from the fields is never longer than the fields |
| DataFetcher.WellFormedFieldsParse | analyze/data_fetcher.py:133-137 | fields that print integers are read back one for one, in order |
| DataFetcher.CleanKeepsNumber | analyze/data_fetcher.py:135 | removing commas and blanks leaves a printed integer alone |
| DataFetcher.ParseNetbuys | analyze/data_fetcher.py:133-137 | the loop over the first `days` rows computes the parsed list, None as soon as one field does not parse |
| DataFetcher.NoneStaysNone | analyze/data_fetcher.py:133-137 | once a field fails to parse, no later field rescues the call |
| DataFetcher.ForeignTrend | analyze/data_fetcher.py:140-151 | neutral iff fewer than three values; never unknown |
| DataFetcher.InstitutionTrend | analyze/data_fetcher.py:179-188 | never distributing and never unknown |
| DataFetcher.TrendRulesAgree | analyze/data_fetcher.py:140-188 | the institutional rule agrees with the foreign rule except that it has no distributing band and calls distribution mixed |
| DataFetcher.SteadyMeansEveryDayBought | analyze/data_fetcher.py:140-143 | steady buying means exactly `days` values were read and every one is positive |
| DataFetcher.ForeignNetbuyTrend | analyze/data_fetcher.py:120-157 | unknown without an `output` or when a field does not parse; otherwise the parsed first `days` values with their foreign-rule trend |
| DataFetcher.InstitutionNetbuyTrend | analyze/data_fetcher.py:159-194 | the same with the institutional rule, so never distributing |
| DataFetcher.WithRealtime | analyze/data_fetcher.py:99-116 | None iff there are no rows; without a live price and volume the rows are kept; today's last row gets the live close and volume, otherwise a row for today is appended at the live price |
| DataFetcher.RealtimeIsIdempotent | analyze/data_fetcher.py:99-116 | merging the live quote a second time on the same day changes nothing |
| EnhancedIndicators.Classify | analyze/enhanced_technical_indicators.py:54-61 | mild iff the divergence is in [-5, 0], moderate iff in [-10, -5), strong iff below -10, above-MA20 iff positive |
| EnhancedIndicators.ClassifyIsMonotone | analyze/enhanced_technical_indicators.py:54-61 | a lower divergence never lands in a shallower band |
| EnhancedIndicators.LastMa20 | analyze/enhanced_technical_indicators.py:36-40 | without an MA20 column the last value is the mean of the last 20 closes; with one it is the column's last value |
| EnhancedIndicators.Ma20Divergence | analyze/enhanced_technical_indicators.py:27-51 | fewer than 20 rows give unknown; unknown iff there is no percentage; a percentage is (close − MA20) / MA20 × 100 of a non-zero MA20, classified by its band; a missing or zero MA20 gives unknown |
| EnhancedIndicators.CorrectionMeansAtOrBelowAverage | analyze/enhanced_technical_indicators.py:51-61 | with a positive MA20 the divergence lands in a correction band iff the close is at or below MA20 |
| EnhancedIndicators.DivergenceBonus | analyze/enhanced_technical_indicators.py:94-100 | no bonus without an enabled configuration; otherwise the configured score of the category, 0 when it has none |
| EnhancedIndicators.UnknownEarnsNoBonus | analyze/enhanced_technical_indicators.py:94-100 | a divergence that cannot be computed earns nothing unless the configuration scores `unknown` |
| EnhancedIndicators.InstitutionRun | analyze/enhanced_technical_indicators.py:129-151 | not met with an empty or too short list; met iff all of the first `n` days are net buying; the run never exceeds the days asked for |
| EnhancedIndicators.TwoDayRun | analyze/enhanced_technical_indicators.py:112-151 | with the default of two days, met iff both latest days are net buying |
| EnhancedIndicators.CheckInstitutionConsecutiveBuying | analyze/enhanced_technical_indicators.py:128-163 | the counting loop with `break` computes the verdict and run of the leading buying days, and returns the inspected days |
| EnhancedIndicators.InvestorCondition | analyze/enhanced_technical_indicators.py:218-240 | `both` is a conjunction, `either` a disjunction, the `_only` types pass one check through, and an unknown type is never met |
| EnhancedIndicators.BothImpliesEveryOther | analyze/enhanced_technical_indicators.py:218-240 | `both` is the strictest and `either` the loosest combination |
| EnhancedIndicators.CheckInvestorCondition | analyze/enhanced_technical_indicators.py:197-240 | the intended combination: each check runs only on a non-empty list and the verdict is the combination of the two |
| EnhancedIndicators.InvestorConditionAsWritten | analyze/enhanced_technical_indicators.py:197-258 | as written, the failing import sends every call to the exception handler, which answers not met, so the condition is never met |
| EnhancedIndicators.ImportFailureHidesInstitutionBuying | analyze/enhanced_technical_indicators.py:196-240 | two days of institutional buying meet `institution_only` in the intended combination but not as written |
| EnhancedIndicators.TradingValue | analyze/enhanced_technical_indicators.py:277-289 | an empty frame gives (false, 0); otherwise the value is the truncated price × volume of the last row and it is met iff it reaches the minimum |
| EnhancedIndicators.TruncationKeepsThreshold | analyze/enhanced_technical_indicators.py:288-289 | for non-negative prices and volumes the truncation does not move the integer threshold |
| HybridStrategy.TrendScore | trading_system/strategy/hybrid_strategy.py:190-196 | 1 point for a 5-day return above 2%, 1 for a 10-day return above 5%, 2 for a 20-day return above 10%; TrendScoreAtMostFour bounds it |
| HybridStrategy.TrendScoreAtMostFour | trading_system/strategy/hybrid_strategy.py:190-196 | the trend score lies in [0, 4], so the tier for a score of 6 can never fire |
| HybridStrategy.PricePosition52 | trading_system/strategy/hybrid_strategy.py:202-203 | the current price over the highest close of the last 252 bars; PricePositionInUnitInterval puts it in (0, 1] |
| HybridStrategy.PricePositionInUnitInterval | trading_system/strategy/hybrid_strategy.py:202-203 | the price over the 52-week high lies in (0, 1], since the current close is one of the closes the high is taken over |
| HybridStrategy.DailySignal | trading_system/strategy/hybrid_strategy.py:174-281 | HOLD with strength 0 above 90% of the 52-week high; otherwise SELL iff the sell score reaches 3 and BUY iff the buy score reaches 4 without a sell, so SELL overrides BUY; the strength is the capped score, in [0, 5], and 0 iff HOLD |
| HybridStrategy.BuyTiming | trading_system/strategy/hybrid_strategy.py:29-122 | rejected with score 0 above 95% of the 20-bar high, above RSI 70 or after a 5-bar rise of 3%; a frame of exactly five bars raises; otherwise execute iff the timing score reaches 4, reporting the price position and RSI; the score lies in [-2, 8] |
| HybridStrategy.SellTiming | trading_system/strategy/hybrid_strategy.py:458-501 | the score is the sum of the four sell conditions, in [0, 9], and it executes iff the score reaches 3 |
| HybridStrategy.SellNeedsDropOrTwoSignals | trading_system/strategy/hybrid_strategy.py:458-491 | a sell executes only on the sharp 5-bar drop or on a score of at least 4, that is two conditions together |
| HybridStrategy.EntryTiming | trading_system/strategy/hybrid_strategy.py:414-455 | fewer than 20 minute bars never execute; otherwise the buy or the sell timing check of the signal's side |
| HybridStrategy.OrderStrategy | trading_system/strategy/hybrid_strategy.py:333-347 | aggressive iff the price position is at most 0.7 and the RSI below 40, patient iff not and the score reaches 4, else limit, with the defaults 1.0 and 50 |
| HybridStrategy.OrderStrategyIsPriced | trading_system/strategy/hybrid_strategy.py:342-347 | every strategy chosen is one the order manager prices as a limit order |
| HybridStrategy.HybridStep | trading_system/strategy/hybrid_strategy.py:504-533 | a trade is placed iff the daily signal is not HOLD, its strength reaches 3 and the timing executes; the side is the signal's |
| HybridStrategy.TradeOnlyBelowHigh | trading_system/strategy/hybrid_strategy.py:514-517 | above 90% of the 52-week high no trade is ever placed, whatever the timing says |
| HybridStrategy.CachedWithinFourHours | trading_system/strategy/hybrid_strategy.py:134-138 | within four hours of a fresh analysis, asking again returns the same result and leaves the cache alone, whatever the new data |
| HybridStrategy.RefreshedAfterFourHours | trading_system/strategy/hybrid_strategy.py:126-170 | once four hours have passed, the analysis is redone on the new data |
| HybridStrategy.DailyAnalyzer.constructor | trading_system/strategy/hybrid_strategy.py:23 | the cache starts empty |
| HybridStrategy.DailyAnalyzer.AnalyzeDailyStrategy | trading_system/strategy/hybrid_strategy.py:126-170 | the result and the new cache are those of one call of the cached analysis: the cached value within four hours, HOLD for fewer than 100 rows, else the fresh signal stored with its time |
| MainTrader.SellDecisionFor | trading_system/main.py:318-376 | nothing for a symbol no longer held; the stop-loss sells urgently; the take-profit sells patiently iff no stop-loss and the sale gate allows; the daily SELL of strength 3 sells aggressively iff neither before and the symbol is tracked and the gate allows; every sale other than the stop-loss passes the gate |
| MainTrader.StopLossOverridesHoldingPeriod | trading_system/main.py:335-338 | a stop-loss sells whatever the holding period, the tracking and the daily signal say |
| MainTrader.HoldingPeriodBlocksOtherSells | trading_system/main.py:341-364 | without a stop-loss, a position bought less than the minimum holding time ago is never sold |
| MainTrader.MarketOpen | trading_system/main.py:402-421 | main.py's market is open on weekdays from 09:00 up to and including the minute 15:30 |
| MainTrader.ClosingMinuteDiffers | trading_system/main.py:408-421 | the minute 15:30 is open here and closed for the sharp-decline trader; every other minute agrees, and that trader's hours lie inside these |
| MainTrader.Trader.constructor | trading_system/main.py:129-130 | the default stop-loss is 8% and the default take-profit 25% |
| MainTrader.Trader.ExecuteSell | trading_system/main.py:378-400 | a successful order records the sale at the reported limit price (0 without one) and removes the symbol from both position maps; a failed order changes nothing |
| MainTrader.Trader.ProcessSellForSymbol | trading_system/main.py:318-376 | the decision of the sell priority is carried out: no order or a failed order changes nothing, a successful one records the sale and drops the symbol |
| MarketSchedule.HardcodedHolidays | trading_system/market_schedule_checker.py:249-255 | the 2026 table for 2026 and the 2025 table for every other year |
| MarketSchedule.NextDay | trading_system/market_schedule_checker.py:367 | the following day is a valid date one weekday later and strictly after the date |
| MarketSchedule.DateKey | trading_system/market_schedule_checker.py:279 | the key is five characters with a dash in the middle |
| MarketSchedule.IsHoliday | trading_system/market_schedule_checker.py:271-284 | Saturday and Sunday are holidays by name without a table; a weekday is a holiday iff its key is in the year's table, with the table's name; otherwise the name is empty |
| MarketSchedule.LunarNewYear2025 | trading_system/market_schedule_checker.py:29-33 | Wednesday 29 January 2025 is the holiday 설날 of the hardcoded table |
| MarketSchedule.IsMarketHours | trading_system/market_schedule_checker.py:286-300 | the session is the closed interval from 09:00:00 to 15:30:00; MarketHoursEdges pins both ends |
| MarketSchedule.MarketHoursEdges | trading_system/market_schedule_checker.py:299-300 | 09:00 and 15:30 are inside the session; a second after 15:30 and a microsecond before 09:00 are not |
| MarketSchedule.ShouldTerminate | trading_system/market_schedule_checker.py:316-330 | a holiday terminates with its name; otherwise 16:00 or later and before 06:00 terminate, and the program runs iff the time is in [06:00, 16:00) |
| MarketSchedule.SessionIsNeverTerminated | trading_system/market_schedule_checker.py:299-330 | on a trading day the program is never terminated during the session |
| MarketSchedule.DaysAfter | trading_system/market_schedule_checker.py:367-374 | every date reached by adding days is valid |
| MarketSchedule.NextTradingDay | trading_system/market_schedule_checker.py:365-376 | the first of the ten following days that is no holiday; None iff all ten are holidays |
| MarketSchedule.TradingDayIsWeekday | trading_system/market_schedule_checker.py:271-275 | a day that is no holiday is a weekday |
| MarketSchedule.WeekdayWithinThreeDays | trading_system/market_schedule_checker.py:367-374 | a weekday follows within three days, so without table holidays the ten-day search always succeeds |
| OrderPricing.MinPriceUnit | trading_system/trading/order_manager.py:86-101 | the tick is one of the seven KRX sizes; 1 iff the price is below 1,000, 1,000 iff it is at least 500,000; autotrader.py:1516-1531 is the same tick table |
| OrderPricing.TickIsMonotone | trading_system/trading/order_manager.py:86-101 | the tick never shrinks as the price grows |
| OrderPricing.RoundDownBounds | trading_system/trading/order_manager.py:71-84 | `int(price // unit) * unit` lies at most one unit below the price, on a multiple of the unit |
| OrderPricing.MultipleOfTick | trading_system/trading/order_manager.py:71-84 | a multiple of a tick leaves no remainder |
| OrderPricing.AdjustToPriceUnit | trading_system/trading/order_manager.py:65-84 | 1 for a non-positive price; otherwise a multiple of the price's tick within one tick below the price; autotrader.py:1437-1456 is the same adjustment |
| OrderPricing.AdjustStaysInBracket | trading_system/trading/order_manager.py:65-101 | rounding down a price of at least 1 never leaves its tick bracket and gives at least 1 |
| OrderPricing.AdjustIsIdempotent | trading_system/trading/order_manager.py:65-84 | adjusting an adjusted price changes nothing |
| OrderPricing.PositionSize | trading_system/trading/order_manager.py:15-63 | never negative; 0 without cash, with zero cash, for a strength below 0.5 or a non-positive price; otherwise the most whole shares the investment buys; autotrader.py:1346-1380 is the same sizing |
| OrderPricing.InvestmentAtLeastFloor | trading_system/trading/order_manager.py:47-53 | an investment that is made is at least the 100,000 KRW floor |
| OrderPricing.OrderFitsInCash | trading_system/trading/order_manager.py:29-55 | with a position ratio of at most 1 an order never costs more than the orderable cash |
| OrderPricing.InvestmentGrowsWithStrength | trading_system/trading/order_manager.py:32-53 | a stronger signal never invests less and never loses the investment |
| OrderPricing.SizeGrowsWithStrength | trading_system/trading/order_manager.py:15-63 | a stronger signal never buys fewer shares |
| OrderPricing.SmartLimitPrice | trading_system/trading/order_manager.py:103-159 | without a quote, a price iff the fallback price is positive, 0.3% above or below it on the tick grid; with a quote, the tick-adjusted raw price of the side and urgency, at least 1; autotrader.py:1458-1514 is the same limit price |
| OrderPricing.LimitPriceOnTickGrid | trading_system/trading/order_manager.py:154-155 | every limit price of at least 1 is already on the tick grid |
| OrderPricing.UrgentOrdersCrossAtTheQuote | trading_system/trading/order_manager.py:133-145 | an urgent buy never bids above the ask and an urgent sale never asks above the bid |
| OrderPricing.UrgencyFor | trading_system/trading/order_manager.py:167-174 | `limit` and `patient_limit` are normal, `aggressive_limit` aggressive, `urgent` urgent, and nothing else is a limit strategy |
| OrderPricing.OrderPrice | trading_system/trading/order_manager.py:161-184 | market, unknown strategies and failed limit calculations send price 0; a limit strategy sends the smart limit price, at least 1 with a quote |
| OrderTracking.FirstMatch | trading_system/trading/order_tracker.py:115-116 | the index found holds a row for the order number and no earlier row does; none is found only when no row carries the number |
| OrderTracking.InvalidOrderNo | trading_system/trading/order_tracker.py:158 | an empty order number or "unknown" in any letter case is invalid |
| OrderTracking.InvalidOrderNoCases | trading_system/trading/order_tracker.py:158 | "", "unknown", "Unknown" and "UNKNOWN" are invalid; a broker number, "unknow" and "unknown1" are not |
| OrderTracking.ClassifyFill | trading_system/trading/order_tracker.py:109-141 | a failed query is an error and a missing row not_found; for the first matching row an unparseable number is an error, a filled quantity of 0 or less pending, filled equal to ordered executed and otherwise partial with remaining = ordered − filled; an executed or partial status reports the row's filled quantity and filled amount, and the average price is the floor of amount / filled quantity |
| OrderTracking.StepKey | trading_system/trading/order_tracker.py:152-221 | one loop turn changes only the order it visits and keeps the set of order numbers |
| OrderTracking.RunPass | trading_system/trading/order_tracker.py:150-231 | a pass keeps the set of order numbers, and orders it does not visit stay exactly as they were |
| OrderTracking.OrderTracker.constructor | trading_system/trading/order_tracker.py:20-40 | the tracker starts with the loaded orders in file order |
| OrderTracking.OrderTracker.AddPendingOrder | trading_system/trading/order_tracker.py:42-67 | an empty or case-insensitive "unknown" order number changes nothing; any other number is stored, or replaced, with check_count 0 and no last check, and a new number is appended to the visiting order |
| OrderTracking.OrderTracker.CheckAllPendingOrders | trading_system/trading/order_tracker.py:143-240 | the position book and the remaining orders are those of the pass over the orders in insertion order, with every completed order then removed |
| OrderTracking.OrderTracker.Remove | trading_system/trading/order_tracker.py:233-236 | the orders left are exactly those not on the completed list, and the visiting order drops exactly the completed numbers |
| OrderTracking.OrderTracker.VisitOrder | trading_system/trading/order_tracker.py:152-221 | the loop body leaves the book, the orders and the completed list as the pass specification's step does |
| OrderTracking.ApplyFill | trading_system/trading/order_tracker.py:177-180 | a fill on side "BUY" records a purchase, any other side a sale, of the executed quantity at the average price |
| OrderTracking.StepCompletes | trading_system/trading/order_tracker.py:156-221 | an order is put on the completed list in its turn iff its number is invalid, it executed, the broker does not know it, an error brings its count to 10, or it is more than 24 hours old |
| OrderTracking.StepReplaysFill | trading_system/trading/order_tracker.py:168-200 | one turn makes at most one position call: the one an executed or partial fill reports |
| OrderTracking.StepKeepsOrderDetails | trading_system/trading/order_tracker.py:165-214 | a turn changes only the check count, the last check time and the open quantity of the order; the count never decreases and a valid order's last check becomes now |
| OrderTracking.PassCompletesExactly | trading_system/trading/order_tracker.py:150-231 | over distinct numbers, an order is completed by a pass iff it was already completed or its own state and broker answer complete it |
| OrderTracking.SurvivorsOfPass | trading_system/trading/order_tracker.py:150-236 | after a pass the tracker keeps exactly the orders whose number is valid and which are pending, partially filled or under 10 errors, and at most 24 hours old |
| OrderTracking.PassReplaysFills | trading_system/trading/order_tracker.py:168-200 | a pass applies each reported fill to the position book exactly once, in the order the tracker holds the orders |
| OrderTracking.PassKeepsQuantitiesNonNegative | trading_system/trading/order_tracker.py:168-200 | no pass drives any position quantity below zero |
| OrderTracking.FillOpsArePositive | trading_system/trading/order_tracker.py:122-131 | every position call a pass makes carries a positive quantity |
| OrderTracking.PassKeepsOrderDetails | trading_system/trading/order_tracker.py:165-214 | after a pass every order keeps its number, symbol, side, price, strategy and order time; only its check bookkeeping and open quantity may change |
| OrderTracking.PendingSummary | trading_system/trading/order_tracker.py:286-299 | the total is the number of orders, the buy count the orders on side "BUY" and the sell count the others, so total = buy + sell |
| PositionBook.PositionManager.constructor | trading_system/trading/position_manager.py:13-36 | the manager starts with the given limits and the loaded history |
| PositionBook.PositionManager.RecordPurchase | trading_system/trading/position_manager.py:46-78 | only the bought symbol changes: its quantity grows by the amount bought, its purchase count by one, a BUY record is appended, the last purchase time becomes now, the first purchase time is set only if absent, and the closing time is kept |
| PositionBook.PositionManager.RecordSale | trading_system/trading/position_manager.py:80-103 | an unknown symbol changes nothing; otherwise a SELL record is appended and the quantity drops by the amount sold, clamped at 0, at which point the closing time becomes now; the purchase count and purchase times stay |
| PositionBook.PositionManager.GetRecentSales | trading_system/trading/position_manager.py:142-155 | the loop returns the time-sorted SELL records newer than `days` days before now |
| PositionBook.InsertByTimeKeepsOrder | trading_system/trading/position_manager.py:155 | inserting a record into a time-ordered list keeps it time-ordered |
| PositionBook.InsertByTimeAddsOne | trading_system/trading/position_manager.py:155 | inserting adds exactly the one record and loses none |
| PositionBook.SortByTimeIsSortedPermutation | trading_system/trading/position_manager.py:155 | sorting by timestamp yields a time-ordered permutation of its input |
| PositionBook.SalesAfterSelectsExactly | trading_system/trading/position_manager.py:149-153 | a record is selected iff it is a SELL record of the log newer than the cutoff |
| PositionBook.RecentSalesAreRecentSells | trading_system/trading/position_manager.py:142-155 | the recent sales are time-ordered and are exactly the symbol's SELL records newer than the cutoff |
| PositionBook.PurchaseGate | trading_system/trading/position_manager.py:105-140 | the quantity cap is checked first, then the purchase count, then the cool-down since the last purchase; a cool-down refusal reports the positive hours left and the latest sale of the last 7 days; a purchase is allowed iff all three pass |
| PositionBook.SaleGate | trading_system/trading/position_manager.py:157-176 | no held quantity refuses first; otherwise a first purchase less than the minimum holding time ago refuses, with the hours left equal to the minimum holding time minus the time held, which is positive; a sale is allowed iff neither holds, so a symbol without history is sellable |
| PositionBook.Summary | trading_system/trading/position_manager.py:178-188 | an unknown symbol reads as all zero and open; otherwise the quantity and count are the stored ones, and the position is closed iff a closing time is stored |
| PositionBook.PurchaseCountCountsPurchases | trading_system/trading/position_manager.py:46-103 | over any sequence of purchases and sales, the purchase count grows by the number of purchases of the symbol |
| PositionBook.FirstPurchaseTimeIsStable | trading_system/trading/position_manager.py:72-73 | once set, the first purchase time survives every later purchase and sale |
| PositionBook.QuantitiesStayNonNegative | trading_system/trading/position_manager.py:93-98 | while purchases add non-negative amounts, every held quantity stays non-negative |
| PositionBook.PurchaseStartsCooldown | trading_system/trading/position_manager.py:121-137 | throughout the cool-down after a purchase, no further purchase of the symbol is allowed |
| PositionBook.PurchaseCapIsFinal | trading_system/trading/position_manager.py:113-117 | once a fresh symbol has been bought the maximum number of times, no purchase is ever allowed again, whatever sales happen |
| PositionBook.HoldingPeriodFromFirstPurchase | trading_system/trading/position_manager.py:157-176 | during the holding period counted from the first purchase, no later purchase or sale makes the symbol sellable |
| SharpDecline.InBuyWindow | trading_system/sharp_decline_trader.py:307-322 | the buy window is the half-open interval of minutes from 09:00 to before 09:30; WindowsInHoursAndMinutes restates it in hours and minutes |
| SharpDecline.IsSellTime | trading_system/sharp_decline_trader.py:324-331 | the sell time is the single minute 15:00, whatever the seconds (WindowsInHoursAndMinutes) |
| SharpDecline.MarketOpen | trading_system/sharp_decline_trader.py:548-565 | this trader's market is open on weekdays from 09:00 to before 15:30; MainTrader.ClosingMinuteDiffers compares it with main.py's rule |
| SharpDecline.WindowsInHoursAndMinutes | trading_system/sharp_decline_trader.py:307-331 | the buy window is exactly the minutes 09:00 to 09:29 and the sell time exactly the minute 15:00, whatever the seconds |
| SharpDecline.TimeTableOfTheTestScript | trading_system/test_sharp_decline_logic.py:129-138 | every row of the test table: 08:59, 09:00, 09:15, 09:29, 09:30, 14:59, 15:00 and 15:01 fall in or out of the buy window and the sell time as its two columns expect |
| SharpDecline.RunTick | trading_system/sharp_decline_trader.py:606-655 | a scan happens only on weekdays between 09:00 and 09:29; the sale happens iff it is a weekday, the minute 15:00, and nothing was sold yet |
| SharpDecline.IsSharpDecline | trading_system/sharp_decline_trader.py:349-352 | the decline rate from the previous close is at most −15%; SharpDeclineIsEightyFivePercent turns it into a price of at most 85% of that close |
| SharpDecline.SharpDeclineIsEightyFivePercent | trading_system/sharp_decline_trader.py:350-353 | for a positive previous close, a stock is bought iff its current price is at most 85% of that close |
| SharpDecline.DryRunQuantity | trading_system/sharp_decline_trader.py:362 | the simulated quantity is the largest number of shares 1,000,000 won buys at the current price |
| SharpDecline.BoughtRecord | trading_system/sharp_decline_trader.py:356-391 | a record is made iff the run is dry or the live order succeeds; it carries strategy "sharp_decline", the previous close and the time, and in a dry run the current price and the simulated quantity |
| SharpDecline.BoughtRecordAsWritten | trading_system/sharp_decline_trader.py:356-409 | the buy branch as the code stands: a record is made iff the run is dry, and then it is the intended dry-run record; a live order never records, since its call raises |
| SharpDecline.RemovedAtSell | trading_system/sharp_decline_trader.py:436-509 | a stock leaves the list at the sale when the account query shows it is not held, or when its sell succeeds (always in a dry run) and its buy price is not 0; with a buy price of 0 the profit percentage at line 487 divides by zero, the handler at line 508 logs it and the entry stays |
| SharpDecline.RemovedAtSellAsWritten | trading_system/sharp_decline_trader.py:436-509 | the sale as the code stands: only a stock missing from the account, or a dry-run sale with a non-zero buy price, leaves the list, since a live sell raises |
| SharpDecline.LiveOrdersLostAsWritten | trading_system/sharp_decline_trader.py:333-509 | a live buy at a 20% decline whose order succeeds is recorded by the intended rule and lost as written; a held stock whose live sell succeeds is removed only by the intended rule |
| SharpDecline.SharpDeclineTrader.constructor | trading_system/sharp_decline_trader.py:51-124 | the trader starts in the given mode with today's loaded purchases |
| SharpDecline.SharpDeclineTrader.CheckDeclineAndBuy | trading_system/sharp_decline_trader.py:333-409 | an already-bought stock, a missing or zero current price, or a zero previous close change nothing; otherwise the stock is recorded iff it declined sharply and the buy succeeded |
| SharpDecline.SharpDeclineTrader.SellPurchasedToday | trading_system/sharp_decline_trader.py:411-514 | the loop removes exactly the stocks not in the account and those whose sell succeeds with a non-zero buy price, and leaves the others' records unchanged |
| SharpDecline.LeftAfterSale | trading_system/sharp_decline_trader.py:437-504 | after the 15:00 sale exactly the stocks still held whose live sell failed or whose buy price is 0 are left, with their records untouched |
| SharpDecline.DryRunSellsEveryPricedStock | trading_system/sharp_decline_trader.py:444-504 | a dry run leaves exactly the held records bought at price 0, so a list of priced records empties; a live sale never adds an entry |
| SharpDecline.ZeroPriceRecordSurvivesSale | trading_system/sharp_decline_trader.py:480-502 | a held record bought at price 0 stays on the list after a dry-run sale |
| MacdSignals.MarkCrosses | trading_system/strategy/technical_indicators.py:32-39 | the flag column is 0 in row 0 and, from row 1 on, +1 exactly on an upward cross of the line through its signal, -1 exactly on a downward cross, 0 otherwise |
| MacdSignals.CalculateMacd | trading_system/strategy/technical_indicators.py:13-44 | a frame with fewer than slow + signal rows gets no MACD columns; otherwise the histogram is line − signal at every row and the cross flags are those of the loop |
| MacdSignals.CrossesAreExclusive | trading_system/strategy/technical_indicators.py:34-39 | no row crosses both ways, and a flag is 0 iff its row crosses neither way |
| MacdSignals.FlagOneIsUpwardCross | trading_system/strategy/technical_indicators.py:34-36 | every +1 flag sits on a row from 1 on where the line rose above its signal |
| MacdSignals.SeriesTail | trading_system/strategy/technical_indicators.py:111 | for a non-negative count the tail is the last min(count, length) elements |
| MacdSignals.LastIndexOf | trading_system/strategy/technical_indicators.py:117-119 | the index found holds the value and no later index does; nothing is found only when the value is absent |
| MacdSignals.DetectGoldenCross | trading_system/strategy/technical_indicators.py:99-160 | a frame without flags or with fewer than 10 rows gives the default report; otherwise a golden cross is reported iff a +1 flag is among the last `lookback` flags, its age counts the rows after the last +1, the strength is 0 without a cross and with one it is 2.0 plus 0.5 for each of: the last line above zero, a rising histogram, a signal age of at most 2 and a line-to-signal gap above half the line's standard deviation (so between 2.0 and 4.0, under the cap of 5), the histogram trend is rising or falling iff the last three values strictly rise or fall, and the line is above zero iff its last value is positive |
| MacdSignals.SignalAgeWithinLookback | trading_system/strategy/technical_indicators.py:111-120 | with a look-back of at least 1, a reported cross is less than `lookback` rows old |
| MacdSignals.ReportedCrossIsUpwardCross | trading_system/strategy/technical_indicators.py:32-120 | on flags written by the MACD calculation, the row a reported cross points to is one where the line rose through its signal |

## Left out

- **Broker and network I/O.** The REST calls, tokens, order placement and the bodies of `execute_smart_buy` and `execute_smart_sell` are left out. The order request of `cancel_order` is left out too, since it is only an HTTP call whose answer is passed on. Their answers enter as parameters: quotes, fill rows, holdings, cash and order results.
- **Smart buy and sell of the hybrid strategy.** `execute_smart_buy` and `execute_smart_sell` (trading_system/strategy/hybrid_strategy.py:536-616 and 798-842) call `place_order_with_tracking` and `calculate_position_size_improved`, which trading_system/trading/order_manager.py does not define. Their order handling is left out; the decisions they act on are modelled.
- **main.py as given does not parse.** trading_system/main.py:243 reads `if self.def check_backtest_update(self) -> bool:`, a syntax error, so the module cannot be imported as it stands. The MainTrader members model the methods around that line as their text reads.
- **Order manager revision.** The sharp-decline trader and main.py build the order manager with a `get_stock_name_func` argument that trading_system/trading/order_manager.py:10 does not accept. The model takes the constructors as the callers intend them; the Findings table records the missing order call.
- **Persistence.** The JSON files of the position manager, the order tracker, the performance tracker and the sharp-decline trader are left out. Their contents are the initial state given to each constructor.
- **JSON stock lists.** `load_stock_codes_from_file` is modelled for `.txt` files only. Its JSON branches are file format handling.
- **Notification, logging, configuration and progress output.** Discord and webhook sending, with their retries and sleeps, are left out. So are loggers, the progress line of the screening tracker and timing output. They compute nothing the model states.
- **Wall clock and polling.** `datetime.now()`, the `while True` loops and `time.sleep` are left out. The model takes `now`, the weekday and the time of day as inputs. `SharpDecline.RunTick` is one turn of the loop.
- **Library numerics.** pandas `ewm` with `adjust=True`, rolling RSI, Bollinger bands, the stochastic oscillator and standard deviations enter as given reals. The Sharpe ratio and volatility of the backtest metrics are left out because they need `np.std` and a square root. Only the `adjust=False` EMA recursion is computed.
- **Floating point.** Floats are exact reals. NaN and infinities are left out, so NaN guards such as `pd.isna` never fire in the model.
- **Rounding.** The rounding of `divergence_pct` and of the reported MA20 to two decimals only affects display, so it is left out.
- **MA20 write-back.** The `MA20` column that `calculate_ma20_divergence` writes into the caller's frame is left out.
- **Text.** Whitespace and digits are ASCII only, and Python's underscores in integer literals are not accepted by `DataFetcher.ParseInt`. There is no Unicode normalisation.
- **Exception paths.** A handler that turns an unexpected exception into `{'error': str(e)}`, `False` or the default result is left out when the exception comes from code outside the model. One example is `check_all_pending_orders`'s outer handler, which counts an extra error check. The handlers the cited lines reach, such as the failing import of `check_investor_condition`, are modelled.
- **Backtest details.** The date column becomes the row index, and the per-day position series is not kept. `create_portfolio_from_backtest`'s candidate selection and its `get('total_return', 1)` default are left out. Only the weight clamp is modelled.
- **Snapshot loops.** The `process_sell_signals` loop over a snapshot of the positions is left out. `MainTrader.Trader.ProcessSellForSymbol` models one symbol.
- **Send result.** Whether `send_discord_message` sent every chunk depends on the sends, so its result is left out. Only the chunking is modelled.
- **Holiday table.** The broker's holiday query is a parameter. The hard-coded fallback table is modelled.
- **Fundamental inputs.** The fundamental screening values (PER, ROE, debt ratio, growth) are inputs, as the data collectors deliver them.
- AnalyzeIndicators.VolumeBreakout: requires a period of at least 1. The source's rolling window of length 0 is a pandas error.
- Backtest.SimpleBacktest: requires positive closing prices, because a return relative to a zero close divides by zero in the source.
- HybridStrategy.DailySignal: requires positive prices. The returns over N days divide by an earlier close.
- AutoTrader.LongTermTrendScore: requires positive prices for the same reason. AutoTrader.DailySignal does too.
- HybridStrategy.DailyAnalyzer.AnalyzeDailyStrategy: requires positive prices in the fetched data for the same reason.
- OrderTracking.ClassifyFill: a failed query, a non-zero `rt_cd` and an exception are one `None` answer. All three give the same error status in the source.

## Findings

| source | as written | input that shows it | evidently intended | confidence | as-written member | corrected member |
|---|---|---|---|---|---|---|
| analyze/enhanced_technical_indicators.py:196-258 | `check_investor_condition` imports `check_foreign_consecutive_buying` from `technical_indicators`, but analyze/technical_indicators.py defines no such function. The import raises, and the handler answers "not met" for every investor type. | investor type `institution_only` with institutional net buying `[5, 7]` over two days | each type combines the foreign and institutional checks: a single check, their conjunction or their disjunction | not executed | EnhancedIndicators.InvestorConditionAsWritten | EnhancedIndicators.CheckInvestorCondition |
| trading_system/sharp_decline_trader.py:333-509 | The live buy (line 371) and the live sell (line 468) call `place_order_with_tracking`, which the `OrderManager` of trading_system/trading/order_manager.py does not define. The handlers around them catch the AttributeError, so a live buy is never recorded and a live sale never removes a held stock. With the order manager given here, the constructor call at lines 80-85 would already fail, since `get_stock_name_func` is not a parameter of its `__init__`; the as-written half takes the constructor revision the callers target and assumes it still lacks `place_order_with_tracking`. | a live run with previous close 10000, current price 8000 and a market buy the broker would fill | the order call places a tracked market order and reports success, limit price and quantity, which the record and the sale then use | not executed | SharpDecline.BoughtRecordAsWritten | SharpDecline.BoughtRecord |
