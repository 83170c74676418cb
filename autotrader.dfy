/**
 * The single-file trader autotrader.py where it differs from trading_system:
 * the purchase and sale gates that read the held quantity from the
 * trader's own `positions`, the long-term trend score, the daily signal
 * with BUY taking precedence, the hour/minute market-hours rule and the
 * risk check. Its position bookkeeping, tick table, position sizing and
 * MACD code are the same as trading_system's and are modelled once, in
 * PositionBook, OrderPricing and MacdSignals.
 */
module AutoTrader {
  import opened Common
  import PositionBook
  import HybridStrategy
  import MacdSignals
  import MainTrader

  /** `self.positions.get(symbol, {}).get('quantity', 0)`. */
  function HeldQuantity(positions: map<string, int>, symbol: string): int
  {
    if symbol in positions then positions[symbol] else 0
  }

  /** `can_purchase_symbol(symbol)` of autotrader.py: quantity cap, purchase count, cool-down, in that order. */
  function PurchaseGate(lim: PositionBook.Limits, positions: map<string, int>, book: PositionBook.Book,
                        symbol: string, now: real): (v: PositionBook.PurchaseVerdict)
    ensures v.InCooldown? ==> v.lastSale.None?
  {
    var q := HeldQuantity(positions, symbol);
    var h := PositionBook.Lookup(book, symbol);
    if q >= lim.maxQuantity then PositionBook.QuantityCapReached(q, lim.maxQuantity)
    else if h.purchaseCount >= lim.maxPurchases then PositionBook.PurchaseCountReached(h.purchaseCount, lim.maxPurchases)
    else if h.lastPurchaseTime.Some? && now - h.lastPurchaseTime.value < lim.cooldownHours then
      PositionBook.InCooldown(lim.cooldownHours - (now - h.lastPurchaseTime.value), None)
    else PositionBook.PurchaseAllowed
  }

  /** The two purchase gates agree on every verdict; only trading_system's cool-down message also names the last sale. */
  lemma PurchaseGatesAgree(lim: PositionBook.Limits, positions: map<string, int>, book: PositionBook.Book,
                           symbol: string, now: real)
    ensures var mine := PurchaseGate(lim, positions, book, symbol, now);
            var theirs := PositionBook.PurchaseGate(lim, book, symbol, HeldQuantity(positions, symbol), now);
            && (mine.InCooldown? <==> theirs.InCooldown?)
            && (mine.InCooldown? ==> mine.remainingHours == theirs.remainingHours)
            && (!mine.InCooldown? ==> mine == theirs)
  {
  }

  /** `can_sell_symbol(symbol)` of autotrader.py: no held quantity first, then the minimum holding time. */
  function SaleGate(lim: PositionBook.Limits, positions: map<string, int>, book: PositionBook.Book,
                    symbol: string, now: real): (v: PositionBook.SaleVerdict)
    ensures symbol !in positions ==> v == PositionBook.NoPosition
  {
    var h := PositionBook.Lookup(book, symbol);
    if symbol !in positions || positions[symbol] <= 0 then PositionBook.NoPosition
    else if h.firstPurchaseTime.Some? && now - h.firstPurchaseTime.value < lim.minHoldingHours then
      PositionBook.HoldingTooShort(lim.minHoldingHours - (now - h.firstPurchaseTime.value))
    else PositionBook.SaleAllowed
  }

  lemma SaleGatesAgree(lim: PositionBook.Limits, positions: map<string, int>, book: PositionBook.Book,
                       symbol: string, now: real)
    ensures SaleGate(lim, positions, book, symbol, now) ==
            PositionBook.SaleGate(lim, book, symbol, HeldQuantity(positions, symbol), now)
  {
  }

  /** The moving averages of the last daily row. */
  datatype MaStack = MaStack(ma5: real, ma20: real, ma60: real, ma120: real)

  /** The `trend_score` of `analyze_long_term_trend`: five return thresholds and the moving-average alignment. */
  function LongTermTrendScore(prices: seq<real>, ma: MaStack): (t: int)
    requires AllPositive(prices)
    ensures 0 <= t <= 9
    ensures t == 9 <==> HybridStrategy.ReturnOver(prices, 5) > 0.02 && HybridStrategy.ReturnOver(prices, 10) > 0.05
                        && HybridStrategy.ReturnOver(prices, 20) > 0.1 && HybridStrategy.ReturnOver(prices, 60) > 0.2
                        && HybridStrategy.ReturnOver(prices, 120) > 0.3 && ma.ma5 > ma.ma20 > ma.ma60 > ma.ma120
    ensures |prices| <= 5 ==> t == (if ma.ma5 > ma.ma20 > ma.ma60 > ma.ma120 then 2 else 0)
  {
    HybridStrategy.Points(HybridStrategy.ReturnOver(prices, 5) > 0.02, 1)
    + HybridStrategy.Points(HybridStrategy.ReturnOver(prices, 10) > 0.05, 1)
    + HybridStrategy.Points(HybridStrategy.ReturnOver(prices, 20) > 0.1, 2)
    + HybridStrategy.Points(HybridStrategy.ReturnOver(prices, 60) > 0.2, 2)
    + HybridStrategy.Points(HybridStrategy.ReturnOver(prices, 120) > 0.3, 1)
    + HybridStrategy.Points(ma.ma5 > ma.ma20 > ma.ma60 > ma.ma120, 2)
  }

  /** The long-term score contains the hybrid strategy's three short-term terms, so it is never lower. */
  lemma LongTermScoreDominatesShortTerm(prices: seq<real>, ma: MaStack)
    requires AllPositive(prices)
    ensures HybridStrategy.TrendScore(prices) <= LongTermTrendScore(prices, ma) <= HybridStrategy.TrendScore(prices) + 5
  {
  }

  /** The indicator values of the last daily row, as pandas computes them. */
  datatype DailyRow = DailyRow(rsi: real, stochK: real, stochD: real, bbLower: real, bbUpper: real, ma20: real, ma60: real)

  /**
   * `bb_position < 0.3` and `bb_position > 0.8`. A band of zero width
   * divides by zero, which in floating point gives an infinity of the sign
   * of the numerator (or NaN, for which both comparisons are false).
   */
  predicate NearLowerBand(cur: real, r: DailyRow)
  {
    if r.bbUpper != r.bbLower then (cur - r.bbLower) / (r.bbUpper - r.bbLower) < 0.3 else cur < r.bbLower
  }

  predicate NearUpperBand(cur: real, r: DailyRow)
  {
    if r.bbUpper != r.bbLower then (cur - r.bbLower) / (r.bbUpper - r.bbLower) > 0.8 else cur > r.bbLower
  }

  /** The buy score of `generate_daily_signal`: six weighted conditions, at most 10 points in all. */
  function BuyScore(cur: real, r: DailyRow, trendScore: int, macd: MacdSignals.CrossReport): (s: real)
    ensures 0.0 <= s <= 10.0
  {
    (if trendScore >= 6 then 3.0 else if trendScore >= 4 then 2.0 else if trendScore >= 2 then 1.0 else 0.0)
    + (if macd.goldenCross && macd.signalAge <= 10 then 2.5 else if macd.macdAboveZero then 1.0 else 0.0)
    + (if 30.0 <= r.rsi <= 50.0 then 1.5 else if 50.0 < r.rsi <= 65.0 then 0.5 else 0.0)
    + HybridStrategy.RealPoints(r.stochK < 30.0 && r.stochD < 30.0, 1.0)
    + HybridStrategy.RealPoints(NearLowerBand(cur, r), 1.0)
    + HybridStrategy.RealPoints(cur > r.ma20 > r.ma60, 1.0)
  }

  /** The sell score: four weighted conditions, at most 7.5 points in all. */
  function SellScore(cur: real, r: DailyRow, tenDayReturn: real): (s: real)
    ensures 0.0 <= s <= 7.5
  {
    HybridStrategy.RealPoints(r.rsi > 75.0, 2.0) + HybridStrategy.RealPoints(NearUpperBand(cur, r), 1.5)
    + HybridStrategy.RealPoints(cur < r.ma20, 2.0) + HybridStrategy.RealPoints(tenDayReturn < -0.1, 2.0)
  }

  /** `generate_daily_signal` of autotrader.py: BUY on a buy score of 5, else SELL on a sell score of 3; BUY wins when both hold. */
  function DailySignal(prices: seq<real>, r: DailyRow, ma: MaStack, macd: MacdSignals.CrossReport): (d: HybridStrategy.DailyResult)
    requires |prices| > 0 && AllPositive(prices)
    ensures var cur := prices[|prices| - 1];
            var buy := BuyScore(cur, r, LongTermTrendScore(prices, ma), macd);
            var sell := SellScore(cur, r, HybridStrategy.ReturnOver(prices, 10));
            && d.currentPrice == cur
            && (d.signal.Buy? <==> buy >= 5.0)
            && (d.signal.Sell? <==> buy < 5.0 && sell >= 3.0)
            && (d.signal.Buy? ==> d.strength == 5.0)
            && (d.signal.Sell? ==> d.strength == MinReal(sell, 5.0))
            && (d.signal.Hold? ==> d.strength == 0.0)
  {
    var cur := prices[|prices| - 1];
    var buy := BuyScore(cur, r, LongTermTrendScore(prices, ma), macd);
    var sell := SellScore(cur, r, HybridStrategy.ReturnOver(prices, 10));
    if buy >= 5.0 then HybridStrategy.DailyResult(HybridStrategy.Buy, MinReal(buy, 5.0), cur)
    else if sell >= 3.0 then HybridStrategy.DailyResult(HybridStrategy.Sell, MinReal(sell, 5.0), cur)
    else HybridStrategy.DailyResult(HybridStrategy.Hold, 0.0, cur)
  }

  /** `is_market_open` of autotrader.py, written with hours and minutes. */
  predicate MarketOpen(c: Clock)
  {
    c.weekday < 5 && c.Hour() >= 9 && !(c.Hour() > 15 || (c.Hour() == 15 && c.Minute() > 30))
  }

  /** It is the same interval as main.py's minute rule, 15:30 included. */
  lemma MarketOpenAsMinutes(c: Clock)
    requires c.Valid()
    ensures MarketOpen(c) <==> MainTrader.MarketOpen(c)
  {
    HourMinuteSplit(c);
  }

  const MaxDailyTrades: int := 100

  /** `check_risk_management`: the absolute daily P&L above the limit or more than 100 trades stops trading. */
  predicate RiskAllowed(dailyPnl: real, dailyLossLimit: real, tradeCount: int)
  {
    !(MacdSignals.Abs(dailyPnl) > dailyLossLimit) && !(tradeCount > MaxDailyTrades)
  }

  /** A gain counts against the limit exactly like a loss of the same size. */
  lemma RiskIsSymmetric(dailyPnl: real, dailyLossLimit: real, tradeCount: int)
    ensures RiskAllowed(dailyPnl, dailyLossLimit, tradeCount) == RiskAllowed(-dailyPnl, dailyLossLimit, tradeCount)
    ensures RiskAllowed(dailyPnl, dailyLossLimit, tradeCount) ==> -dailyLossLimit <= dailyPnl <= dailyLossLimit && tradeCount <= 100
  {
  }
}
