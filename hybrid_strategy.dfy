/**
 * The hybrid strategy of trading_system/strategy/hybrid_strategy.py: a daily
 * BUY/SELL/HOLD signal, a minute-bar timing check for the chosen side, the
 * gate that combines them, the order-strategy choice and the 4-hour cache
 * of daily analyses. Indicator values pandas computes with rolling windows
 * (RSI) enter as given reals; the moving averages and window extremes of
 * closing prices are computed here.
 */
module HybridStrategy {
  import opened Common
  import MacdSignals
  import OrderPricing

  datatype Signal = Buy | Sell | Hold

  /** The part of the daily-analysis dictionary the rest of the program reads. */
  datatype DailyResult = DailyResult(signal: Signal, strength: real, currentPrice: real)

  const NoSignal: DailyResult := DailyResult(Hold, 0.0, 0.0)

  /** The last `k` elements (all of them when there are fewer). */
  function Last(s: seq<real>, k: nat): (t: seq<real>)
    ensures |t| == (if k < |s| then k else |s|)
  {
    if k < |s| then s[|s| - k..] else s
  }

  /** `returns.get(f'{days}d', 0)`: the return over `days` bars when more than `days` bars exist, else 0. */
  function ReturnOver(prices: seq<real>, days: nat): real
    requires AllPositive(prices)
  {
    var n := |prices|;
    if n > days then (prices[n - 1] - prices[n - days - 1]) / prices[n - days - 1] else 0.0
  }

  function Points(c: bool, p: int): int { if c then p else 0 }

  function RealPoints(c: bool, p: real): real { if c then p else 0.0 }

  /** `trend_score` of `generate_daily_signal`: 1 for a 5-day return above 2%, 1 for a 10-day return above 5%, 2 for a 20-day return above 10%. */
  function TrendScore(prices: seq<real>): int
    requires AllPositive(prices)
  {
    Points(ReturnOver(prices, 5) > 0.02, 1) + Points(ReturnOver(prices, 10) > 0.05, 1) + Points(ReturnOver(prices, 20) > 0.1, 2)
  }

  /** The trend score never reaches 6, so the "strong up-trend" tier of the buy score can never fire. */
  lemma TrendScoreAtMostFour(prices: seq<real>)
    requires AllPositive(prices)
    ensures 0 <= TrendScore(prices) <= 4
  {
  }

  /** The current price relative to the highest close of the last 252 bars. */
  function PricePosition52(prices: seq<real>): real
    requires |prices| > 0 && AllPositive(prices)
  {
    var w := Last(prices, 252);
    assert w[|w| - 1] == prices[|prices| - 1];
    ExtremesBound(w);
    prices[|prices| - 1] / MaxOf(w)
  }

  /** The current price is one of the closes the 52-week high is taken over, so its position is in (0, 1]. */
  lemma PricePositionInUnitInterval(prices: seq<real>)
    requires |prices| > 0 && AllPositive(prices)
    ensures 0.0 < PricePosition52(prices) <= 1.0
  {
    var w := Last(prices, 252);
    assert w[|w| - 1] == prices[|prices| - 1];
    ExtremesBound(w);
    var cur, high := prices[|prices| - 1], MaxOf(w);
    assert 0.0 < cur <= high;
    FractionAtMostOne(cur, high);
    assert cur / high > 0.0;
  }

  function DailyBuyScore(prices: seq<real>, rsi: real, macd: MacdSignals.CrossReport): real
    requires |prices| > 0 && AllPositive(prices)
  {
    var pp := PricePosition52(prices);
    var t := TrendScore(prices);
    (if pp <= 0.3 then 4.0 else if pp <= 0.5 then 3.0 else if pp <= 0.7 then 1.0 else 0.0)
    + (if t >= 6 then 2.0 else if t >= 4 then 1.5 else if t >= 2 then 1.0 else 0.0)
    + RealPoints(macd.goldenCross && macd.signalAge <= 10, 1.5)
    + RealPoints(30.0 <= rsi <= 50.0, 1.0)
  }

  function DailySellScore(prices: seq<real>, rsi: real, ma20: real): real
    requires |prices| > 0 && AllPositive(prices)
  {
    RealPoints(rsi > 75.0, 2.0) + RealPoints(prices[|prices| - 1] < ma20, 2.0) + RealPoints(ReturnOver(prices, 10) < -0.1, 2.0)
  }

  /**
   * `generate_daily_signal` on the daily closes (the last one is the
   * current price): HOLD near the 52-week high; otherwise BUY on a buy score
   * of 4, overridden by SELL on a sell score of 3.
   */
  function DailySignal(prices: seq<real>, rsi: real, ma20: real, macd: MacdSignals.CrossReport): (r: DailyResult)
    requires |prices| > 0 && AllPositive(prices)
    ensures r.currentPrice == prices[|prices| - 1]
    ensures PricePosition52(prices) > 0.9 ==> r.signal == Hold && r.strength == 0.0
    ensures PricePosition52(prices) <= 0.9 ==>
              && (r.signal == Sell <==> DailySellScore(prices, rsi, ma20) >= 3.0)
              && (r.signal == Buy <==> DailyBuyScore(prices, rsi, macd) >= 4.0 && DailySellScore(prices, rsi, ma20) < 3.0)
              && (r.signal == Sell ==> r.strength == MinReal(DailySellScore(prices, rsi, ma20), 5.0))
              && (r.signal == Buy ==> r.strength == MinReal(DailyBuyScore(prices, rsi, macd), 5.0))
    ensures r.signal == Hold <==> r.strength == 0.0
    ensures 0.0 <= r.strength <= 5.0
  {
    var cur := prices[|prices| - 1];
    if PricePosition52(prices) > 0.9 then DailyResult(Hold, 0.0, cur)
    else
      var buy := DailyBuyScore(prices, rsi, macd);
      var sell := DailySellScore(prices, rsi, ma20);
      if sell >= 3.0 then DailyResult(Sell, MinReal(sell, 5.0), cur)
      else if buy >= 4.0 then DailyResult(Buy, MinReal(buy, 5.0), cur)
      else DailyResult(Hold, 0.0, cur)
  }

  // ---- Minute-bar timing ----

  /** The minute frame of `find_optimal_entry_timing`: closes, volumes and the RSI of the last bar. */
  datatype MinuteBars = MinuteBars(prices: seq<real>, volumes: seq<real>, rsi: real)
  {
    predicate Valid() { |volumes| == |prices| && AllPositive(prices) }
  }

  /** A timing verdict. `pricePosition` and `minuteRsi` are present exactly when the source's dictionary carries them; `TimingFailed` is a raised exception. */
  datatype TimingResult =
    | Timing(execute: bool, score: int, pricePosition: Option<real>, minuteRsi: Option<real>)
    | TimingFailed

  function Executes(t: TimingResult): bool { t.Timing? && t.execute }

  /** The current price relative to the highest of the last 20 closes, when there are 20. */
  function PricePosition20(b: MinuteBars, current: real): Option<real>
    requires b.Valid()
  {
    var n := |b.prices|;
    if n >= 20 then
      var w := b.prices[n - 20..];
      ExtremesBound(w);
      assert w[0] > 0.0;
      Some(current / MaxOf(w))
    else None
  }

  /** The volume points of `evaluate_buy_timing`: -2 for a surge above 5x the 20-bar mean, +1 for 1.5x to 3x. */
  function BuyVolumePoints(b: MinuteBars): int
    requires b.Valid()
  {
    var n := |b.prices|;
    if n >= 20 then
      var avg := Mean(b.volumes[n - 20..]);
      var ratio := if avg > 0.0 then b.volumes[n - 1] / avg else 1.0;
      if ratio > 5.0 then -2 else if 1.5 <= ratio <= 3.0 then 1 else 0
    else 0
  }

  function BuyTimingScore(b: MinuteBars, current: real): int
    requires b.Valid()
  {
    var pp := PricePosition20(b, current);
    (if pp.Some? && pp.value <= 0.7 then 3 else if pp.Some? && pp.value <= 0.85 then 2 else 0)
    + (if 30.0 <= b.rsi <= 60.0 then 2 else if b.rsi < 30.0 then 3 else 0)
    + BuyVolumePoints(b)
  }

  /** The 5-bar rise in percent, measured against the close six bars back. */
  function Rise5(b: MinuteBars, current: real): real
    requires b.Valid() && |b.prices| >= 6
  {
    (current / b.prices[|b.prices| - 6] - 1.0) * 100.0
  }

  /**
   * `evaluate_buy_timing`. A frame of exactly five bars passes the
   * `len(df) >= 5` guard but has no bar six back, so the lookup raises.
   */
  function BuyTiming(b: MinuteBars, current: real): (r: TimingResult)
    requires b.Valid()
    ensures var pp := PricePosition20(b, current);
            var rejected := (pp.Some? && pp.value > 0.95) || b.rsi > 70.0 || (|b.prices| >= 6 && Rise5(b, current) > 3.0);
            && (r.TimingFailed? <==> !rejected && |b.prices| == 5)
            && (rejected ==> r.Timing? && !r.execute && r.score == 0)
            && (!rejected && |b.prices| != 5 ==> r.Timing? && (r.execute <==> r.score >= 4) && r.score == BuyTimingScore(b, current))
            && (r.Timing? && r.execute ==> r.pricePosition.Some? && r.minuteRsi == Some(b.rsi))
    ensures r.Timing? ==> -2 <= r.score <= 8
  {
    var n := |b.prices|;
    var pp := PricePosition20(b, current);
    if pp.Some? && pp.value > 0.95 then Timing(false, 0, pp, None)
    else if b.rsi > 70.0 then Timing(false, 0, None, Some(b.rsi))
    else if n == 5 then TimingFailed
    else if n >= 6 && Rise5(b, current) > 3.0 then Timing(false, 0, None, None)
    else
      var score := BuyTimingScore(b, current);
      Timing(score >= 4, score, Some(if pp.Some? then pp.value else 1.0), Some(b.rsi))
  }

  function SellTimingScore(b: MinuteBars, current: real): int
    requires b.Valid() && |b.prices| >= 5
  {
    var n := |b.prices|;
    var ma5 := Mean(b.prices[n - 5..]);
    var downTrend := n >= 20 && ma5 < Mean(b.prices[n - 20..]);
    var change := (current - b.prices[n - 5]) / b.prices[n - 5];
    var volumeSurge := n >= 10 && Mean(b.volumes[n - 10..]) > 0.0 && b.volumes[n - 1] / Mean(b.volumes[n - 10..]) > 3.0;
    Points(downTrend, 2) + Points(b.rsi > 65.0, 2) + Points(change < -0.015, 3) + Points(volumeSurge, 2)
  }

  /** `evaluate_sell_timing`: execute on a score of 3; a 20-bar moving average that does not exist yet compares false. */
  function SellTiming(b: MinuteBars, current: real): (r: TimingResult)
    requires b.Valid() && |b.prices| >= 5
    ensures r.Timing? && r.score == SellTimingScore(b, current) && (r.execute <==> r.score >= 3)
    ensures 0 <= r.score <= 9
  {
    var score := SellTimingScore(b, current);
    Timing(score >= 3, score, None, Some(b.rsi))
  }

  /** No single two-point sell condition suffices: a sell needs the sharp drop or two conditions together. */
  lemma SellNeedsDropOrTwoSignals(b: MinuteBars, current: real)
    requires b.Valid() && |b.prices| >= 5
    ensures var n := |b.prices|;
            var change := (current - b.prices[n - 5]) / b.prices[n - 5];
            SellTiming(b, current).execute ==> change < -0.015 || SellTimingScore(b, current) >= 4
  {
  }

  /** `find_optimal_entry_timing`: fewer than 20 minute bars give no execution; otherwise the timing check of the signal's side. */
  function EntryTiming(target: Signal, b: MinuteBars, current: real): (r: TimingResult)
    requires b.Valid()
    ensures |b.prices| < 20 ==> !Executes(r)
    ensures |b.prices| >= 20 && target == Buy ==> r == BuyTiming(b, current)
    ensures |b.prices| >= 20 && target != Buy ==> r == SellTiming(b, current)
    ensures |b.prices| >= 20 ==> r.Timing?
  {
    if |b.prices| < 20 then Timing(false, 0, None, None)
    else if target == Buy then BuyTiming(b, current)
    else SellTiming(b, current)
  }

  /** `determine_order_strategy` on a timing dictionary, with its defaults 1.0 and 50 for missing entries. */
  function OrderStrategy(t: TimingResult): (s: string)
    requires t.Timing?
    ensures s in {"aggressive_limit", "patient_limit", "limit"}
    ensures var pp := if t.pricePosition.Some? then t.pricePosition.value else 1.0;
            var rsi := if t.minuteRsi.Some? then t.minuteRsi.value else 50.0;
            && (s == "aggressive_limit" <==> pp <= 0.7 && rsi < 40.0)
            && (s == "patient_limit" <==> !(pp <= 0.7 && rsi < 40.0) && t.score >= 4)
  {
    var pp := if t.pricePosition.Some? then t.pricePosition.value else 1.0;
    var rsi := if t.minuteRsi.Some? then t.minuteRsi.value else 50.0;
    if pp <= 0.7 && rsi < 40.0 then "aggressive_limit"
    else if t.score >= 4 then "patient_limit"
    else "limit"
  }

  /** Every strategy the hybrid strategy picks is one the order manager prices as a limit order. */
  lemma OrderStrategyIsPriced(t: TimingResult)
    requires t.Timing?
    ensures OrderPricing.UrgencyFor(OrderStrategy(t)).Some?
  {
  }

  // ---- execute_hybrid_trade ----

  datatype TradeStep = NoTrade | PlaceBuy | PlaceSell

  /** The gate of `execute_hybrid_trade`: a daily signal of strength 3 and a timing check that executes. */
  function HybridStep(daily: DailyResult, timing: TimingResult): (s: TradeStep)
    ensures s != NoTrade <==> daily.signal != Hold && daily.strength >= 3.0 && Executes(timing)
    ensures s == PlaceBuy <==> s != NoTrade && daily.signal == Buy
  {
    if daily.signal == Hold || daily.strength < 3.0 then NoTrade
    else if !Executes(timing) then NoTrade
    else if daily.signal == Buy then PlaceBuy
    else PlaceSell
  }

  /** A trade is placed only on the side of a daily signal that escaped the 52-week-high filter. */
  lemma TradeOnlyBelowHigh(prices: seq<real>, rsi: real, ma20: real, macd: MacdSignals.CrossReport, timing: TimingResult)
    requires |prices| > 0 && AllPositive(prices)
    requires PricePosition52(prices) > 0.9
    ensures HybridStep(DailySignal(prices, rsi, ma20, macd), timing) == NoTrade
  {
  }

  // ---- analyze_daily_strategy ----

  /** The daily frame: the closes, and the RSI, 20-day moving average and MACD report of its last row. */
  datatype DailyData = DailyData(prices: seq<real>, rsi: real, ma20: real, macd: MacdSignals.CrossReport)

  const CacheHours: real := 4.0
  const MinDailyRows: int := 100

  /** The cache state `analyze_daily_strategy` keeps: the last result and the time of the last analysis per symbol. */
  datatype CacheState = CacheState(cache: map<string, DailyResult>, lastAnalysis: map<string, real>)

  predicate Cached(c: CacheState, symbol: string, now: real)
  {
    symbol in c.lastAnalysis && now - c.lastAnalysis[symbol] < CacheHours
  }

  /** One call of `analyze_daily_strategy`: its result and the cache afterwards. */
  function Analyze(c: CacheState, symbol: string, now: real, data: DailyData): (DailyResult, CacheState)
    requires AllPositive(data.prices)
  {
    if Cached(c, symbol, now) then (if symbol in c.cache then c.cache[symbol] else NoSignal, c)
    else if |data.prices| < MinDailyRows then (NoSignal, c)
    else
      var r := DailySignal(data.prices, data.rsi, data.ma20, data.macd);
      (r, CacheState(c.cache[symbol := r], c.lastAnalysis[symbol := now]))
  }

  /** Within four hours of a fresh analysis, asking again returns the same result, whatever the broker now returns. */
  lemma CachedWithinFourHours(c: CacheState, symbol: string, t: real, data: DailyData, later: real, newData: DailyData)
    requires AllPositive(data.prices) && AllPositive(newData.prices)
    requires !Cached(c, symbol, t) && |data.prices| >= MinDailyRows
    requires t <= later < t + CacheHours
    ensures var (first, c1) := Analyze(c, symbol, t, data);
            var (second, c2) := Analyze(c1, symbol, later, newData);
            second == first && c2 == c1
  {
  }

  /** Once four hours have passed, the analysis is redone on the new data. */
  lemma RefreshedAfterFourHours(c: CacheState, symbol: string, t: real, data: DailyData, later: real, newData: DailyData)
    requires AllPositive(data.prices) && AllPositive(newData.prices)
    requires !Cached(c, symbol, t) && |data.prices| >= MinDailyRows
    requires later >= t + CacheHours && |newData.prices| >= MinDailyRows
    ensures var (_, c1) := Analyze(c, symbol, t, data);
            Analyze(c1, symbol, later, newData).0 == DailySignal(newData.prices, newData.rsi, newData.ma20, newData.macd)
  {
  }

  class DailyAnalyzer {
    var cache: map<string, DailyResult>
    var lastAnalysis: map<string, real>

    constructor ()
      ensures cache == map[] && lastAnalysis == map[]
    {
      cache := map[];
      lastAnalysis := map[];
    }

    /**
     * `analyze_daily_strategy(symbol)` at time `now` (hours), `data` being
     * the daily frame the broker returns.
     */
    method AnalyzeDailyStrategy(symbol: string, now: real, data: DailyData) returns (r: DailyResult)
      requires AllPositive(data.prices)
      modifies this
      ensures (r, CacheState(cache, lastAnalysis)) == Analyze(CacheState(old(cache), old(lastAnalysis)), symbol, now, data)
    {
      if symbol in lastAnalysis && now - lastAnalysis[symbol] < CacheHours {
        r := if symbol in cache then cache[symbol] else NoSignal;
        return;
      }
      if |data.prices| < MinDailyRows {
        return NoSignal;
      }
      r := DailySignal(data.prices, data.rsi, data.ma20, data.macd);
      cache := cache[symbol := r];
      lastAnalysis := lastAnalysis[symbol := now];
    }
  }
}
