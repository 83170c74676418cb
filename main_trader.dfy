/**
 * The sell side of the trading loop in trading_system/main.py: the
 * priority of stop-loss, take-profit and the daily SELL signal in
 * `process_sell_for_symbol`, the bookkeeping of `execute_sell`, and the
 * market-hours rule of `is_market_open`.
 */
module MainTrader {
  import opened Common
  import PositionBook
  import HybridStrategy
  import SharpDecline

  /** An entry of `positions` / `all_positions` as the broker reports it; `profitLoss` is in percent. */
  datatype Position = Position(quantity: int, profitLoss: real, currentPrice: int)

  datatype SellDecision = KeepHolding | SellOrder(strategy: string, reason: string)

  /**
   * The decision of `process_sell_for_symbol`. `held` is whether the symbol
   * is still in `all_positions`, `gate` the answer of `can_sell_symbol`,
   * `tracked` whether the symbol is on the trading list, `daily` what
   * `analyze_daily_strategy` answers for it (only asked for tracked symbols).
   */
  function SellDecisionFor(held: bool, profitPct: real, stopLoss: real, takeProfit: real,
                           gate: PositionBook.SaleVerdict, tracked: bool, daily: HybridStrategy.DailyResult): (d: SellDecision)
    ensures !held ==> d == KeepHolding
    ensures held && profitPct / 100.0 <= -stopLoss ==> d == SellOrder("urgent", "손절매")
    ensures d == SellOrder("patient_limit", "익절매") <==>
              held && profitPct / 100.0 > -stopLoss && profitPct / 100.0 >= takeProfit && gate.SaleAllowed?
    ensures d == SellOrder("aggressive_limit", "일봉 매도신호") <==>
              held && profitPct / 100.0 > -stopLoss && !(profitPct / 100.0 >= takeProfit && gate.SaleAllowed?)
              && tracked && daily.signal.Sell? && daily.strength >= 3.0 && gate.SaleAllowed?
    ensures d.SellOrder? && d.strategy != "urgent" ==> gate.SaleAllowed?
    ensures d.SellOrder? ==> d.strategy in {"urgent", "patient_limit", "aggressive_limit"}
  {
    if !held then KeepHolding
    else if profitPct / 100.0 <= -stopLoss then SellOrder("urgent", "손절매")
    else if profitPct / 100.0 >= takeProfit && gate.SaleAllowed? then SellOrder("patient_limit", "익절매")
    else if tracked && daily.signal.Sell? && daily.strength >= 3.0 && gate.SaleAllowed? then
      SellOrder("aggressive_limit", "일봉 매도신호")
    else KeepHolding
  }

  /** A stop-loss outranks everything and ignores the holding period, whatever the other inputs are. */
  lemma StopLossOverridesHoldingPeriod(profitPct: real, stopLoss: real, takeProfit: real,
                                       gate: PositionBook.SaleVerdict, tracked: bool, daily: HybridStrategy.DailyResult)
    requires profitPct / 100.0 <= -stopLoss
    ensures SellDecisionFor(true, profitPct, stopLoss, takeProfit, gate, tracked, daily) ==
            SellDecisionFor(true, profitPct, stopLoss, takeProfit, PositionBook.HoldingTooShort(1.0), false, HybridStrategy.NoSignal)
  {
  }

  /** Without a stop-loss, a symbol bought less than the minimum holding time ago is never sold. */
  lemma HoldingPeriodBlocksOtherSells(lim: PositionBook.Limits, book: PositionBook.Book, symbol: string, p: Position,
                                      now: real, stopLoss: real, takeProfit: real, tracked: bool,
                                      daily: HybridStrategy.DailyResult)
    requires p.quantity > 0 && p.profitLoss / 100.0 > -stopLoss
    requires PositionBook.Lookup(book, symbol).firstPurchaseTime.Some?
    requires now - PositionBook.Lookup(book, symbol).firstPurchaseTime.value < lim.minHoldingHours
    ensures SellDecisionFor(true, p.profitLoss, stopLoss, takeProfit, PositionBook.SaleGate(lim, book, symbol, p.quantity, now),
                            tracked, daily) == KeepHolding
  {
    var gate := PositionBook.SaleGate(lim, book, symbol, p.quantity, now);
    assert gate.HoldingTooShort?;
  }

  /** `is_market_open` of main.py: weekdays from 09:00 up to and including the minute 15:30. */
  predicate MarketOpen(c: Clock)
  {
    c.weekday < 5 && 9 * 60 <= c.MinutesOfDay() <= 15 * 60 + 30
  }

  /** The closing minute 15:30 is open here and closed for the sharp-decline trader; every other minute agrees. */
  lemma ClosingMinuteDiffers(c: Clock)
    ensures MarketOpen(c) && !SharpDecline.MarketOpen(c) <==> c.weekday < 5 && c.MinutesOfDay() == 15 * 60 + 30
    ensures SharpDecline.MarketOpen(c) ==> MarketOpen(c)
  {
  }

  /** The answer of `place_order_with_strategy`: success and the limit price, when it reports one. */
  datatype OrderAnswer = OrderAnswer(success: bool, limitPrice: Option<int>)

  class Trader {
    var positions: map<string, Position>
    var allPositions: map<string, Position>
    const symbols: set<string>
    const stopLoss: real
    const takeProfit: real
    const pm: PositionBook.PositionManager

    /** The defaults of the trading configuration: stop-loss 8%, take-profit 25%. */
    constructor (symbols: set<string>, pm: PositionBook.PositionManager, positions: map<string, Position>,
                 allPositions: map<string, Position>)
      ensures this.symbols == symbols && this.pm == pm && this.positions == positions && this.allPositions == allPositions
      ensures stopLoss == 0.08 && takeProfit == 0.25
    {
      this.symbols := symbols;
      this.pm := pm;
      this.positions := positions;
      this.allPositions := allPositions;
      stopLoss := 0.08;
      takeProfit := 0.25;
    }

    /** `execute_sell`: on success the sale is recorded at the reported limit price (0 when there is none) and the symbol leaves both maps. */
    method ExecuteSell(symbol: string, quantity: int, reason: string, answer: OrderAnswer, now: real)
      modifies this, pm
      ensures answer.success ==>
                && pm.history == PositionBook.Sold(old(pm.history), symbol, quantity,
                                                   (if answer.limitPrice.Some? then answer.limitPrice.value else 0) as real,
                                                   reason, now)
                && positions == old(positions) - {symbol} && allPositions == old(allPositions) - {symbol}
      ensures !answer.success ==> pm.history == old(pm.history) && positions == old(positions) && allPositions == old(allPositions)
    {
      if answer.success {
        var price := if answer.limitPrice.Some? then answer.limitPrice.value else 0;
        pm.RecordSale(symbol, quantity, price as real, reason, now);
        if symbol in positions {
          positions := positions - {symbol};
        }
        if symbol in allPositions {
          allPositions := allPositions - {symbol};
        }
      }
    }

    /**
     * `process_sell_for_symbol(symbol, position)`: `daily` is the answer of
     * `analyze_daily_strategy`, `broker(strategy)` the answer to the sell
     * order placed with that strategy.
     */
    method ProcessSellForSymbol(symbol: string, position: Position, daily: HybridStrategy.DailyResult,
                                broker: string -> OrderAnswer, now: real)
      modifies this, pm
      ensures var d := SellDecisionFor(symbol in old(allPositions), position.profitLoss, stopLoss, takeProfit,
                                       PositionBook.SaleGate(pm.limits, old(pm.history), symbol, position.quantity, now),
                                       symbol in symbols, daily);
              && (d == KeepHolding || !broker(d.strategy).success ==>
                    pm.history == old(pm.history) && positions == old(positions) && allPositions == old(allPositions))
              && (d.SellOrder? && broker(d.strategy).success ==>
                    var price := broker(d.strategy).limitPrice;
                    && pm.history == PositionBook.Sold(old(pm.history), symbol, position.quantity,
                                                       (if price.Some? then price.value else 0) as real, d.reason, now)
                    && positions == old(positions) - {symbol} && allPositions == old(allPositions) - {symbol})
    {
      var gate := PositionBook.SaleGate(pm.limits, pm.history, symbol, position.quantity, now);
      var d := SellDecisionFor(symbol in allPositions, position.profitLoss, stopLoss, takeProfit, gate, symbol in symbols, daily);
      if d.SellOrder? {
        ExecuteSell(symbol, position.quantity, d.reason, broker(d.strategy), now);
      }
    }
  }
}
