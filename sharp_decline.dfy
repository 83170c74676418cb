/**
 * The sharp-decline strategy of trading_system/sharp_decline_trader.py: buy
 * a stock that opens 15% or more below the previous close between 09:00
 * and 09:30, and sell everything bought that way at 15:00.
 */
module SharpDecline {
  import opened Common

  const BuyStart: int := 9 * 60
  const BuyEnd: int := 9 * 60 + 30
  const SellHour: int := 15
  const SellMinute: int := 0
  const DeclineThreshold: real := 0.15
  const DryRunBudget: int := 1000000

  /** `is_in_buy_time_window`: the half-open minute interval from 09:00 to before 09:30. */
  predicate InBuyWindow(c: Clock)
  {
    BuyStart <= c.MinutesOfDay() < BuyEnd
  }

  /** `is_sell_time`: the single minute 15:00. */
  predicate IsSellTime(c: Clock)
  {
    c.Hour() == SellHour && c.Minute() == SellMinute
  }

  /** `is_market_open` of this trader: weekdays from 09:00 to before 15:30, so 15:30 itself is closed. */
  predicate MarketOpen(c: Clock)
  {
    c.weekday < 5 && 9 * 60 <= c.MinutesOfDay() < 15 * 60 + 30
  }

  /** The buy window is the minutes 09:00 to 09:29 and the sell time the minute 15:00, whatever the seconds. */
  lemma WindowsInHoursAndMinutes(c: Clock)
    requires c.Valid()
    ensures InBuyWindow(c) <==> c.Hour() == 9 && c.Minute() < 30
    ensures IsSellTime(c) <==> c.MinutesOfDay() == 15 * 60
  {
    HourMinuteSplit(c);
  }

  /** The time table of trading_system/test_sharp_decline_logic.py. */
  lemma TimeTableOfTheTestScript()
    ensures !InBuyWindow(Clock(0, At(8, 59))) && !IsSellTime(Clock(0, At(8, 59)))
    ensures InBuyWindow(Clock(0, At(9, 0))) && InBuyWindow(Clock(0, At(9, 15))) && InBuyWindow(Clock(0, At(9, 29)))
    ensures !InBuyWindow(Clock(0, At(9, 30))) && !InBuyWindow(Clock(0, At(14, 59)))
    ensures !IsSellTime(Clock(0, At(9, 15))) && !IsSellTime(Clock(0, At(9, 29))) && !IsSellTime(Clock(0, At(9, 30)))
    ensures !IsSellTime(Clock(0, At(9, 0))) && !IsSellTime(Clock(0, At(14, 59))) && !IsSellTime(Clock(0, At(15, 1)))
    ensures IsSellTime(Clock(0, At(15, 0))) && !InBuyWindow(Clock(0, At(15, 0)))
  {
  }

  datatype Tick = Wait | ScanForDeclines | SellAll

  /** One turn of the main loop of `run`: nothing outside market hours, a scan inside the buy window, the sale at 15:00 once. */
  function RunTick(c: Clock, soldToday: bool): (t: Tick)
    requires c.Valid()
    ensures t == ScanForDeclines ==> c.weekday < 5 && c.Hour() == 9 && c.Minute() < 30
    ensures t == SellAll <==> c.weekday < 5 && c.Hour() == 15 && c.Minute() == 0 && !soldToday
  {
    HourMinuteSplit(c);
    if !MarketOpen(c) then Wait
    else if InBuyWindow(c) then ScanForDeclines
    else if IsSellTime(c) && !soldToday then SellAll
    else Wait
  }

  /** The decline rule of `check_decline_and_buy`. */
  predicate IsSharpDecline(prevClose: int, current: int)
    requires prevClose != 0
  {
    ((current - prevClose) as real) / (prevClose as real) <= -DeclineThreshold
  }

  /** For a positive previous close, the rule buys exactly at 85% of it or below. */
  lemma SharpDeclineIsEightyFivePercent(prevClose: int, current: int)
    requires prevClose > 0
    ensures IsSharpDecline(prevClose, current) <==> (current as real) <= 0.85 * (prevClose as real)
  {
    var p, c := prevClose as real, current as real;
    var rate := (c - p) / p;
    assert IsSharpDecline(prevClose, current) == (rate <= -0.15);
    DivTimes(c - p, p);
    assert rate * p == c - p;
    if rate <= -0.15 {
      MulLe(rate, -0.15, p);
      assert c - p <= -0.15 * p;
      assert c <= 0.85 * p;
    } else {
      MulLt(-0.15, rate, p);
      assert -0.15 * p < c - p;
      assert c > 0.85 * p;
    }
  }

  /** The simulated quantity of a dry-run buy: `int(1000000 / current_price)`. */
  function DryRunQuantity(current: int): (q: int)
    requires current != 0
    ensures current > 0 ==> q >= 0 && q * current <= DryRunBudget < (q + 1) * current
  {
    var x := (DryRunBudget as real) / (current as real);
    if current > 0 then
      var k := x.Floor;
      FloorQuotient(DryRunBudget as real, current as real, k);
      assert (k as real) * (current as real) == (k * current) as real;
      assert ((k + 1) as real) * (current as real) == ((k + 1) * current) as real;
      k
    else Trunc(x)
  }

  /** The answer of `place_order_with_tracking`; absent entries are None. */
  datatype OrderResult = OrderResult(success: bool, limitPrice: Option<int>, quantity: Option<int>)

  datatype PurchasedStock = PurchasedStock(
    quantity: int, price: int, prevClose: int, declineRate: real, buyTime: real, strategy: string)

  /** The record a successful buy leaves: the broker's reported price and quantity, with `get`'s defaults. */
  function BoughtRecord(prevClose: int, current: int, dryRun: bool, live: OrderResult, now: real): (r: Option<PurchasedStock>)
    requires prevClose != 0 && current != 0
    ensures r.Some? <==> dryRun || live.success
    ensures r.Some? ==> r.value.strategy == "sharp_decline" && r.value.prevClose == prevClose && r.value.buyTime == now
    ensures r.Some? && dryRun ==> r.value.price == current && r.value.quantity == DryRunQuantity(current)
  {
    var rate := ((current - prevClose) as real) / (prevClose as real);
    if dryRun then Some(PurchasedStock(DryRunQuantity(current), current, prevClose, rate, now, "sharp_decline"))
    else if live.success then
      Some(PurchasedStock(if live.quantity.Some? then live.quantity.value else 0,
                          if live.limitPrice.Some? then live.limitPrice.value else current,
                          prevClose, rate, now, "sharp_decline"))
    else None
  }

  /**
   * Whether `sell_purchased_today` removes the entry of `code`, bought at
   * `buyPrice`: it is not in the account, or its sell succeeds (always in a
   * dry run) and the profit percentage can be computed. A buy price of 0
   * makes that percentage divide by zero; the handler logs the error and the
   * entry stays.
   */
  predicate RemovedAtSell(code: string, buyPrice: int, holdings: Option<set<string>>, dryRun: bool, liveSellOk: string -> bool)
  {
    (holdings.Some? && code !in holdings.value) || ((dryRun || liveSellOk(code)) && buyPrice != 0)
  }

  /**
   * The buy branch as the code stands: in live mode the order call names
   * `place_order_with_tracking`, which the order manager does not define, so
   * the call raises, the handler logs it and nothing is recorded.
   */
  function BoughtRecordAsWritten(prevClose: int, current: int, dryRun: bool, now: real): (r: Option<PurchasedStock>)
    requires prevClose != 0 && current != 0
    ensures r.Some? <==> dryRun
    ensures forall live :: dryRun ==> r == BoughtRecord(prevClose, current, dryRun, live, now)
  {
    if dryRun then
      var rate := ((current - prevClose) as real) / (prevClose as real);
      Some(PurchasedStock(DryRunQuantity(current), current, prevClose, rate, now, "sharp_decline"))
    else None
  }

  /**
   * The sale as the code stands: a live sell raises in the order call, so
   * only a stock missing from the account, or a dry-run sale with a non-zero
   * buy price, is removed.
   */
  predicate RemovedAtSellAsWritten(code: string, buyPrice: int, holdings: Option<set<string>>, dryRun: bool)
  {
    (holdings.Some? && code !in holdings.value) || (dryRun && buyPrice != 0)
  }

  /**
   * A live buy at a 20% decline whose order succeeds: the intended rule
   * records it, the code as written records nothing; and a live sale that
   * succeeds removes a held stock only in the intended rule.
   */
  lemma LiveOrdersLostAsWritten()
    ensures IsSharpDecline(10000, 8000)
    ensures BoughtRecord(10000, 8000, false, OrderResult(true, Some(8000), Some(125)), 0.0).Some?
    ensures BoughtRecordAsWritten(10000, 8000, false, 0.0).None?
    ensures RemovedAtSell("005930", 8000, Some({"005930"}), false, c => true)
    ensures !RemovedAtSellAsWritten("005930", 8000, Some({"005930"}), false)
  {
    SharpDeclineIsEightyFivePercent(10000, 8000);
  }

  class SharpDeclineTrader {
    var purchased: map<string, PurchasedStock>
    const dryRun: bool

    /** `loaded` is today's `purchased_stocks_<date>.json`, empty when there is none. */
    constructor (dryRun: bool, loaded: map<string, PurchasedStock>)
      ensures this.dryRun == dryRun && purchased == loaded
    {
      this.dryRun := dryRun;
      purchased := loaded;
    }

    /**
     * `check_decline_and_buy(code, name, prev_close)`: `quote` is the current
     * price the broker reports (None when it reports nothing), `live` the
     * answer to the market buy order in live mode.
     */
    method CheckDeclineAndBuy(code: string, prevClose: int, quote: Option<int>, live: OrderResult, now: real)
      modifies this
      ensures code in old(purchased) || quote.None? || quote.value == 0 || prevClose == 0 ==> purchased == old(purchased)
      ensures code !in old(purchased) && quote.Some? && quote.value != 0 && prevClose != 0 ==>
                var bought := BoughtRecord(prevClose, quote.value, dryRun, live, now);
                if IsSharpDecline(prevClose, quote.value) && bought.Some? then purchased == old(purchased)[code := bought.value]
                else purchased == old(purchased)
    {
      if code in purchased || quote.None? || quote.value == 0 || prevClose == 0 {
        return;
      }
      var current := quote.value;
      if IsSharpDecline(prevClose, current) {
        var bought := BoughtRecord(prevClose, current, dryRun, live, now);
        if bought.Some? {
          purchased := purchased[code := bought.value];
        }
      }
    }

    /**
     * `sell_purchased_today`: `holdings` is the account's stock set, None
     * when that query fails; `liveSellOk(code)` is whether the market sell
     * order for `code` succeeds in live mode.
     */
    method SellPurchasedToday(holdings: Option<set<string>>, liveSellOk: string -> bool)
      modifies this
      ensures purchased == map k | k in old(purchased) && !RemovedAtSell(k, old(purchased)[k].price, holdings, dryRun, liveSellOk) :: old(purchased)[k]
    {
      ghost var start := purchased;
      var remaining := purchased.Keys;
      while remaining != {}
        invariant remaining <= start.Keys
        invariant purchased.Keys <= start.Keys
        invariant forall k :: k in purchased <==> k in start && (k in remaining || !RemovedAtSell(k, start[k].price, holdings, dryRun, liveSellOk))
        invariant forall k :: k in purchased ==> purchased[k] == start[k]
        decreases remaining
      {
        var code :| code in remaining;
        var buyPrice := purchased[code].price;
        if holdings.Some? && code !in holdings.value {
          purchased := purchased - {code};
        } else if (dryRun || liveSellOk(code)) && buyPrice != 0 {
          purchased := purchased - {code};
        }
        remaining := remaining - {code};
      }
    }
  }

  /**
   * What is left after the 15:00 sale: exactly the stocks still held whose
   * sell failed or whose buy price is 0, with their records untouched.
   */
  function LeftAfterSale(purchased: map<string, PurchasedStock>, holdings: Option<set<string>>, dryRun: bool,
                         liveSellOk: string -> bool): (left: map<string, PurchasedStock>)
    ensures forall k :: k in left <==> k in purchased && (holdings.None? || k in holdings.value)
                                       && ((!dryRun && !liveSellOk(k)) || purchased[k].price == 0)
    ensures forall k :: k in left ==> left[k] == purchased[k]
  {
    map k | k in purchased && !RemovedAtSell(k, purchased[k].price, holdings, dryRun, liveSellOk) :: purchased[k]
  }

  /**
   * A dry run leaves only the held records bought at price 0, so a list of
   * priced records empties; and the list never gains an entry at the sale.
   */
  lemma DryRunSellsEveryPricedStock(purchased: map<string, PurchasedStock>, holdings: Option<set<string>>,
                                    liveSellOk: string -> bool)
    ensures LeftAfterSale(purchased, holdings, true, liveSellOk)
            == map k | k in purchased && (holdings.None? || k in holdings.value) && purchased[k].price == 0 :: purchased[k]
    ensures (forall k :: k in purchased ==> purchased[k].price != 0) ==> LeftAfterSale(purchased, holdings, true, liveSellOk) == map[]
    ensures LeftAfterSale(purchased, holdings, false, liveSellOk).Keys <= purchased.Keys
  {
    var left := LeftAfterSale(purchased, holdings, true, liveSellOk);
    if forall k :: k in purchased ==> purchased[k].price != 0 {
      assert left.Keys == {};
    }
  }

  /** A held record bought at price 0 survives a dry-run sale: its profit percentage divides by zero. */
  lemma ZeroPriceRecordSurvivesSale()
    ensures var rec := PurchasedStock(10, 0, 10000, -0.2, 0.0, "sharp_decline");
            LeftAfterSale(map["005930" := rec], Some({"005930"}), true, c => true) == map["005930" := rec]
  {
    var rec := PurchasedStock(10, 0, 10000, -0.2, 0.0, "sharp_decline");
    var left := LeftAfterSale(map["005930" := rec], Some({"005930"}), true, c => true);
    assert left.Keys == {"005930"};
  }
}
