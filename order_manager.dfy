/**
 * Order pricing and sizing (trading_system/trading/order_manager.py; the
 * sizing and tick functions of autotrader.py are the same code). Prices are
 * KRW; the broker's float arithmetic is taken as exact.
 */
module OrderPricing {
  import opened Common

  /** `get_min_price_unit(price)`: the KRX tick size of the bracket holding `price`. */
  function MinPriceUnit(price: real): (tick: int)
    ensures tick in {1, 5, 10, 50, 100, 500, 1000}
    ensures tick == 1 <==> price < 1000.0
    ensures tick == 1000 <==> price >= 500000.0
  {
    if price < 1000.0 then 1
    else if price < 5000.0 then 5
    else if price < 10000.0 then 10
    else if price < 50000.0 then 50
    else if price < 100000.0 then 100
    else if price < 500000.0 then 500
    else 1000
  }

  /** The tick table never shrinks as the price grows. */
  lemma TickIsMonotone(p: real, q: real)
    requires p <= q
    ensures MinPriceUnit(p) <= MinPriceUnit(q)
  {
  }

  /** `int(price // unit) * unit` for a float price. */
  function RoundDown(price: real, unit: int): int
    requires unit > 0
  {
    (price / unit as real).Floor * unit
  }

  lemma RoundDownBounds(price: real, unit: int)
    requires unit > 0
    ensures RoundDown(price, unit) as real <= price < (RoundDown(price, unit) + unit) as real
    ensures unit in {1, 5, 10, 50, 100, 500, 1000} ==> RoundDown(price, unit) % unit == 0
  {
    var k := (price / unit as real).Floor;
    FloorQuotient(price, unit as real, k);
    CastProduct(k, unit);
    CastProduct(k + 1, unit);
    if unit in {1, 5, 10, 50, 100, 500, 1000} {
      MultipleOfTick(k, unit);
    }
  }

  lemma MultipleOfTick(k: int, u: int)
    requires u in {1, 5, 10, 50, 100, 500, 1000}
    ensures (k * u) % u == 0
  {
    if u == 1 { assert k * u == k; }
    else if u == 5 { assert k * u == k * 5; }
    else if u == 10 { assert k * u == k * 10; }
    else if u == 50 { assert k * u == k * 50; }
    else if u == 100 { assert k * u == k * 100; }
    else if u == 500 { assert k * u == k * 500; }
    else { assert k * u == k * 1000; }
  }

  lemma CastProduct(k: int, u: int)
    ensures (k * u) as real == (k as real) * (u as real)
  {
  }

  /** A multiple of the tick rounds down to itself. */
  lemma RoundDownOfMultiple(k: int, unit: int)
    requires unit > 0
    ensures RoundDown((k * unit) as real, unit) == k * unit
  {
    var u := unit as real;
    assert (k * unit) as real == (k as real) * u;
    assert ((k as real) * u) / u == k as real;
  }

  /** `adjust_to_price_unit(price)`: rounds a raw price down onto the tick grid; 1 for a non-positive price. */
  function AdjustToPriceUnit(price: real): (r: int)
    ensures price <= 0.0 ==> r == 1
    ensures price > 0.0 ==> r % MinPriceUnit(price) == 0
    ensures price > 0.0 ==> r as real <= price < (r + MinPriceUnit(price)) as real
  {
    if price <= 0.0 then 1
    else if price < 1000.0 then
      assert price.Floor as real <= price; Trunc(price)
    else if price < 5000.0 then RoundDownBounds(price, 5); RoundDown(price, 5)
    else if price < 10000.0 then RoundDownBounds(price, 10); RoundDown(price, 10)
    else if price < 50000.0 then RoundDownBounds(price, 50); RoundDown(price, 50)
    else if price < 100000.0 then RoundDownBounds(price, 100); RoundDown(price, 100)
    else if price < 500000.0 then RoundDownBounds(price, 500); RoundDown(price, 500)
    else RoundDownBounds(price, 1000); RoundDown(price, 1000)
  }

  /** Rounding down never leaves the bracket, because every bracket starts on a multiple of its own tick. */
  lemma AdjustStaysInBracket(price: real)
    requires price >= 1.0
    ensures AdjustToPriceUnit(price) >= 1
    ensures MinPriceUnit(AdjustToPriceUnit(price) as real) == MinPriceUnit(price)
  {
  }

  /** Re-adjusting an already adjusted price of at least 1 leaves it unchanged. */
  lemma AdjustIsIdempotent(price: real)
    requires price >= 1.0
    ensures AdjustToPriceUnit(AdjustToPriceUnit(price) as real) == AdjustToPriceUnit(price)
  {
    var r := AdjustToPriceUnit(price);
    AdjustStaysInBracket(price);
    var u := MinPriceUnit(price);
    if r >= 1000 {
      RoundDownOfMultiple(r / u, u);
      assert (r / u) * u == r;
    }
  }

  // ---- Position sizing ----

  const MinInvestment: real := 100000.0

  /** The share of the maximum investment that a signal strength of at least 0.5 buys. */
  function AllocationRatio(strength: real): real
  {
    if strength < 1.0 then 0.2
    else if strength < 2.0 then 0.4
    else if strength < 3.0 then 0.6
    else if strength < 4.0 then 0.8
    else 1.0
  }

  /** The amount to invest, or None where `calculate_position_size` returns 0 before dividing. */
  function Investment(cash: Option<real>, strength: real, maxPositionRatio: real): Option<real>
  {
    if cash.None? || cash.value == 0.0 || strength < 0.5 then None
    else
      var adjusted := cash.value * maxPositionRatio * AllocationRatio(strength);
      if adjusted < MinInvestment then (if cash.value >= MinInvestment then Some(MinInvestment) else None)
      else Some(adjusted)
  }

  /**
   * `calculate_position_size(current_price, signal_strength)` with the
   * orderable cash of the account response as `cash` (None when the account
   * query returned nothing or its cash field would not parse). A zero price
   * raises inside the `try` and also gives 0.
   */
  function PositionSize(cash: Option<real>, price: real, strength: real, maxPositionRatio: real): (q: int)
    ensures q >= 0
    ensures cash.None? || cash.value == 0.0 || strength < 0.5 || price <= 0.0 ==> q == 0
    ensures q > 0 ==> Investment(cash, strength, maxPositionRatio).Some?
    ensures q > 0 ==> (q as real) * price <= Investment(cash, strength, maxPositionRatio).value
    ensures Investment(cash, strength, maxPositionRatio).Some? && price > 0.0 ==>
              Investment(cash, strength, maxPositionRatio).value < ((q + 1) as real) * price
  {
    var inv := Investment(cash, strength, maxPositionRatio);
    if inv.None? || price == 0.0 then 0
    else
      var quantity := Trunc(inv.value / price);
      if price > 0.0 then
        QuotientFloorBounds(inv.value, price);
        if quantity >= 0 then quantity else 0
      else
        TruncOfNonPositive(inv.value / price);
        0
  }

  lemma QuotientFloorBounds(a: real, p: real)
    requires a >= 0.0 && p > 0.0
    ensures Trunc(a / p) >= 0
    ensures (Trunc(a / p) as real) * p <= a < ((Trunc(a / p) + 1) as real) * p
  {
    assert (a / p) * p == a;
    MulLe(0.0, a / p, p);
    FloorQuotient(a, p, (a / p).Floor);
  }

  lemma TruncOfNonPositive(x: real)
    requires x <= 0.0
    ensures Trunc(x) <= 0
  {
  }

  /** The investment, where it exists, is at least the 100,000 KRW floor. */
  lemma InvestmentAtLeastFloor(cash: Option<real>, strength: real, maxPositionRatio: real)
    requires Investment(cash, strength, maxPositionRatio).Some?
    ensures Investment(cash, strength, maxPositionRatio).value >= MinInvestment
  {
  }

  /** With a position ratio of at most 1 an order never costs more than the orderable cash. */
  lemma OrderFitsInCash(cash: real, price: real, strength: real, maxPositionRatio: real)
    requires cash > 0.0 && price > 0.0
    requires 0.0 <= maxPositionRatio <= 1.0
    ensures (PositionSize(Some(cash), price, strength, maxPositionRatio) as real) * price <= cash
  {
    var q := PositionSize(Some(cash), price, strength, maxPositionRatio);
    if q > 0 {
      var cm, ar := cash * maxPositionRatio, AllocationRatio(strength);
      assert 0.0 < ar <= 1.0;
      ScaleDown(cash, maxPositionRatio);
      ScaleDown(cm, ar);
      assert Investment(Some(cash), strength, maxPositionRatio).value <= cash;
    }
  }

  /** A stronger signal never invests less. */
  lemma InvestmentGrowsWithStrength(cash: Option<real>, weak: real, strong: real, maxPositionRatio: real)
    requires weak <= strong
    requires maxPositionRatio >= 0.0
    ensures Investment(cash, weak, maxPositionRatio).Some? ==>
              Investment(cash, strong, maxPositionRatio).Some?
              && Investment(cash, weak, maxPositionRatio).value <= Investment(cash, strong, maxPositionRatio).value
  {
    if Investment(cash, weak, maxPositionRatio).Some? {
      var c := cash.value;
      var rw, rs := AllocationRatio(weak), AllocationRatio(strong);
      assert rw <= rs;
      if c > 0.0 {
        MulLeLeft(c, 0.0, maxPositionRatio);
        MulLeLeft(c * maxPositionRatio, rw, rs);
      } else {
        MulLe(c, 0.0, maxPositionRatio);
        MulLe(c * maxPositionRatio, 0.0, rw);
        assert false;
      }
    }
  }

  /** Whole shares bought with budgets `a <= b` at one price: the smaller budget cannot buy more. */
  lemma CountFromCost(lo: int, hi: int, price: real, a: real, b: real)
    requires price > 0.0
    requires (lo as real) * price <= a <= b < ((hi + 1) as real) * price
    ensures lo <= hi
  {
    if hi < lo {
      MulLe((hi + 1) as real, lo as real, price);
    }
  }

  /** A stronger signal never buys fewer shares. */
  lemma SizeGrowsWithStrength(cash: Option<real>, price: real, weak: real, strong: real, maxPositionRatio: real)
    requires weak <= strong
    requires maxPositionRatio >= 0.0
    ensures PositionSize(cash, price, weak, maxPositionRatio) <= PositionSize(cash, price, strong, maxPositionRatio)
  {
    var lo := PositionSize(cash, price, weak, maxPositionRatio);
    var hi := PositionSize(cash, price, strong, maxPositionRatio);
    if lo > 0 {
      InvestmentGrowsWithStrength(cash, weak, strong, maxPositionRatio);
      var a := Investment(cash, weak, maxPositionRatio).value;
      var b := Investment(cash, strong, maxPositionRatio).value;
      assert price > 0.0;
      assert (lo as real) * price <= a;
      assert b < ((hi + 1) as real) * price;
      CountFromCost(lo, hi, price, a, b);
    }
  }

  // ---- Limit price ----

  /** `side` as the source compares it: "BUY" buys, any other value sells. */
  datatype Side = BuySide | SellSide

  datatype Urgency = Normal | Aggressive | Urgent

  /** The best quote from `get_current_bid_ask`; the spread is ask − bid. */
  datatype Quote = Quote(currentPrice: int, bidPrice: int, askPrice: int)
  {
    function Spread(): int { askPrice - bidPrice }
  }

  /** The price `calculate_smart_limit_price` computes from a quote before tick adjustment. */
  function RawLimitPrice(side: Side, urgency: Urgency, q: Quote): real
  {
    var fiveTicks := MinPriceUnit(q.currentPrice as real) * 5;
    match side
    case BuySide =>
      if urgency == Urgent then q.askPrice as real
      else if urgency == Aggressive then
        (q.askPrice + MaxInt(FloorDiv(q.Spread(), 4), MinPriceUnit(q.askPrice as real))) as real
      else if q.Spread() <= fiveTicks then q.askPrice as real
      else (q.currentPrice + q.askPrice) as real / 2.0
    case SellSide =>
      if urgency == Urgent then q.bidPrice as real
      else if urgency == Aggressive then
        (q.bidPrice - MaxInt(FloorDiv(q.Spread(), 4), MinPriceUnit(q.bidPrice as real))) as real
      else if q.Spread() <= fiveTicks then q.bidPrice as real
      else (q.currentPrice + q.bidPrice) as real / 2.0
  }

  function MaxInt(a: int, b: int): int { if a >= b then a else b }

  /**
   * `calculate_smart_limit_price(symbol, side, urgency)`. `quote` is the
   * bid/ask response (None when it came back empty) and `fallbackPrice` the
   * current price from the price query (None when that failed). None is the
   * exception the source raises.
   */
  function SmartLimitPrice(side: Side, urgency: Urgency, quote: Option<Quote>, fallbackPrice: Option<real>): (r: Option<int>)
    ensures quote.None? ==> (r.Some? <==> fallbackPrice.Some? && fallbackPrice.value > 0.0)
    ensures quote.None? && r.Some? ==>
              r.value == AdjustToPriceUnit(fallbackPrice.value * (if side == BuySide then 1.003 else 0.997))
    ensures quote.Some? ==> r.Some? && r.value >= 1
    ensures quote.Some? ==> r.value == MaxInt(AdjustToPriceUnit(RawLimitPrice(side, urgency, quote.value)), 1)
  {
    if quote.None? then
      if fallbackPrice.Some? && fallbackPrice.value > 0.0 then
        Some(AdjustToPriceUnit(fallbackPrice.value * (if side == BuySide then 1.003 else 0.997)))
      else None
    else
      Some(MaxInt(AdjustToPriceUnit(RawLimitPrice(side, urgency, quote.value)), 1))
  }

  /** Every limit price of at least 1 already lies on the tick grid, so the broker never sees an off-tick price. */
  lemma LimitPriceOnTickGrid(side: Side, urgency: Urgency, quote: Option<Quote>, fallbackPrice: Option<real>)
    requires SmartLimitPrice(side, urgency, quote, fallbackPrice).Some?
    requires SmartLimitPrice(side, urgency, quote, fallbackPrice).value >= 1
    ensures var p := SmartLimitPrice(side, urgency, quote, fallbackPrice).value;
            AdjustToPriceUnit(p as real) == p
  {
    var p := SmartLimitPrice(side, urgency, quote, fallbackPrice).value;
    var raw := if quote.None? then fallbackPrice.value * (if side == BuySide then 1.003 else 0.997)
               else RawLimitPrice(side, urgency, quote.value);
    if raw >= 1.0 {
      AdjustIsIdempotent(raw);
    }
  }

  /** An urgent buy never bids above the ask and an urgent sale never asks above the bid (for quotes of at least 1 KRW). */
  lemma UrgentOrdersCrossAtTheQuote(q: Quote)
    requires q.askPrice >= 1 && q.bidPrice >= 1
    ensures SmartLimitPrice(BuySide, Urgent, Some(q), None).value <= q.askPrice
    ensures SmartLimitPrice(SellSide, Urgent, Some(q), None).value <= q.bidPrice
  {
  }

  /** `place_order_with_strategy`'s strategy names and their urgencies; None for names outside the limit family. */
  function UrgencyFor(strategy: string): (u: Option<Urgency>)
    ensures u == Some(Normal) <==> strategy == "limit" || strategy == "patient_limit"
    ensures u == Some(Aggressive) <==> strategy == "aggressive_limit"
    ensures u == Some(Urgent) <==> strategy == "urgent"
  {
    if strategy == "limit" then Some(Normal)
    else if strategy == "aggressive_limit" then Some(Aggressive)
    else if strategy == "patient_limit" then Some(Normal)
    else if strategy == "urgent" then Some(Urgent)
    else None
  }

  /** The price `place_order_with_strategy` sends: 0 (a market order) for "market", unknown strategies and failed limit calculations. */
  function OrderPrice(strategy: string, side: Side, quote: Option<Quote>, fallbackPrice: Option<real>): (price: int)
    ensures strategy == "market" || UrgencyFor(strategy).None? ==> price == 0
    ensures UrgencyFor(strategy).Some? && SmartLimitPrice(side, UrgencyFor(strategy).value, quote, fallbackPrice).None? ==> price == 0
    ensures UrgencyFor(strategy).Some? && quote.Some? ==> price >= 1
    ensures UrgencyFor(strategy).Some? && SmartLimitPrice(side, UrgencyFor(strategy).value, quote, fallbackPrice).Some? ==>
              price == SmartLimitPrice(side, UrgencyFor(strategy).value, quote, fallbackPrice).value
  {
    if strategy == "market" then 0
    else match UrgencyFor(strategy)
      case None => 0
      case Some(u) =>
        match SmartLimitPrice(side, u, quote, fallbackPrice)
        case None => 0
        case Some(p) => p
  }
}
