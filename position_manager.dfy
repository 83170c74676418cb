/**
 * Per-symbol position bookkeeping and the buy/sell eligibility gates
 * (trading_system/trading/position_manager.py; autotrader.py keeps an
 * identical copy of the bookkeeping). Times are hours on one timeline; the
 * caller's wall clock enters as `now`.
 */
module PositionBook {
  import opened Common

  datatype OrderType = Buy | Sell

  /** One entry of a symbol's `purchases` log; `note` holds the strategy of a buy or the reason of a sale. */
  datatype TradeEvent = TradeEvent(timestamp: real, quantity: int, price: real, note: string, orderType: OrderType)

  datatype History = History(
    totalQuantity: int,
    purchaseCount: int,
    events: seq<TradeEvent>,
    lastPurchaseTime: Option<real>,
    firstPurchaseTime: Option<real>,
    closedTime: Option<real>)

  /** The entry `record_purchase` creates for a symbol it has not seen; also what `get(symbol, {})` defaults read as. */
  const NewHistory: History := History(0, 0, [], None, None, None)

  type Book = map<string, History>

  /** `position_history.get(symbol, {})` read through the field defaults. */
  function Lookup(book: Book, symbol: string): History
  {
    if symbol in book then book[symbol] else NewHistory
  }

  datatype Limits = Limits(maxPurchases: int, maxQuantity: int, minHoldingHours: real, cooldownHours: real)

  /** The constructor defaults of trading_system's PositionManager. */
  const DefaultLimits: Limits := Limits(2, 200, 24.0, 24.0)

  /** The history after `record_purchase(symbol, quantity, price, strategy)` at `now`. */
  function Purchased(book: Book, symbol: string, quantity: int, price: real, strategy: string, now: real): Book
  {
    var h := Lookup(book, symbol);
    book[symbol := h.(
      events := h.events + [TradeEvent(now, quantity, price, strategy, Buy)],
      totalQuantity := h.totalQuantity + quantity,
      purchaseCount := h.purchaseCount + 1,
      lastPurchaseTime := Some(now),
      firstPurchaseTime := if h.firstPurchaseTime.Some? then h.firstPurchaseTime else Some(now))]
  }

  /** The history after `record_sale(symbol, quantity, price, reason)` at `now`. */
  function Sold(book: Book, symbol: string, quantity: int, price: real, reason: string, now: real): Book
  {
    if symbol !in book then book
    else
      var h := book[symbol];
      var left := h.totalQuantity - quantity;
      book[symbol := h.(
        events := h.events + [TradeEvent(now, quantity, price, reason, Sell)],
        totalQuantity := if left <= 0 then 0 else left,
        closedTime := if left <= 0 then Some(now) else h.closedTime)]
  }

  class PositionManager {
    var history: Book
    const limits: Limits

    /** `loaded` is what `load_position_history` read from disk (empty when there is no file). */
    constructor (limits: Limits, loaded: Book)
      ensures this.limits == limits && history == loaded
    {
      this.limits := limits;
      history := loaded;
    }

    method RecordPurchase(symbol: string, quantity: int, price: real, strategy: string, now: real)
      modifies this
      ensures history == Purchased(old(history), symbol, quantity, price, strategy, now)
      ensures history.Keys == old(history).Keys + {symbol}
      ensures forall s :: s in old(history) && s != symbol ==> history[s] == old(history)[s]
      ensures history[symbol].totalQuantity == Lookup(old(history), symbol).totalQuantity + quantity
      ensures history[symbol].purchaseCount == Lookup(old(history), symbol).purchaseCount + 1
      ensures history[symbol].events == Lookup(old(history), symbol).events + [TradeEvent(now, quantity, price, strategy, Buy)]
      ensures history[symbol].lastPurchaseTime == Some(now)
      ensures Lookup(old(history), symbol).firstPurchaseTime.Some? ==>
                history[symbol].firstPurchaseTime == Lookup(old(history), symbol).firstPurchaseTime
      ensures Lookup(old(history), symbol).firstPurchaseTime.None? ==> history[symbol].firstPurchaseTime == Some(now)
      ensures history[symbol].closedTime == Lookup(old(history), symbol).closedTime
    {
      if symbol !in history {
        history := history[symbol := NewHistory];
      }
      var h := history[symbol];
      h := h.(events := h.events + [TradeEvent(now, quantity, price, strategy, Buy)]);
      h := h.(totalQuantity := h.totalQuantity + quantity);
      h := h.(purchaseCount := h.purchaseCount + 1);
      h := h.(lastPurchaseTime := Some(now));
      if h.firstPurchaseTime.None? {
        h := h.(firstPurchaseTime := Some(now));
      }
      history := history[symbol := h];
    }

    method RecordSale(symbol: string, quantity: int, price: real, reason: string, now: real)
      modifies this
      ensures history == Sold(old(history), symbol, quantity, price, reason, now)
      ensures symbol !in old(history) ==> history == old(history)
      ensures history.Keys == old(history).Keys
      ensures forall s :: s in old(history) && s != symbol ==> history[s] == old(history)[s]
      ensures symbol in old(history) ==>
                var was := old(history)[symbol];
                var h := history[symbol];
                && h.events == was.events + [TradeEvent(now, quantity, price, reason, Sell)]
                && h.totalQuantity == (if was.totalQuantity - quantity <= 0 then 0 else was.totalQuantity - quantity)
                && h.closedTime == (if was.totalQuantity - quantity <= 0 then Some(now) else was.closedTime)
                && h.purchaseCount == was.purchaseCount
                && h.firstPurchaseTime == was.firstPurchaseTime
                && h.lastPurchaseTime == was.lastPurchaseTime
    {
      if symbol in history {
        var h := history[symbol];
        h := h.(events := h.events + [TradeEvent(now, quantity, price, reason, Sell)]);
        h := h.(totalQuantity := h.totalQuantity - quantity);
        if h.totalQuantity <= 0 {
          h := h.(totalQuantity := 0, closedTime := Some(now));
        }
        history := history[symbol := h];
      }
    }

    /** `_get_recent_sales(symbol, days)`: the SELL records newer than `days` days before `now`, sorted by time. */
    method GetRecentSales(symbol: string, now: real, days: int) returns (sales: seq<TradeEvent>)
      ensures sales == RecentSales(history, symbol, now, days)
    {
      if symbol !in history {
        return [];
      }
      var cutoff := now - (days as real) * 24.0;
      var log := history[symbol].events;
      var picked: seq<TradeEvent> := [];
      var i := 0;
      while i < |log|
        invariant 0 <= i <= |log|
        invariant picked == SalesAfter(log[..i], cutoff)
      {
        SalesAfterStep(log, i, cutoff);
        if log[i].orderType == Sell && log[i].timestamp > cutoff {
          picked := picked + [log[i]];
        }
        i := i + 1;
      }
      assert log[..|log|] == log;
      assert picked == SalesAfter(history[symbol].events, now - (days as real) * 24.0);
      sales := SortByTime(picked);
    }
  }

  /** The SELL records of `log` strictly newer than `cutoff`, in log order. */
  function SalesAfter(log: seq<TradeEvent>, cutoff: real): seq<TradeEvent>
  {
    if log == [] then []
    else
      var last := log[|log| - 1];
      SalesAfter(log[..|log| - 1], cutoff) + (if last.orderType == Sell && last.timestamp > cutoff then [last] else [])
  }

  lemma SalesAfterStep(log: seq<TradeEvent>, i: nat, cutoff: real)
    requires i < |log|
    ensures SalesAfter(log[..i + 1], cutoff)
            == SalesAfter(log[..i], cutoff) + (if log[i].orderType == Sell && log[i].timestamp > cutoff then [log[i]] else [])
  {
    assert log[..i + 1][..i] == log[..i];
  }

  function RecentSales(book: Book, symbol: string, now: real, days: int): seq<TradeEvent>
  {
    if symbol !in book then [] else SortByTime(SalesAfter(book[symbol].events, now - (days as real) * 24.0))
  }

  /** Inserts `e` after every element not later than it, so equal timestamps keep their order (Python's sort is stable). */
  function InsertByTime(e: TradeEvent, sorted: seq<TradeEvent>): seq<TradeEvent>
  {
    if sorted == [] || e.timestamp < sorted[0].timestamp then [e] + sorted
    else [sorted[0]] + InsertByTime(e, sorted[1..])
  }

  /** `sorted(records, key=timestamp)` as an insertion sort. */
  function SortByTime(s: seq<TradeEvent>): seq<TradeEvent>
  {
    if s == [] then [] else InsertByTime(s[|s| - 1], SortByTime(s[..|s| - 1]))
  }

  predicate ChronologicallySorted(s: seq<TradeEvent>)
  {
    forall i, j :: 0 <= i < j < |s| ==> s[i].timestamp <= s[j].timestamp
  }

  /** Every element of the insertion is at or after a time that bounds `e` and `sorted` from below. */
  lemma {:induction false} InsertKeepsLowerBound(e: TradeEvent, sorted: seq<TradeEvent>, t: real)
    requires t <= e.timestamp && forall k :: 0 <= k < |sorted| ==> t <= sorted[k].timestamp
    ensures forall k :: 0 <= k < |InsertByTime(e, sorted)| ==> t <= InsertByTime(e, sorted)[k].timestamp
  {
    if !(sorted == [] || e.timestamp < sorted[0].timestamp) {
      InsertKeepsLowerBound(e, sorted[1..], t);
    }
  }

  lemma {:induction false} InsertByTimeKeepsOrder(e: TradeEvent, sorted: seq<TradeEvent>)
    requires ChronologicallySorted(sorted)
    ensures ChronologicallySorted(InsertByTime(e, sorted))
  {
    if !(sorted == [] || e.timestamp < sorted[0].timestamp) {
      var rest := sorted[1..];
      assert ChronologicallySorted(rest);
      InsertByTimeKeepsOrder(e, rest);
      InsertKeepsLowerBound(e, rest, sorted[0].timestamp);
    }
  }

  /** Insertion adds `e` and loses nothing. */
  lemma {:induction false} InsertByTimeAddsOne(e: TradeEvent, sorted: seq<TradeEvent>)
    ensures multiset(InsertByTime(e, sorted)) == multiset(sorted) + multiset{e}
  {
    if !(sorted == [] || e.timestamp < sorted[0].timestamp) {
      InsertByTimeAddsOne(e, sorted[1..]);
      assert sorted == [sorted[0]] + sorted[1..];
    }
  }

  /** `_get_recent_sales` returns the selected records in time order and loses or invents none of them. */
  lemma {:induction false} SortByTimeIsSortedPermutation(s: seq<TradeEvent>)
    ensures ChronologicallySorted(SortByTime(s))
    ensures multiset(SortByTime(s)) == multiset(s)
  {
    if s != [] {
      SortByTimeIsSortedPermutation(s[..|s| - 1]);
      InsertByTimeKeepsOrder(s[|s| - 1], SortByTime(s[..|s| - 1]));
      InsertByTimeAddsOne(s[|s| - 1], SortByTime(s[..|s| - 1]));
      assert s == s[..|s| - 1] + [s[|s| - 1]];
    }
  }

  /** Exactly the SELL records newer than the cutoff are selected: every selected record is one, and every such record of the log is selected. */
  lemma {:induction false} SalesAfterSelectsExactly(log: seq<TradeEvent>, cutoff: real)
    ensures forall e :: e in SalesAfter(log, cutoff) <==> e in log && e.orderType == Sell && e.timestamp > cutoff
  {
    if log != [] {
      SalesAfterSelectsExactly(log[..|log| - 1], cutoff);
      assert log == log[..|log| - 1] + [log[|log| - 1]];
    }
  }

  lemma RecentSalesAreRecentSells(book: Book, symbol: string, now: real, days: int)
    ensures ChronologicallySorted(RecentSales(book, symbol, now, days))
    ensures forall e :: e in RecentSales(book, symbol, now, days) <==>
      symbol in book && e in book[symbol].events && e.orderType == Sell && e.timestamp > now - (days as real) * 24.0
  {
    if symbol in book {
      var picked := SalesAfter(book[symbol].events, now - (days as real) * 24.0);
      SortByTimeIsSortedPermutation(picked);
      SalesAfterSelectsExactly(book[symbol].events, now - (days as real) * 24.0);
      forall e
        ensures e in SortByTime(picked) <==> e in picked
      {
        assert e in SortByTime(picked) <==> e in multiset(SortByTime(picked));
        assert e in picked <==> e in multiset(picked);
      }
    }
  }

  /** The outcome of `can_purchase_symbol`; each refusal carries what its message reports. */
  datatype PurchaseVerdict =
    | PurchaseAllowed
    | QuantityCapReached(current: int, cap: int)
    | PurchaseCountReached(count: int, cap: int)
    | InCooldown(remainingHours: real, lastSale: Option<TradeEvent>)

  /** True when the symbol was bought less than the cool-down before `now`. */
  predicate CoolingDown(lim: Limits, h: History, now: real)
  {
    h.lastPurchaseTime.Some? && now - h.lastPurchaseTime.value < lim.cooldownHours
  }

  /** `can_purchase_symbol(symbol, current_quantity)`: quantity cap, then purchase count, then cool-down; the first failure decides. */
  function PurchaseGate(lim: Limits, book: Book, symbol: string, currentQuantity: int, now: real): (v: PurchaseVerdict)
    ensures currentQuantity >= lim.maxQuantity ==> v == QuantityCapReached(currentQuantity, lim.maxQuantity)
    ensures currentQuantity < lim.maxQuantity && Lookup(book, symbol).purchaseCount >= lim.maxPurchases ==>
              v == PurchaseCountReached(Lookup(book, symbol).purchaseCount, lim.maxPurchases)
    ensures v.InCooldown? <==>
              currentQuantity < lim.maxQuantity && Lookup(book, symbol).purchaseCount < lim.maxPurchases
              && CoolingDown(lim, Lookup(book, symbol), now)
    ensures v.InCooldown? ==> v.remainingHours == lim.cooldownHours - (now - Lookup(book, symbol).lastPurchaseTime.value)
                              && v.remainingHours > 0.0
    ensures v.InCooldown? ==>
              var recent := RecentSales(book, symbol, now, 7);
              v.lastSale == if recent == [] then None else Some(recent[|recent| - 1])
    ensures v == PurchaseAllowed <==>
              currentQuantity < lim.maxQuantity && Lookup(book, symbol).purchaseCount < lim.maxPurchases
              && !CoolingDown(lim, Lookup(book, symbol), now)
  {
    var h := Lookup(book, symbol);
    if currentQuantity >= lim.maxQuantity then QuantityCapReached(currentQuantity, lim.maxQuantity)
    else if h.purchaseCount >= lim.maxPurchases then PurchaseCountReached(h.purchaseCount, lim.maxPurchases)
    else if CoolingDown(lim, h, now) then
      var recent := RecentSales(book, symbol, now, 7);
      InCooldown(lim.cooldownHours - (now - h.lastPurchaseTime.value),
                 if recent == [] then None else Some(recent[|recent| - 1]))
    else PurchaseAllowed
  }

  datatype SaleVerdict = SaleAllowed | NoPosition | HoldingTooShort(remainingHours: real)

  /** `can_sell_symbol(symbol, current_quantity)`: no position first, then the minimum holding time counted from the first purchase. */
  function SaleGate(lim: Limits, book: Book, symbol: string, currentQuantity: int, now: real): (v: SaleVerdict)
    ensures currentQuantity <= 0 ==> v == NoPosition
    ensures v.HoldingTooShort? <==>
              currentQuantity > 0 && Lookup(book, symbol).firstPurchaseTime.Some?
              && now - Lookup(book, symbol).firstPurchaseTime.value < lim.minHoldingHours
    ensures v.HoldingTooShort? ==> v.remainingHours == lim.minHoldingHours - (now - Lookup(book, symbol).firstPurchaseTime.value)
                                   && v.remainingHours > 0.0
    ensures v == SaleAllowed <==>
              currentQuantity > 0 && (Lookup(book, symbol).firstPurchaseTime.None?
                                      || now - Lookup(book, symbol).firstPurchaseTime.value >= lim.minHoldingHours)
    ensures symbol !in book && currentQuantity > 0 ==> v == SaleAllowed
  {
    var h := Lookup(book, symbol);
    if currentQuantity <= 0 then NoPosition
    else if h.firstPurchaseTime.Some? && now - h.firstPurchaseTime.value < lim.minHoldingHours then
      HoldingTooShort(lim.minHoldingHours - (now - h.firstPurchaseTime.value))
    else SaleAllowed
  }

  datatype PositionSummary = PositionSummary(
    totalQuantity: int, purchaseCount: int,
    firstPurchaseTime: Option<real>, lastPurchaseTime: Option<real>, isPositionClosed: bool)

  /** `get_position_summary(symbol)`. */
  function Summary(book: Book, symbol: string): (r: PositionSummary)
    ensures r.isPositionClosed <==> symbol in book && book[symbol].closedTime.Some?
    ensures symbol !in book ==> r == PositionSummary(0, 0, None, None, false)
    ensures symbol in book ==> r.totalQuantity == book[symbol].totalQuantity && r.purchaseCount == book[symbol].purchaseCount
  {
    var h := Lookup(book, symbol);
    PositionSummary(h.totalQuantity, h.purchaseCount, h.firstPurchaseTime, h.lastPurchaseTime, h.closedTime.Some?)
  }

  // ---- Sequences of bookkeeping calls ----

  datatype BookOp =
    | PurchaseOp(symbol: string, quantity: int, price: real, strategy: string, time: real)
    | SaleOp(symbol: string, quantity: int, price: real, reason: string, time: real)

  function Apply(book: Book, op: BookOp): Book
  {
    match op
    case PurchaseOp(s, q, p, st, t) => Purchased(book, s, q, p, st, t)
    case SaleOp(s, q, p, r, t) => Sold(book, s, q, p, r, t)
  }

  /** The book after the calls of `ops`, in order. */
  function Replay(book: Book, ops: seq<BookOp>): Book
    decreases ops
  {
    if ops == [] then book else Replay(Apply(book, ops[0]), ops[1..])
  }

  function PurchasesOf(ops: seq<BookOp>, symbol: string): nat
  {
    if ops == [] then 0
    else (if ops[0].PurchaseOp? && ops[0].symbol == symbol then 1 else 0) + PurchasesOf(ops[1..], symbol)
  }

  /** Only purchases count: `purchase_count` grows by one per `record_purchase` call on the symbol, whatever sales happen in between. */
  lemma {:induction false} PurchaseCountCountsPurchases(book: Book, ops: seq<BookOp>, symbol: string)
    ensures Lookup(Replay(book, ops), symbol).purchaseCount == Lookup(book, symbol).purchaseCount + PurchasesOf(ops, symbol)
    decreases ops
  {
    if ops != [] {
      PurchaseCountCountsPurchases(Apply(book, ops[0]), ops[1..], symbol);
    }
  }

  /** `first_purchase_time`, once set, is never overwritten by later purchases or sales. */
  lemma {:induction false} FirstPurchaseTimeIsStable(book: Book, ops: seq<BookOp>, symbol: string)
    requires Lookup(book, symbol).firstPurchaseTime.Some?
    ensures Lookup(Replay(book, ops), symbol).firstPurchaseTime == Lookup(book, symbol).firstPurchaseTime
    decreases ops
  {
    if ops != [] {
      FirstPurchaseTimeIsStable(Apply(book, ops[0]), ops[1..], symbol);
    }
  }

  predicate NonNegativeQuantities(book: Book)
  {
    forall s :: s in book ==> book[s].totalQuantity >= 0
  }

  /** The clamp in `record_sale` keeps every `total_quantity` non-negative as long as purchases add non-negative amounts. */
  lemma {:induction false} QuantitiesStayNonNegative(book: Book, ops: seq<BookOp>)
    requires NonNegativeQuantities(book)
    requires forall i :: 0 <= i < |ops| && ops[i].PurchaseOp? ==> ops[i].quantity >= 0
    ensures NonNegativeQuantities(Replay(book, ops))
    decreases ops
  {
    if ops != [] {
      QuantitiesStayNonNegative(Apply(book, ops[0]), ops[1..]);
    }
  }

  /** A purchase refuses further purchases of the symbol for the whole cool-down, unless an earlier check already refuses them. */
  lemma PurchaseStartsCooldown(lim: Limits, book: Book, symbol: string, quantity: int, price: real, strategy: string,
                               now: real, later: real, currentQuantity: int)
    requires now <= later < now + lim.cooldownHours
    ensures PurchaseGate(lim, Purchased(book, symbol, quantity, price, strategy, now), symbol, currentQuantity, later) != PurchaseAllowed
  {
  }

  /** From a fresh symbol, `maxPurchases` purchases exhaust the purchase allowance for good. */
  lemma PurchaseCapIsFinal(lim: Limits, ops: seq<BookOp>, symbol: string, currentQuantity: int, now: real)
    requires PurchasesOf(ops, symbol) >= lim.maxPurchases
    ensures PurchaseGate(lim, Replay(map[], ops), symbol, currentQuantity, now) != PurchaseAllowed
  {
    PurchaseCountCountsPurchases(map[], ops, symbol);
  }

  /** The holding period runs from the first purchase: while it lasts no later purchase or sale makes the symbol sellable. */
  lemma HoldingPeriodFromFirstPurchase(lim: Limits, book: Book, symbol: string, quantity: int, price: real, strategy: string,
                                       start: real, ops: seq<BookOp>, later: real, currentQuantity: int)
    requires Lookup(book, symbol).firstPurchaseTime.None?
    requires start <= later < start + lim.minHoldingHours
    ensures SaleGate(lim, Replay(Purchased(book, symbol, quantity, price, strategy, start), ops), symbol, currentQuantity, later) != SaleAllowed
  {
    FirstPurchaseTimeIsStable(Purchased(book, symbol, quantity, price, strategy, start), ops, symbol);
  }
}
