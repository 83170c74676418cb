/**
 * The pending-order tracker (trading_system/trading/order_tracker.py): a
 * map of unfilled orders, one pass over it per polling cycle, and the
 * position bookkeeping it drives. The broker's fill query is a parameter.
 */
module OrderTracking {
  import opened Common
  import opened PositionBook

  function LowerAscii(c: char): char
  {
    if 'A' <= c <= 'Z' then (c as int + 32) as char else c
  }

  /** `not order_no or order_no.lower() == 'unknown'`. */
  predicate InvalidOrderNo(orderNo: string)
  {
    orderNo == "" || (|orderNo| == 7 && forall i :: 0 <= i < 7 ==> LowerAscii(orderNo[i]) == "unknown"[i])
  }

  /** The empty number and "unknown" in any letter case are invalid; a broker number or a longer word is not. */
  lemma InvalidOrderNoCases()
    ensures InvalidOrderNo("") && InvalidOrderNo("unknown") && InvalidOrderNo("Unknown") && InvalidOrderNo("UNKNOWN")
    ensures !InvalidOrderNo("0000123456") && !InvalidOrderNo("unknow") && !InvalidOrderNo("unknown1")
  {
    assert forall i :: 0 <= i < 7 ==> LowerAscii("UNKNOWN"[i]) == "unknown"[i];
    assert forall i :: 0 <= i < 7 ==> LowerAscii("Unknown"[i]) == "unknown"[i];
    assert forall i :: 0 <= i < 7 ==> LowerAscii("unknown"[i]) == "unknown"[i];
  }

  datatype PendingOrder = PendingOrder(
    orderNo: string, symbol: string, stockName: string, side: string,
    quantity: int, limitPrice: int, strategy: string,
    orderTime: real, checkCount: int, lastCheck: Option<real>)

  /**
   * One row of the daily-fill query. A quantity or amount is None when
   * `int()` cannot parse it (a missing field reads as `Some(0)`).
   */
  datatype FillRow = FillRow(odno: string, filledQty: Option<int>, orderedQty: Option<int>, filledAmount: Option<int>)

  datatype FillStatus =
    | Executed(executedQty: int, avgPrice: int, totalAmount: int)
    | Partial(executedQty: int, remainingQty: int, avgPrice: int, totalAmount: int)
    | Pending
    | NotFound
    | Error

  /** The index of the first row answering for `orderNo`, if any. */
  function FirstMatch(rows: seq<FillRow>, orderNo: string): (i: Option<nat>)
    ensures i.Some? ==> i.value < |rows| && rows[i.value].odno == orderNo
                        && forall j :: 0 <= j < i.value ==> rows[j].odno != orderNo
    ensures i.None? ==> forall j :: 0 <= j < |rows| ==> rows[j].odno != orderNo
  {
    if rows == [] then None
    else if rows[0].odno == orderNo then Some(0)
    else match FirstMatch(rows[1..], orderNo)
      case None => None
      case Some(k) => Some(k + 1)
  }

  /**
   * `check_order_execution(order_no)`: `response` is the list of rows of a
   * successful query, None for a non-200 status, a non-zero `rt_cd` or an
   * exception.
   */
  function ClassifyFill(orderNo: string, response: Option<seq<FillRow>>): (st: FillStatus)
    ensures response.None? ==> st == Error
    ensures response.Some? && FirstMatch(response.value, orderNo).None? ==> st == NotFound
    ensures response.Some? && FirstMatch(response.value, orderNo).Some? ==>
              var row := response.value[FirstMatch(response.value, orderNo).value];
              if row.filledQty.None? || row.orderedQty.None? || row.filledAmount.None? then st == Error
              else if row.filledQty.value <= 0 then st == Pending
              else if row.filledQty.value == row.orderedQty.value then
                st.Executed? && st.executedQty == row.filledQty.value && st.totalAmount == row.filledAmount.value
              else st.Partial? && st.executedQty == row.filledQty.value
                   && st.remainingQty == row.orderedQty.value - row.filledQty.value
                   && st.totalAmount == row.filledAmount.value
    ensures st.Executed? ==> st.executedQty > 0 && st.avgPrice * st.executedQty <= st.totalAmount < (st.avgPrice + 1) * st.executedQty
    ensures st.Partial? ==> st.executedQty > 0 && st.avgPrice * st.executedQty <= st.totalAmount < (st.avgPrice + 1) * st.executedQty
  {
    if response.None? then Error
    else match FirstMatch(response.value, orderNo)
      case None => NotFound
      case Some(i) =>
        var row := response.value[i];
        if row.filledQty.None? || row.orderedQty.None? || row.filledAmount.None? then Error
        else
          var filled, ordered, amount := row.filledQty.value, row.orderedQty.value, row.filledAmount.value;
          if filled > 0 then
            var avg := FloorDiv(amount, filled);
            FloorDivBounds(amount, filled);
            if filled == ordered then Executed(filled, avg, amount)
            else Partial(filled, ordered - filled, avg, amount)
          else Pending
  }

  lemma FloorDivBounds(a: int, b: int)
    requires b > 0
    ensures FloorDiv(a, b) * b <= a < (FloorDiv(a, b) + 1) * b
  {
  }

  /** The position call an executed quantity triggers: a purchase for side "BUY", a sale for anything else. */
  function RecordFill(book: Book, o: PendingOrder, quantity: int, avgPrice: int, now: real): Book
  {
    if o.side == "BUY" then Purchased(book, o.symbol, quantity, avgPrice as real, o.strategy, now)
    else Sold(book, o.symbol, quantity, avgPrice as real, o.strategy, now)
  }

  const MaxErrorChecks: int := 10
  const MaxOrderAgeHours: real := 24.0

  /** What one pass has produced so far: the position book, the updated orders and the `completed_orders` list. */
  datatype PassState = PassState(book: Book, orders: map<string, PendingOrder>, completed: seq<string>)

  /** The body of the loop of `check_all_pending_orders` for the order stored under `key`. */
  function StepKey(st: PassState, key: string, status: FillStatus, now: real): (r: PassState)
    requires key in st.orders
    ensures r.orders.Keys == st.orders.Keys
    ensures forall k :: k in st.orders && k != key ==> r.orders[k] == st.orders[k]
  {
    var o := st.orders[key];
    if InvalidOrderNo(key) then st.(completed := st.completed + [key])
    else
      var checked := o.(checkCount := o.checkCount + 1, lastCheck := Some(now));
      var expired := if now - o.orderTime > MaxOrderAgeHours then [key] else [];
      match status
      case Executed(q, avg, _) =>
        PassState(RecordFill(st.book, o, q, avg, now), st.orders[key := checked], st.completed + [key] + expired)
      case Partial(q, remaining, avg, _) =>
        PassState(RecordFill(st.book, o, q, avg, now), st.orders[key := checked.(quantity := remaining)], st.completed + expired)
      case NotFound =>
        PassState(st.book, st.orders[key := checked], st.completed + [key] + expired)
      case Pending =>
        PassState(st.book, st.orders[key := checked], st.completed + expired)
      case Error =>
        var again := checked.(checkCount := checked.checkCount + 1);
        PassState(st.book, st.orders[key := again],
                  st.completed + (if again.checkCount >= MaxErrorChecks then [key] else []) + expired)
  }

  /** The state after the loop has visited `keys` in order. */
  function RunPass(st: PassState, keys: seq<string>, response: string -> Option<seq<FillRow>>, now: real): (r: PassState)
    requires forall k :: k in keys ==> k in st.orders
    ensures r.orders.Keys == st.orders.Keys
    ensures forall k :: k in st.orders && k !in keys ==> r.orders[k] == st.orders[k]
  {
    if keys == [] then st
    else
      var prefix := keys[..|keys| - 1];
      var key := keys[|keys| - 1];
      var mid := RunPass(st, prefix, response, now);
      StepKey(mid, key, ClassifyFill(key, response(key)), now)
  }

  lemma RunPassStep(st: PassState, keys: seq<string>, i: nat, response: string -> Option<seq<FillRow>>, now: real)
    requires i < |keys| && forall k :: k in keys ==> k in st.orders
    ensures forall k :: k in keys[..i + 1] ==> k in st.orders
    ensures RunPass(st, keys[..i + 1], response, now)
            == StepKey(RunPass(st, keys[..i], response, now), keys[i], ClassifyFill(keys[i], response(keys[i])), now)
  {
    assert keys[..i + 1][..i] == keys[..i];
  }

  predicate NoDuplicates(s: seq<string>)
  {
    forall i, j :: 0 <= i < j < |s| ==> s[i] != s[j]
  }

  /** The orders a pass keeps: every order whose number was not put on the completed list. */
  function Surviving(st: PassState): map<string, PendingOrder>
  {
    map k | k in st.orders && k !in st.completed :: st.orders[k]
  }

  function RemoveAll(keys: seq<string>, gone: seq<string>): seq<string>
  {
    if keys == [] then []
    else
      RemoveAll(keys[..|keys| - 1], gone) + (if keys[|keys| - 1] in gone then [] else [keys[|keys| - 1]])
  }

  class OrderTracker {
    var pending: map<string, PendingOrder>
    /** The insertion order of `pending`'s keys, which is the order a pass visits them in. */
    var keys: seq<string>

    ghost predicate Valid()
      reads this
    {
      NoDuplicates(keys) && (forall k :: k in pending <==> k in keys)
    }

    /** `loaded` is the content of `pending_orders.json` in file order (empty when there is none). */
    constructor (loadedKeys: seq<string>, loaded: map<string, PendingOrder>)
      requires NoDuplicates(loadedKeys) && (forall k :: k in loaded <==> k in loadedKeys)
      ensures Valid() && pending == loaded && keys == loadedKeys
    {
      pending := loaded;
      keys := loadedKeys;
    }

    method AddPendingOrder(orderNo: string, symbol: string, side: string, quantity: int, limitPrice: int,
                           strategy: string, stockName: string, now: real)
      requires Valid()
      modifies this
      ensures Valid()
      ensures InvalidOrderNo(orderNo) ==> pending == old(pending) && keys == old(keys)
      ensures !InvalidOrderNo(orderNo) ==>
                pending == old(pending)[orderNo := PendingOrder(orderNo, symbol, stockName, side, quantity, limitPrice,
                                                                strategy, now, 0, None)]
                && keys == (if orderNo in old(pending) then old(keys) else old(keys) + [orderNo])
    {
      if InvalidOrderNo(orderNo) {
        return;
      }
      if orderNo !in pending {
        keys := keys + [orderNo];
      }
      pending := pending[orderNo := PendingOrder(orderNo, symbol, stockName, side, quantity, limitPrice, strategy, now, 0, None)];
    }

    /**
     * `check_all_pending_orders(position_manager)`: one pass in key order,
     * `response(order_no)` being the broker's answer to the fill query for that
     * order, then the removal of every completed order.
     */
    method CheckAllPendingOrders(pm: PositionManager, response: string -> Option<seq<FillRow>>, now: real)
      requires Valid()
      modifies this, pm
      ensures Valid()
      ensures var st := RunPass(PassState(old(pm.history), old(pending), []), old(keys), response, now);
              pm.history == st.book && pending == Surviving(st) && keys == RemoveAll(old(keys), st.completed)
    {
      ghost var start := PassState(pm.history, pending, []);
      var ks := keys;
      var orders := pending;
      var completed: seq<string> := [];
      var i := 0;
      while i < |ks|
        invariant 0 <= i <= |ks|
        invariant ks == keys == old(keys) && pending == old(pending)
        invariant start == PassState(old(pm.history), old(pending), [])
        invariant RunPass(start, ks[..i], response, now) == PassState(pm.history, orders, completed)
        invariant orders.Keys == old(pending).Keys
      {
        var key := ks[i];
        var status := ClassifyFill(key, response(key));
        orders, completed := VisitOrder(pm, key, orders, completed, status, now);
        RunPassStep(start, ks, i, response, now);
        i := i + 1;
      }
      assert ks[..|ks|] == ks;
      assert RunPass(start, ks, response, now) == PassState(pm.history, orders, completed);
      Remove(orders, completed);
    }

    /** The clean-up after the loop: every completed order still present is deleted. */
    method Remove(orders: map<string, PendingOrder>, completed: seq<string>)
      requires NoDuplicates(keys) && (forall k :: k in orders <==> k in keys)
      modifies this
      ensures Valid()
      ensures pending == map k | k in orders && k !in completed :: orders[k]
      ensures keys == RemoveAll(old(keys), completed)
    {
      pending := orders;
      var j := 0;
      while j < |completed|
        invariant 0 <= j <= |completed|
        invariant pending == map k | k in orders && k !in completed[..j] :: orders[k]
        invariant keys == old(keys)
      {
        assert completed[..j + 1] == completed[..j] + [completed[j]];
        if completed[j] in pending {
          pending := pending - {completed[j]};
        }
        j := j + 1;
      }
      assert completed[..|completed|] == completed;
      RemoveAllKeepsMembers(keys, completed);
      RemoveAllNoDuplicates(keys, completed);
      keys := RemoveAll(keys, completed);
    }
    /** One turn of the pass loop: the order stored under `key` is checked (with `status` the answer of `check_order_execution`) and the position book updated. */
    method VisitOrder(pm: PositionManager, key: string, orders: map<string, PendingOrder>, completed: seq<string>,
                      status: FillStatus, now: real)
      returns (orders': map<string, PendingOrder>, completed': seq<string>)
      requires key in orders
      modifies pm
      ensures PassState(pm.history, orders', completed')
              == StepKey(PassState(old(pm.history), orders, completed), key, status, now)
    {
      orders', completed' := orders, completed;
      var o := orders[key];
      if InvalidOrderNo(key) {
        completed' := completed' + [key];
        return;
      }
      o := o.(checkCount := o.checkCount + 1, lastCheck := Some(now));
      match status {
        case Executed(q, avg, _) =>
          ApplyFill(pm, o, q, avg, now);
          completed' := completed' + [key];
        case Partial(q, remaining, avg, _) =>
          ApplyFill(pm, o, q, avg, now);
          o := o.(quantity := remaining);
        case NotFound =>
          completed' := completed' + [key];
        case Pending =>
        case Error =>
          o := o.(checkCount := o.checkCount + 1);
          if o.checkCount >= MaxErrorChecks {
            completed' := completed' + [key];
          }
      }
      if now - o.orderTime > MaxOrderAgeHours {
        completed' := completed' + [key];
      }
      orders' := orders'[key := o];
    }
  }

  /** The position call of `check_all_pending_orders` for an executed quantity. */
  method ApplyFill(pm: PositionManager, o: PendingOrder, quantity: int, avgPrice: int, now: real)
    modifies pm
    ensures pm.history == RecordFill(old(pm.history), o, quantity, avgPrice, now)
  {
    if o.side == "BUY" {
      pm.RecordPurchase(o.symbol, quantity, avgPrice as real, o.strategy, now);
    } else {
      pm.RecordSale(o.symbol, quantity, avgPrice as real, o.strategy, now);
    }
  }

  lemma {:induction false} RemoveAllKeepsMembers(keys: seq<string>, gone: seq<string>)
    ensures forall k :: k in RemoveAll(keys, gone) <==> k in keys && k !in gone
  {
    if keys != [] {
      RemoveAllKeepsMembers(keys[..|keys| - 1], gone);
      assert keys == keys[..|keys| - 1] + [keys[|keys| - 1]];
    }
  }

  lemma {:induction false} RemoveAllNoDuplicates(keys: seq<string>, gone: seq<string>)
    requires NoDuplicates(keys)
    ensures NoDuplicates(RemoveAll(keys, gone))
  {
    if keys != [] {
      var init := keys[..|keys| - 1];
      assert NoDuplicates(init);
      RemoveAllNoDuplicates(init, gone);
      RemoveAllKeepsMembers(init, gone);
      assert keys[|keys| - 1] !in init;
    }
  }

  // ---- What a pass does, stated per order ----

  /** An order leaves the tracker in a pass when its number is invalid, it has filled completely, the broker no longer knows it, its error count reaches the limit, or it is more than a day old. */
  predicate Completes(key: string, o: PendingOrder, status: FillStatus, now: real)
  {
    || InvalidOrderNo(key)
    || status.Executed? || status.NotFound?
    || (status.Error? && o.checkCount + 2 >= MaxErrorChecks)
    || now - o.orderTime > MaxOrderAgeHours
  }

  /** The `record_purchase` or `record_sale` call a checked order makes: one per reported fill. */
  function FillOp(key: string, o: PendingOrder, status: FillStatus, now: real): seq<BookOp>
  {
    if InvalidOrderNo(key) || !(status.Executed? || status.Partial?) then []
    else if o.side == "BUY" then [PurchaseOp(o.symbol, status.executedQty, status.avgPrice as real, o.strategy, now)]
    else [SaleOp(o.symbol, status.executedQty, status.avgPrice as real, o.strategy, now)]
  }

  function FillOps(orders: map<string, PendingOrder>, keys: seq<string>, response: string -> Option<seq<FillRow>>, now: real): seq<BookOp>
    requires forall k :: k in keys ==> k in orders
  {
    if keys == [] then []
    else
      var key := keys[|keys| - 1];
      FillOps(orders, keys[..|keys| - 1], response, now) + FillOp(key, orders[key], ClassifyFill(key, response(key)), now)
  }

  lemma {:induction false} ReplayAppend(book: Book, ops: seq<BookOp>, more: seq<BookOp>)
    ensures Replay(book, ops + more) == Replay(Replay(book, ops), more)
    decreases ops
  {
    if ops == [] {
      assert ops + more == more;
    } else {
      assert (ops + more)[0] == ops[0];
      assert (ops + more)[1..] == ops[1..] + more;
      ReplayAppend(Apply(book, ops[0]), ops[1..], more);
    }
  }

  lemma StepCompletes(st: PassState, key: string, status: FillStatus, now: real)
    requires key in st.orders
    ensures forall k :: k in StepKey(st, key, status, now).completed <==>
              k in st.completed || (k == key && Completes(key, st.orders[key], status, now))
  {
  }

  lemma StepReplaysFill(st: PassState, key: string, status: FillStatus, now: real)
    requires key in st.orders
    ensures StepKey(st, key, status, now).book == Replay(st.book, FillOp(key, st.orders[key], status, now))
  {
  }

  lemma StepKeepsOrderDetails(st: PassState, key: string, status: FillStatus, now: real)
    requires key in st.orders
    ensures var was := st.orders[key];
            var cur := StepKey(st, key, status, now).orders[key];
            && cur.(quantity := was.quantity, checkCount := was.checkCount, lastCheck := was.lastCheck) == was
            && cur.checkCount >= was.checkCount
            && (!InvalidOrderNo(key) ==> cur.lastCheck == Some(now))
  {
  }

  /** A pass over distinct keys leaves the order list with exactly the orders that `Completes` rejects, each seen in the state it had before the pass. */
  lemma {:induction false} PassCompletesExactly(st: PassState, keys: seq<string>, response: string -> Option<seq<FillRow>>, now: real)
    requires NoDuplicates(keys)
    requires forall k :: k in keys ==> k in st.orders
    ensures forall k :: k in RunPass(st, keys, response, now).completed <==>
              k in st.completed || (k in keys && Completes(k, st.orders[k], ClassifyFill(k, response(k)), now))
  {
    if keys != [] {
      var init, key := keys[..|keys| - 1], keys[|keys| - 1];
      assert NoDuplicates(init);
      assert key !in init;
      PassCompletesExactly(st, init, response, now);
      var mid := RunPass(st, init, response, now);
      StepCompletes(mid, key, ClassifyFill(key, response(key)), now);
      assert mid.orders[key] == st.orders[key];
      assert forall k :: k in keys <==> k in init || k == key;
    }
  }

  /** The orders that survive a pass from an empty completed list: exactly those with a valid number, a pending, partial or not-yet-fatal error status, and an age of at most a day. */
  lemma SurvivorsOfPass(orders: map<string, PendingOrder>, book: Book, keys: seq<string>, response: string -> Option<seq<FillRow>>, now: real)
    requires NoDuplicates(keys)
    requires forall k :: k in orders <==> k in keys
    ensures var r := Surviving(RunPass(PassState(book, orders, []), keys, response, now));
            forall k :: k in r <==> k in orders && !Completes(k, orders[k], ClassifyFill(k, response(k)), now)
  {
    PassCompletesExactly(PassState(book, orders, []), keys, response, now);
  }

  /** A pass applies the reported fills to the position book once each, in the order the tracker holds them. */
  lemma {:induction false} PassReplaysFills(st: PassState, keys: seq<string>, response: string -> Option<seq<FillRow>>, now: real)
    requires NoDuplicates(keys)
    requires forall k :: k in keys ==> k in st.orders
    ensures RunPass(st, keys, response, now).book == Replay(st.book, FillOps(st.orders, keys, response, now))
  {
    if keys != [] {
      var init, key := keys[..|keys| - 1], keys[|keys| - 1];
      assert NoDuplicates(init);
      assert key !in init;
      PassReplaysFills(st, init, response, now);
      var mid := RunPass(st, init, response, now);
      var status := ClassifyFill(key, response(key));
      var op := FillOp(key, st.orders[key], status, now);
      ReplayAppend(st.book, FillOps(st.orders, init, response, now), op);
      assert mid.orders[key] == st.orders[key];
      StepReplaysFill(mid, key, status, now);
    }
  }

  /** Since every reported fill has a positive quantity, a pass keeps every position quantity non-negative. */
  lemma PassKeepsQuantitiesNonNegative(st: PassState, keys: seq<string>, response: string -> Option<seq<FillRow>>, now: real)
    requires NoDuplicates(keys)
    requires forall k :: k in keys ==> k in st.orders
    requires NonNegativeQuantities(st.book)
    ensures NonNegativeQuantities(RunPass(st, keys, response, now).book)
  {
    PassReplaysFills(st, keys, response, now);
    FillOpsArePositive(st.orders, keys, response, now);
    var ops := FillOps(st.orders, keys, response, now);
    assert forall i :: 0 <= i < |ops| && ops[i].PurchaseOp? ==> ops[i].quantity >= 0;
    QuantitiesStayNonNegative(st.book, FillOps(st.orders, keys, response, now));
  }

  predicate PositiveFills(ops: seq<BookOp>)
  {
    forall i :: 0 <= i < |ops| ==> ops[i].quantity > 0
  }

  lemma {:induction false} FillOpsArePositive(orders: map<string, PendingOrder>, keys: seq<string>, response: string -> Option<seq<FillRow>>, now: real)
    requires forall k :: k in keys ==> k in orders
    ensures PositiveFills(FillOps(orders, keys, response, now))
  {
    if keys != [] {
      var key := keys[|keys| - 1];
      FillOpsArePositive(orders, keys[..|keys| - 1], response, now);
      var status := ClassifyFill(key, response(key));
      var a, b := FillOps(orders, keys[..|keys| - 1], response, now), FillOp(key, orders[key], status, now);
      assert PositiveFills(b);
      assert forall i :: |a| <= i < |a + b| ==> (a + b)[i] == b[i - |a|];
      assert forall i :: 0 <= i < |a| ==> (a + b)[i] == a[i];
    }
  }

  /** A pass touches only the check bookkeeping and, on a partial fill, the open quantity of an order; what was ordered stays as it was. */
  lemma {:induction false} PassKeepsOrderDetails(st: PassState, keys: seq<string>, response: string -> Option<seq<FillRow>>, now: real)
    requires NoDuplicates(keys)
    requires forall k :: k in keys ==> k in st.orders
    ensures var r := RunPass(st, keys, response, now);
            forall k :: k in st.orders ==>
              var was := st.orders[k];
              var cur := r.orders[k];
              && cur.(quantity := was.quantity, checkCount := was.checkCount, lastCheck := was.lastCheck) == was
              && cur.checkCount >= was.checkCount
              && (k in keys && !InvalidOrderNo(k) ==> cur.lastCheck == Some(now))
  {
    if keys != [] {
      var init, key := keys[..|keys| - 1], keys[|keys| - 1];
      assert NoDuplicates(init);
      assert key !in init;
      PassKeepsOrderDetails(st, init, response, now);
      var mid := RunPass(st, init, response, now);
      assert mid.orders[key] == st.orders[key];
      assert RunPass(st, keys, response, now) == StepKey(mid, key, ClassifyFill(key, response(key)), now);
      StepKeepsOrderDetails(mid, key, ClassifyFill(key, response(key)), now);
    }
  }

  // ---- get_pending_orders_summary ----

  datatype OrdersSummary = OrdersSummary(totalPending: int, buyOrders: int, sellOrders: int)

  function BuyKeys(pending: map<string, PendingOrder>): set<string>
  {
    set k | k in pending && pending[k].side == "BUY"
  }

  /** The counts of `get_pending_orders_summary`: all orders, those on side "BUY", and the rest. */
  function PendingSummary(pending: map<string, PendingOrder>): (r: OrdersSummary)
    ensures r.totalPending == |pending| && r.buyOrders == |BuyKeys(pending)|
    ensures r.sellOrders == |set k | k in pending && pending[k].side != "BUY"|
    ensures r.totalPending == r.buyOrders + r.sellOrders
  {
    var buys := set k | k in pending && pending[k].side == "BUY";
    var others := set k | k in pending && pending[k].side != "BUY";
    assert buys + others == pending.Keys && buys * others == {};
    if |pending| == 0 then OrdersSummary(0, 0, 0)
    else OrdersSummary(|pending|, |buys|, |pending| - |buys|)
  }
}
