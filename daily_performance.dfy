/**
 * Daily performance tracking (trading_system/monitoring/daily_performance.py):
 * the portfolio summary of the day, the 90-day performance list with one
 * entry per date, the trend over the last days, and the trade log with its
 * summary of today. The two JSON files become the fields `trades` and
 * `performances`; the broker's holdings and cash enter as parameters.
 */
module DailyPerformance {
  import opened Common

  /** One holding as the broker reports it. */
  datatype Holding = Holding(symbol: string, stockName: string, quantity: int, avgPrice: real,
                             currentPrice: real, totalValue: real, purchaseAmount: real)

  datatype PositionDetail = PositionDetail(symbol: string, totalValue: real, profitLoss: real, profitLossPct: real)

  /** A line of `daily_trades.json`. */
  datatype TradeRecord = TradeRecord(timestamp: string, symbol: string, stockName: string, action: string,
                                     quantity: int, price: real, amount: real, reason: string)

  /** A line of `daily_performance.json`. */
  datatype DailySummary = DailySummary(
    date: string, timestamp: string, totalAssets: real, cash: real, stockValue: real,
    totalProfitLoss: real, totalReturnPct: real, positionCount: int, positionDetails: seq<PositionDetail>,
    todayTrades: seq<TradeRecord>, hasHoldings: bool, programTradeOnly: bool)

  /** `x / base * 100`, or 0 when the base is not positive. */
  function Percent(x: real, base: real): real
  {
    if base > 0.0 then x / base * 100.0 else 0.0
  }

  function TotalValue(hs: seq<Holding>): real
  {
    if hs == [] then 0.0 else TotalValue(hs[..|hs| - 1]) + hs[|hs| - 1].totalValue
  }

  function TotalPurchase(hs: seq<Holding>): real
  {
    if hs == [] then 0.0 else TotalPurchase(hs[..|hs| - 1]) + hs[|hs| - 1].purchaseAmount
  }

  /** The profit summed holding by holding, as the loop of `calculate_daily_summary` adds it. */
  function TotalProfitLoss(hs: seq<Holding>): real
  {
    if hs == [] then 0.0 else TotalProfitLoss(hs[..|hs| - 1]) + (hs[|hs| - 1].totalValue - hs[|hs| - 1].purchaseAmount)
  }

  /** The summed per-holding profit is the difference of the two totals. */
  lemma {:induction false} ProfitIsValueMinusPurchase(hs: seq<Holding>)
    ensures TotalProfitLoss(hs) == TotalValue(hs) - TotalPurchase(hs)
  {
    if hs != [] {
      ProfitIsValueMinusPurchase(hs[..|hs| - 1]);
    }
  }

  function Detail(h: Holding): (d: PositionDetail)
    ensures d.symbol == h.symbol && d.totalValue == h.totalValue
    ensures d.profitLoss + h.purchaseAmount == h.totalValue
    ensures h.purchaseAmount <= 0.0 ==> d.profitLossPct == 0.0
  {
    var pl := h.totalValue - h.purchaseAmount;
    PositionDetail(h.symbol, h.totalValue, pl, Percent(pl, h.purchaseAmount))
  }

  /** The loop of `calculate_daily_summary`: the three totals and one detail per holding, in order. */
  method Totals(hs: seq<Holding>) returns (stockValue: real, purchase: real, profitLoss: real, details: seq<PositionDetail>)
    ensures stockValue == TotalValue(hs) && purchase == TotalPurchase(hs)
    ensures profitLoss == stockValue - purchase
    ensures |details| == |hs| && forall i :: 0 <= i < |hs| ==> details[i] == Detail(hs[i])
  {
    stockValue, purchase, profitLoss, details := 0.0, 0.0, 0.0, [];
    var i := 0;
    while i < |hs|
      invariant 0 <= i <= |hs|
      invariant stockValue == TotalValue(hs[..i]) && purchase == TotalPurchase(hs[..i])
      invariant profitLoss == TotalProfitLoss(hs[..i])
      invariant |details| == i && forall j :: 0 <= j < i ==> details[j] == Detail(hs[j])
    {
      var h := hs[i];
      assert hs[..i + 1][..i] == hs[..i];
      stockValue := stockValue + h.totalValue;
      purchase := purchase + h.purchaseAmount;
      profitLoss := profitLoss + (h.totalValue - h.purchaseAmount);
      details := details + [Detail(h)];
      i := i + 1;
    }
    assert hs[..i] == hs;
    ProfitIsValueMinusPurchase(hs);
  }

  /** The summary `calculate_daily_summary` builds from the holdings, the orderable cash and today's trades. */
  function SummaryOf(hs: seq<Holding>, cash: real, date: string, timestamp: string, today: seq<TradeRecord>): (s: DailySummary)
    ensures s.date == date && s.cash == cash && s.stockValue == TotalValue(hs)
    ensures s.totalAssets == cash + s.stockValue
    ensures s.totalProfitLoss == s.stockValue - TotalPurchase(hs)
    ensures TotalPurchase(hs) <= 0.0 ==> s.totalReturnPct == 0.0
    ensures s.positionCount == |hs| && |s.positionDetails| == |hs|
    ensures s.hasHoldings <==> |hs| > 0
    ensures s.programTradeOnly <==> today == []
  {
    ProfitIsValueMinusPurchase(hs);
    var pl := TotalProfitLoss(hs);
    DailySummary(date, timestamp, cash + TotalValue(hs), cash, TotalValue(hs), pl, Percent(pl, TotalPurchase(hs)),
                 |hs|, seq(|hs|, i requires 0 <= i < |hs| => Detail(hs[i])), today, |hs| > 0, today == [])
  }

  /** `get_today_trades`: the records whose timestamp starts with today's date, in file order. */
  function TodayTrades(trades: seq<TradeRecord>, today: string): (r: seq<TradeRecord>)
    ensures |r| <= |trades|
    ensures forall t :: t in r <==> t in trades && today <= t.timestamp
  {
    if trades == [] then []
    else
      var last := trades[|trades| - 1];
      assert trades == trades[..|trades| - 1] + [last];
      TodayTrades(trades[..|trades| - 1], today) + (if today <= last.timestamp then [last] else [])
  }

  /** The place of the first entry carrying `date`. */
  function FirstDateIndex(perfs: seq<DailySummary>, date: string): (r: Option<nat>)
    ensures r.Some? ==> r.value < |perfs| && perfs[r.value].date == date
                        && forall j :: 0 <= j < r.value ==> perfs[j].date != date
    ensures r.None? ==> forall j :: 0 <= j < |perfs| ==> perfs[j].date != date
  {
    if perfs == [] then None
    else if perfs[0].date == date then Some(0)
    else match FirstDateIndex(perfs[1..], date)
      case Some(i) => Some(i + 1)
      case None => None
  }

  const KeptDays: int := 90

  /** `save_daily_performance`: replace the first entry of the same date or append, then keep the last 90. */
  function Upsert(perfs: seq<DailySummary>, s: DailySummary): seq<DailySummary>
  {
    var updated := match FirstDateIndex(perfs, s.date)
      case Some(i) => perfs[i := s]
      case None => perfs + [s];
    Tail(updated, KeptDays)
  }

  predicate UniqueDates(perfs: seq<DailySummary>)
  {
    forall i, j :: 0 <= i < j < |perfs| ==> perfs[i].date != perfs[j].date
  }

  /** The retention bound: at most 90 entries after every save. */
  lemma UpsertKeepsNinety(perfs: seq<DailySummary>, s: DailySummary)
    ensures |Upsert(perfs, s)| <= KeptDays
  {
  }

  /** A list of at most 90 entries with one per date keeps one per date and holds the new summary afterwards. */
  lemma UpsertStoresSummary(perfs: seq<DailySummary>, s: DailySummary)
    requires |perfs| <= KeptDays && UniqueDates(perfs)
    ensures UniqueDates(Upsert(perfs, s))
    ensures s in Upsert(perfs, s)
    ensures forall e :: e in Upsert(perfs, s) && e.date == s.date ==> e == s
    ensures forall e :: e in perfs && e.date != s.date && |perfs| < KeptDays ==> e in Upsert(perfs, s)
  {
    var r := Upsert(perfs, s);
    match FirstDateIndex(perfs, s.date)
    case Some(i) =>
      assert r == perfs[i := s];
      assert r[i] == s;
      forall e | e in perfs && e.date != s.date
        ensures e in r
      {
        var k :| 0 <= k < |perfs| && perfs[k] == e;
        assert r[k] == e;
      }
    case None =>
      var appended := perfs + [s];
      assert forall j :: 0 <= j < |perfs| ==> appended[j] == perfs[j];
      if |appended| > KeptDays {
        assert r == appended[1..];
        assert forall j :: 0 <= j < |r| ==> r[j] == appended[j + 1];
        assert r[|r| - 1] == s;
      } else {
        assert r == appended;
        assert r[|r| - 1] == s;
      }
  }

  datatype TrendReport = TrendReport(avgReturn: real, bestDay: real, worstDay: real, assetGrowth: real,
                                     winningDays: int, totalDays: int)

  function Returns(perfs: seq<DailySummary>): (r: seq<real>)
    ensures |r| == |perfs| && forall i :: 0 <= i < |perfs| ==> r[i] == perfs[i].totalReturnPct
  {
    seq(|perfs|, i requires 0 <= i < |perfs| => perfs[i].totalReturnPct)
  }

  /** The number of positive entries. */
  function CountPositive(s: seq<real>): (n: nat)
    ensures n <= |s|
  {
    if s == [] then 0 else CountPositive(s[..|s| - 1]) + (if s[|s| - 1] > 0.0 then 1 else 0)
  }

  /** CountPositive counts exactly the positions holding a positive entry. */
  lemma {:induction false} CountPositiveIsCardinality(s: seq<real>)
    ensures CountPositive(s) == |set i | 0 <= i < |s| && s[i] > 0.0|
  {
    if s != [] {
      var p := s[..|s| - 1];
      CountPositiveIsCardinality(p);
      var before := set i | 0 <= i < |p| && p[i] > 0.0;
      var last := if s[|s| - 1] > 0.0 then {|s| - 1} else {};
      assert (set i | 0 <= i < |s| && s[i] > 0.0) == before + last;
      assert before !! last;
    }
  }

  /** `get_trend_analysis(days)`: over the last `days` entries (all when there are fewer), nothing for fewer than two. */
  function TrendAnalysis(perfs: seq<DailySummary>, days: int): (r: Option<TrendReport>)
    ensures var recent := if |perfs| >= days then Tail(perfs, days) else perfs;
            (r.None? <==> |recent| < 2)
            && (r.Some? ==>
                  && r.value.totalDays == |recent|
                  && r.value.avgReturn == Mean(Returns(recent))
                  && (exists i :: 0 <= i < |recent| && recent[i].totalReturnPct == r.value.bestDay)
                  && (exists i :: 0 <= i < |recent| && recent[i].totalReturnPct == r.value.worstDay)
                  && r.value.winningDays == |set i | 0 <= i < |recent| && recent[i].totalReturnPct > 0.0|
                  && r.value.worstDay <= r.value.avgReturn <= r.value.bestDay
                  && 0 <= r.value.winningDays <= r.value.totalDays
                  && (forall i :: 0 <= i < |recent| ==> r.value.worstDay <= recent[i].totalReturnPct <= r.value.bestDay)
                  && r.value.assetGrowth == recent[|recent| - 1].totalAssets - recent[0].totalAssets)
  {
    var recent := if |perfs| >= days then Tail(perfs, days) else perfs;
    if |recent| < 2 then None
    else
      var rs := Returns(recent);
      MeanBetweenExtremes(rs);
      ExtremesBound(rs);
      ExtremesAttained(rs);
      CountPositiveIsCardinality(rs);
      assert (set i | 0 <= i < |rs| && rs[i] > 0.0) == (set i | 0 <= i < |recent| && recent[i].totalReturnPct > 0.0);
      Some(TrendReport(Mean(rs), MaxOf(rs), MinOf(rs),
                       recent[|recent| - 1].totalAssets - recent[0].totalAssets,
                       CountPositive(rs), |rs|))
  }

  /** With a positive window there are never more days than the window. */
  lemma TrendWindow(perfs: seq<DailySummary>, days: int)
    requires days > 0
    ensures var r := TrendAnalysis(perfs, days);
            r.Some? ==> r.value.totalDays == (if |perfs| < days then |perfs| else days)
  {
  }

  datatype TradeSummary = TradeSummary(
    totalTrades: int, buyCount: int, sellCount: int, tradedSymbols: int, tradedStocks: set<string>,
    totalBuyAmount: real, totalSellAmount: real, netAmount: real)

  function CountAction(ts: seq<TradeRecord>, action: string): (n: nat)
    ensures n <= |ts|
  {
    if ts == [] then 0 else CountAction(ts[..|ts| - 1], action) + (if ts[|ts| - 1].action == action then 1 else 0)
  }

  function AmountOf(ts: seq<TradeRecord>, action: string): real
  {
    if ts == [] then 0.0 else AmountOf(ts[..|ts| - 1], action) + (if ts[|ts| - 1].action == action then ts[|ts| - 1].amount else 0.0)
  }

  function Symbols(ts: seq<TradeRecord>): (s: set<string>)
    ensures forall x :: x in s <==> exists t :: t in ts && t.symbol == x
  {
    if ts == [] then {}
    else
      assert ts == ts[..|ts| - 1] + [ts[|ts| - 1]];
      Symbols(ts[..|ts| - 1]) + {ts[|ts| - 1].symbol}
  }

  function StockNames(ts: seq<TradeRecord>): (s: set<string>)
    ensures forall x :: x in s <==> exists t :: t in ts && t.stockName == x
  {
    if ts == [] then {}
    else
      assert ts == ts[..|ts| - 1] + [ts[|ts| - 1]];
      StockNames(ts[..|ts| - 1]) + {ts[|ts| - 1].stockName}
  }

  /** `get_today_trade_summary` over today's trades. */
  function TodayTradeSummary(today: seq<TradeRecord>): (r: TradeSummary)
    ensures today == [] ==> r == TradeSummary(0, 0, 0, 0, {}, 0.0, 0.0, 0.0)
    ensures r.totalTrades == |today|
    ensures r.buyCount == CountAction(today, "BUY") && r.sellCount == CountAction(today, "SELL")
    ensures r.netAmount == r.totalSellAmount - r.totalBuyAmount
    ensures r.totalBuyAmount == AmountOf(today, "BUY") && r.totalSellAmount == AmountOf(today, "SELL")
    ensures today != [] ==> r.tradedSymbols == |Symbols(today)| && r.tradedStocks == StockNames(today)
  {
    if today == [] then TradeSummary(0, 0, 0, 0, {}, 0.0, 0.0, 0.0)
    else
      var buy, sell := AmountOf(today, "BUY"), AmountOf(today, "SELL");
      TradeSummary(|today|, CountAction(today, "BUY"), CountAction(today, "SELL"), |Symbols(today)|,
                   StockNames(today), buy, sell, sell - buy)
  }

  /** A trade is a BUY or a SELL or neither, so the two counts never exceed the trades, and there are no more symbols than trades. */
  lemma {:induction false} CountsWithinTrades(ts: seq<TradeRecord>)
    ensures CountAction(ts, "BUY") + CountAction(ts, "SELL") <= |ts|
    ensures |Symbols(ts)| <= |ts|
  {
    if ts != [] {
      var init := ts[..|ts| - 1];
      CountsWithinTrades(init);
      assert Symbols(ts) == Symbols(init) + {ts[|ts| - 1].symbol};
    }
  }

  class DailyPerformanceTracker {
    var trades: seq<TradeRecord>
    var performances: seq<DailySummary>

    /** The two JSON files as they are found; a missing file is empty. */
    constructor (trades: seq<TradeRecord>, performances: seq<DailySummary>)
      ensures this.trades == trades && this.performances == performances
    {
      this.trades := trades;
      this.performances := performances;
    }

    /** `record_trade`: one record appended, its amount the quantity times the price. */
    method RecordTrade(symbol: string, action: string, quantity: int, price: real, reason: string,
                       stockName: string, timestamp: string)
      modifies this
      ensures trades == old(trades) + [TradeRecord(timestamp, symbol, stockName, action, quantity, price,
                                                   (quantity as real) * price, reason)]
      ensures performances == old(performances)
    {
      trades := trades + [TradeRecord(timestamp, symbol, stockName, action, quantity, price, (quantity as real) * price, reason)];
    }

    /** `save_daily_performance`: the search loop with `break`, then the 90-entry cut. */
    method SaveDailyPerformance(summary: DailySummary)
      modifies this
      ensures performances == Upsert(old(performances), summary)
      ensures trades == old(trades)
    {
      var list := performances;
      var i := 0;
      var updated := false;
      while i < |list| && !updated
        invariant 0 <= i <= |list| == |performances|
        invariant !updated ==> list == performances && forall j :: 0 <= j < i ==> list[j].date != summary.date
        invariant updated ==> i < |performances| && performances[i].date == summary.date
                              && (forall j :: 0 <= j < i ==> performances[j].date != summary.date)
                              && list == performances[i := summary]
        decreases |list| - i, if updated then 0 else 1
      {
        if list[i].date == summary.date {
          list := list[i := summary];
          updated := true;
        } else {
          i := i + 1;
        }
      }
      if !updated {
        assert FirstDateIndex(performances, summary.date).None?;
        list := list + [summary];
      } else {
        assert FirstDateIndex(performances, summary.date) == Some(i);
      }
      performances := Tail(list, KeptDays);
    }

    /**
     * `calculate_daily_summary`: `cash` is the orderable cash of the
     * account answer, None when there is no answer; the summary is saved.
     */
    method CalculateDailySummary(hs: seq<Holding>, cash: Option<real>, date: string, timestamp: string)
      returns (r: Option<DailySummary>)
      modifies this
      ensures cash.None? ==> r.None? && performances == old(performances)
      ensures cash.Some? ==> r == Some(SummaryOf(hs, cash.value, date, timestamp, TodayTrades(old(trades), date)))
                             && performances == Upsert(old(performances), r.value)
      ensures trades == old(trades)
    {
      if cash.None? {
        return None;
      }
      var stockValue, purchase, profitLoss, details := Totals(hs);
      var today := TodayTrades(trades, date);
      var s := DailySummary(date, timestamp, cash.value + stockValue, cash.value, stockValue, profitLoss,
                            Percent(profitLoss, purchase), |hs|, details, today, |hs| > 0, today == []);
      ProfitIsValueMinusPurchase(hs);
      assert s == SummaryOf(hs, cash.value, date, timestamp, today);
      SaveDailyPerformance(s);
      r := Some(s);
    }
  }
}
