/**
 * The long/flat backtest of backtest_fixed.py (`simple_backtest`): one
 * position at a time, entered on a buy signal and left on a sell signal,
 * an 8% stop-loss or a 25% take-profit; and the weight clamp of
 * `create_portfolio_from_backtest`.
 */
module Backtest {
  import opened Common

  /** The capital every caller starts from (the default of `initial_capital`). */
  const InitialCapital: real := 1_000_000.0
  const StopLoss: real := -0.08
  const TakeProfit: real := 0.25

  /** A trade of the log; `day` is the row index (the source uses the `date` column when there is one). */
  datatype Trade = BuyTrade(price: real, day: int) | SellTrade(price: real, ret: real, day: int)

  /** The loop's variables: `current_position`, `entry_price`, `portfolio_value` and `trades`. */
  datatype Book = Book(position: int, entry: real, value: real, trades: seq<Trade>)

  /** `signals.iloc[i] if i < len(signals) else 0`. */
  function SignalAt(signals: seq<int>, i: int): int
    requires 0 <= i
  {
    if i < |signals| then signals[i] else 0
  }

  /** The capital factor of the completed trades: the product of `1 + return` over the sells. */
  function Growth(trades: seq<Trade>): real
  {
    if trades == [] then 1.0
    else
      var last := trades[|trades| - 1];
      Growth(trades[..|trades| - 1]) * (if last.SellTrade? then 1.0 + last.ret else 1.0)
  }

  /** The sell returns, in order. */
  function Returns(trades: seq<Trade>): (rs: seq<real>)
    ensures |rs| <= |trades|
  {
    if trades == [] then []
    else
      var last := trades[|trades| - 1];
      Returns(trades[..|trades| - 1]) + (if last.SellTrade? then [last.ret] else [])
  }

  /** The return of a sale at p of a position entered at `entry`. */
  function ReturnOf(p: real, entry: real): real
    requires entry > 0.0
  {
    (p - entry) / entry
  }

  /** One row of the loop at price p. */
  function Step(b: Book, p: real, signal: int, day: int): (c: Book)
    requires b.position == 1 ==> b.entry > 0.0
    ensures b.position in {0, 1} ==> c.position in {0, 1}
    ensures b.position == 0 && c.position == 1 ==> signal == 1 && c.entry == p && c.trades == b.trades + [BuyTrade(p, day)]
    ensures b.position == 1 && c.position == 0 ==>
              signal == -1 || ReturnOf(p, b.entry) <= StopLoss || ReturnOf(p, b.entry) >= TakeProfit
    ensures c.position == b.position ==> c == b
    ensures b.position == 1 && c.position == 0 ==>
              c.value == b.value * (1.0 + ReturnOf(p, b.entry)) && c.trades == b.trades + [SellTrade(p, ReturnOf(p, b.entry), day)]
  {
    if b.position == 0 && signal == 1 then Book(1, p, b.value, b.trades + [BuyTrade(p, day)])
    else if b.position == 1 then
      var r := ReturnOf(p, b.entry);
      if signal == -1 || r <= StopLoss || r >= TakeProfit then
        Book(0, b.entry, b.value * (1.0 + r), b.trades + [SellTrade(p, r, day)])
      else b
    else b
  }

  /** The trades alternate buy, sell, buy, … starting with a buy. */
  predicate Alternating(trades: seq<Trade>)
  {
    forall i :: 0 <= i < |trades| ==> (trades[i].BuyTrade? <==> i % 2 == 0)
  }

  /** The book after rows 1 … k-1 (row 0 is never traded); it stays flat or long, long at a positive entry price. */
  function Run(closes: seq<real>, signals: seq<int>, k: nat): (b: Book)
    requires k <= |closes| && AllPositive(closes)
    ensures b.position in {0, 1} && (b.position == 1 ==> b.entry > 0.0)
  {
    if k <= 1 then Book(0, 0.0, InitialCapital, [])
    else Step(Run(closes, signals, k - 1), closes[k - 1], SignalAt(signals, k - 1), k - 1)
  }

  /**
   * The trade log of every run alternates buy and sell, the position is long
   * exactly when it ends in a buy, and the capital is the starting capital
   * times the growth of the completed trades.
   */
  lemma {:induction false} RunKeepsLedger(closes: seq<real>, signals: seq<int>, k: nat)
    requires k <= |closes| && AllPositive(closes)
    ensures var b := Run(closes, signals, k);
            Alternating(b.trades) && b.position == |b.trades| % 2 && b.value == InitialCapital * Growth(b.trades)
  {
    if k > 1 {
      RunKeepsLedger(closes, signals, k - 1);
      var prev := Run(closes, signals, k - 1);
      RunStepKeepsInvariant(prev, Run(closes, signals, k), closes[k - 1], SignalAt(signals, k - 1), k - 1);
    }
  }

  lemma RunStepKeepsInvariant(b: Book, c: Book, p: real, signal: int, day: int)
    requires b.position in {0, 1} && (b.position == 1 ==> b.entry > 0.0) && p > 0.0
    requires Alternating(b.trades) && b.position == |b.trades| % 2
    requires b.value == InitialCapital * Growth(b.trades)
    requires c == Step(b, p, signal, day)
    ensures c.position in {0, 1} && (c.position == 1 ==> c.entry > 0.0)
    ensures Alternating(c.trades) && c.position == |c.trades| % 2
    ensures c.value == InitialCapital * Growth(c.trades)
  {
    if c != b {
      assert c.trades[..|c.trades| - 1] == b.trades;
      if c.position == 0 {
        var r := ReturnOf(p, b.entry);
        assert Growth(c.trades) == Growth(b.trades) * (1.0 + r);
        assert c.value == InitialCapital * Growth(b.trades) * (1.0 + r);
      }
    }
  }

  /** Completed trades are the sells of the log, one per buy before it. */
  lemma {:induction false} SellsAreHalfTheLog(trades: seq<Trade>)
    requires Alternating(trades)
    ensures |Returns(trades)| == |trades| / 2
  {
    if trades != [] {
      var init := trades[..|trades| - 1];
      assert Alternating(init) by {
        forall i | 0 <= i < |init|
          ensures init[i].BuyTrade? <==> i % 2 == 0
        {
          assert init[i] == trades[i];
        }
      }
      SellsAreHalfTheLog(init);
    }
  }

  datatype Outcome =
    | Failed(message: string)
    | Metrics(totalReturn: real, winRate: real, totalTrades: nat, winningTrades: nat, losingTrades: int,
              avgWin: real, avgLoss: real, maxDrawdown: real, profitFactor: real, finalCapital: real)

  function Positives(s: seq<real>): (t: seq<real>)
    ensures |t| <= |s| && forall i :: 0 <= i < |t| ==> t[i] > 0.0
  {
    if s == [] then [] else Positives(s[..|s| - 1]) + (if s[|s| - 1] > 0.0 then [s[|s| - 1]] else [])
  }

  function NonPositives(s: seq<real>): (t: seq<real>)
    ensures |t| <= |s| && forall i :: 0 <= i < |t| ==> t[i] <= 0.0
  {
    if s == [] then [] else NonPositives(s[..|s| - 1]) + (if s[|s| - 1] <= 0.0 then [s[|s| - 1]] else [])
  }

  lemma {:induction false} ReturnsSplit(s: seq<real>)
    ensures |Positives(s)| + |NonPositives(s)| == |s|
  {
    if s != [] {
      ReturnsSplit(s[..|s| - 1]);
    }
  }

  /** The performance figures of a log with at least one completed trade. */
  function MetricsOf(b: Book): (o: Outcome)
    requires |Returns(b.trades)| > 0
    ensures o.Metrics? && o.totalTrades == |Returns(b.trades)| && o.losingTrades == o.totalTrades - o.winningTrades
    ensures 0.0 <= o.winRate <= 1.0 && o.winningTrades <= o.totalTrades
    ensures o.winningTrades == |Positives(Returns(b.trades))|
    ensures o.winRate == o.winningTrades as real / o.totalTrades as real
    ensures o.finalCapital == b.value && o.totalReturn == b.value / InitialCapital - 1.0
  {
    var rs := Returns(b.trades);
    var wins := Positives(rs);
    var losses := NonPositives(rs);
    var total := |rs|;
    var lossSum := Sum(losses);
    ReturnsSplit(rs);
    var winRate := Ratio(|wins|, total);
    Metrics(b.value / InitialCapital - 1.0, winRate, total, |wins|, total - |wins|,
            if |wins| > 0 then Mean(wins) else 0.0,
            if |losses| > 0 then Mean(losses) else 0.0,
            MinOf(rs),
            if lossSum != 0.0 then Magnitude(Sum(wins) / lossSum) else 0.0,
            b.value)
  }

  /** `part / whole` for counts, a fraction in [0, 1]. */
  function Ratio(part: nat, whole: nat): (q: real)
    requires 0 < whole && part <= whole
    ensures 0.0 <= q <= 1.0
    ensures q == 1.0 <==> part == whole
    ensures q * whole as real == part as real
  {
    var q := part as real / whole as real;
    FractionAtMostOne(part as real, whole as real);
    assert q * whole as real == part as real;
    q
  }

  function Magnitude(x: real): real { if x < 0.0 then -x else x }

  /** `simple_backtest` as a value: too few rows, no signals, no completed trade, or the figures of the run. */
  function BacktestOutcome(closes: seq<real>, signals: seq<int>): (o: Outcome)
    requires AllPositive(closes)
    ensures |closes| < 20 ==> o == Failed("데이터 부족")
    ensures |closes| >= 20 && |signals| == 0 ==> o == Failed("신호 생성 실패")
    ensures o.Metrics? ==> o.totalReturn == Growth(Run(closes, signals, |closes|).trades) - 1.0
  {
    if |closes| < 20 then Failed("데이터 부족")
    else if |signals| == 0 then Failed("신호 생성 실패")
    else
      var b := Run(closes, signals, |closes|);
      RunKeepsLedger(closes, signals, |closes|);
      if |Returns(b.trades)| == 0 then Failed("완료된 거래 없음") else MetricsOf(b)
  }

  /** The loop of `simple_backtest` over rows 1 … n-1, followed by the figures. */
  method SimpleBacktest(closes: seq<real>, signals: seq<int>) returns (o: Outcome)
    requires AllPositive(closes)
    ensures o == BacktestOutcome(closes, signals)
  {
    if |closes| < 20 {
      return Failed("데이터 부족");
    }
    if |signals| == 0 {
      return Failed("신호 생성 실패");
    }
    var position := 0;
    var entry := 0.0;
    var value := InitialCapital;
    var trades: seq<Trade> := [];
    for i := 1 to |closes|
      invariant Book(position, entry, value, trades) == Run(closes, signals, i)
    {
      var price := closes[i];
      var signal := SignalAt(signals, i);
      ghost var before := Book(position, entry, value, trades);
      assert Run(closes, signals, i + 1) == Step(before, price, signal, i);
      if position == 0 && signal == 1 {
        position, entry := 1, price;
        trades := trades + [BuyTrade(price, i)];
      } else if position == 1 {
        var r := ReturnOf(price, entry);
        if signal == -1 || r <= StopLoss || r >= TakeProfit {
          value := value * (1.0 + r);
          trades := trades + [SellTrade(price, r, i)];
          position := 0;
        }
      }
    }
    var b := Book(position, entry, value, trades);
    assert b == Run(closes, signals, |closes|);
    if |Returns(trades)| == 0 {
      return Failed("완료된 거래 없음");
    }
    return MetricsOf(b);
  }

  /** A run that ends long has one open buy that is not yet counted as a trade. */
  lemma OpenPositionIsNotCounted(closes: seq<real>, signals: seq<int>)
    requires AllPositive(closes) && |closes| >= 1
    ensures var b := Run(closes, signals, |closes|);
            |Returns(b.trades)| == |b.trades| / 2 && (b.position == 1 <==> |b.trades| % 2 == 1)
  {
    RunKeepsLedger(closes, signals, |closes|);
    SellsAreHalfTheLog(Run(closes, signals, |closes|).trades);
  }

  /** A row that neither signals a sell nor moves the price past the stop-loss or the take-profit leaves a long position alone. */
  lemma HoldsInsideTheBand(b: Book, p: real, signal: int, day: int)
    requires b.position == 1 && b.entry > 0.0 && signal != -1
    requires StopLoss < ReturnOf(p, b.entry) < TakeProfit
    ensures Step(b, p, signal, day) == b
  {
  }

  // ---- Portfolio weights ----

  /** `max(1, stock.get('total_return', 1))`. */
  function ReturnScore(r: real): real { MaxReal(1.0, r) }

  function ScoreSum(rs: seq<real>): (t: real)
    ensures t >= |rs| as real
  {
    if rs == [] then 0.0 else ScoreSum(rs[..|rs| - 1]) + ReturnScore(rs[|rs| - 1])
  }

  /** The recommended weight of one stock: its share of the return scores in percent, clamped into [8, 20]. */
  function Weight(r: real, total: real): (w: real)
    requires total > 0.0
    ensures 8.0 <= w <= 20.0
  {
    MaxReal(8.0, MinReal(20.0, ReturnScore(r) / total * 100.0))
  }

  /** `create_portfolio_from_backtest`: the first (at most) eight recommended stocks and their weights; None without a recommendation. */
  function PortfolioWeights(rets: seq<real>): (ws: Option<seq<real>>)
    ensures rets == [] <==> ws.None?
    ensures ws.Some? ==> |ws.value| == |Head(rets, 8)| && forall i :: 0 <= i < |ws.value| ==> 8.0 <= ws.value[i] <= 20.0
  {
    if rets == [] then None
    else
      var selected := Head(rets, 8);
      var total := ScoreSum(selected);
      Some(seq(|selected|, i requires 0 <= i < |selected| => Weight(selected[i], total)))
  }

  /** A better backtest return never gets a smaller weight. */
  lemma WeightIsMonotone(r1: real, r2: real, total: real)
    requires total > 0.0 && r1 <= r2
    ensures Weight(r1, total) <= Weight(r2, total)
  {
    var a, b := ReturnScore(r1), ReturnScore(r2);
    var q := 1.0 / total;
    assert a / total == a * q && b / total == b * q;
    MulLe(a, b, q);
  }

  /** A share that is already between 8% and 20% is kept as it is. */
  lemma WeightKeepsModerateShares(r: real, total: real)
    requires total > 0.0 && 8.0 <= ReturnScore(r) / total * 100.0 <= 20.0
    ensures Weight(r, total) == ReturnScore(r) / total * 100.0
  {
  }
}
