/**
 * The screening predicates of analyze/technical_indicators.py: the moving
 * average golden cross, the volume breakout, the MACD golden cross over
 * recursive EMAs (`ewm(adjust=False)`), the double-bottom pattern, the
 * signal count of `calculate_buy_signal_score` and the fundamental filter.
 * A column of the daily frame is a sequence of reals; missing values (NaN)
 * are not modelled, so the NaN guards of the source never fire here.
 */
module AnalyzeIndicators {
  import opened Common
  import MacdSignals

  // ---- Windows and moving averages ----

  lemma {:induction false} SumPrepend(x: real, t: seq<real>)
    ensures Sum([x] + t) == x + Sum(t)
  {
    if t != [] {
      assert ([x] + t)[..|[x] + t| - 1] == [x] + t[..|t| - 1];
      SumPrepend(x, t[..|t| - 1]);
    }
  }

  /** Sliding a window one row on adds the new row and drops the old one. */
  lemma SlideWindow(s: seq<real>, a: int, b: int)
    requires 0 <= a < b < |s|
    ensures Sum(s[a + 1..b + 1]) == Sum(s[a..b]) - s[a] + s[b]
  {
    assert s[a..b + 1] == [s[a]] + s[a + 1..b + 1];
    assert s[a..b + 1] == s[a..b] + [s[b]];
    SumPrepend(s[a], s[a + 1..b + 1]);
    SumAppend(s[a..b], s[b]);
  }

  /** `rolling(window=w).mean()` at `row`: the mean of the w values ending there. */
  function MovingAverage(s: seq<real>, row: int, w: int): (m: real)
    requires 1 <= w && w - 1 <= row < |s|
    ensures MinOf(s[row - w + 1..row + 1]) <= m <= MaxOf(s[row - w + 1..row + 1])
  {
    MeanBetweenExtremes(s[row - w + 1..row + 1]);
    Mean(s[row - w + 1..row + 1])
  }

  /** `is_golden_cross`: the 5-day average moves from below the 20-day average to above it on the last row. */
  predicate GoldenCross(closes: seq<real>)
  {
    var n := |closes|;
    n >= 21
    && MovingAverage(closes, n - 2, 5) < MovingAverage(closes, n - 2, 20)
    && MovingAverage(closes, n - 1, 5) > MovingAverage(closes, n - 1, 20)
  }

  /** One row on, a w-day average changes by the difference of the new and the dropped close over w. */
  lemma MovingAverageStep(s: seq<real>, row: int, w: int)
    requires 1 <= w && w <= row < |s|
    ensures MovingAverage(s, row, w) - MovingAverage(s, row - 1, w) == (s[row] - s[row - w]) / (w as real)
  {
    var now, before := s[row - w + 1..row + 1], s[row - w..row];
    assert MovingAverage(s, row, w) == Sum(now) / (w as real);
    assert MovingAverage(s, row - 1, w) == Sum(before) / (w as real);
    SlideWindow(s, row - w, row);
    assert Sum(now) - Sum(before) == s[row] - s[row - w];
    DivDifference(Sum(now), Sum(before), w as real);
  }

  /** A golden cross needs the 5-day average to gain more than the 20-day one on the last row. */
  lemma GoldenCrossNeedsFasterRise(closes: seq<real>)
    requires GoldenCross(closes)
    ensures var n := |closes|;
            (closes[n - 1] - closes[n - 6]) / 5.0 > (closes[n - 1] - closes[n - 21]) / 20.0
  {
    var n := |closes|;
    MovingAverageStep(closes, n - 1, 5);
    MovingAverageStep(closes, n - 1, 20);
  }

  // ---- Volume breakout ----

  /**
   * `is_volume_breakout(df, volume_period, volume_multiplier)` for a window
   * of at least one row: today's volume above the multiplier times the
   * average of the last `period` volumes, and never on a zero average.
   */
  predicate VolumeBreakout(volumes: seq<real>, period: int, multiplier: real)
    requires period >= 1
  {
    var n := |volumes|;
    n >= period + 1
    && MovingAverage(volumes, n - 1, period) != 0.0
    && volumes[n - 1] > MovingAverage(volumes, n - 1, period) * multiplier
  }

  /** Today's volume is part of its own average, so with non-negative volumes a breakout needs a multiplier below the window length. */
  lemma BreakoutNeedsSmallMultiplier(volumes: seq<real>, period: int, multiplier: real)
    requires period >= 1 && VolumeBreakout(volumes, period, multiplier)
    requires forall i :: 0 <= i < |volumes| ==> volumes[i] >= 0.0
    ensures multiplier < period as real
  {
    var n := |volumes|;
    var w := volumes[n - 1 - period + 1..n - 1 + 1];
    var avg := MovingAverage(volumes, n - 1, period);
    assert avg == Mean(w);
    assert forall i :: 0 <= i < |w| ==> w[i] >= 0.0;
    LastBelowSum(w);
    MeanTimesLength(w);
    var p := period as real;
    assert w[|w| - 1] == volumes[n - 1];
  }

  lemma MeanTimesLength(s: seq<real>)
    requires |s| > 0
    ensures Mean(s) * (|s| as real) == Sum(s)
  {
  }

  /** In a non-empty window of non-negative values the last one is at most the sum, and the sum is not negative. */
  lemma LastBelowSum(s: seq<real>)
    requires |s| > 0 && forall i :: 0 <= i < |s| ==> s[i] >= 0.0
    ensures 0.0 <= s[|s| - 1] <= Sum(s)
  {
    NonNegativeSum(s[..|s| - 1]);
  }

  lemma {:induction false} NonNegativeSum(s: seq<real>)
    requires forall i :: 0 <= i < |s| ==> s[i] >= 0.0
    ensures Sum(s) >= 0.0
  {
    if s != [] {
      NonNegativeSum(s[..|s| - 1]);
    }
  }

  // ---- Recursive EMA and the MACD golden cross ----

  /** The smoothing factor of `ewm(span=span)`. */
  function Alpha(span: nat): real
  {
    2.0 / ((span + 1) as real)
  }

  /** One step of the recursion: the new price weighted by `alpha`, the previous average by `1 - alpha`. */
  function EmaStep(alpha: real, price: real, prev: real): real
  {
    alpha * price + (1.0 - alpha) * prev
  }

  /** `ewm(alpha, adjust=False).mean()`: the first price, then one `EmaStep` per row. */
  function Ema(p: seq<real>, alpha: real): (e: seq<real>)
    ensures |e| == |p|
    ensures |p| > 0 ==> e[0] == p[0]
    ensures forall i :: 1 <= i < |p| ==> e[i] == EmaStep(alpha, p[i], e[i - 1])
  {
    if |p| <= 1 then p
    else
      var prev := Ema(p[..|p| - 1], alpha);
      assert forall i :: 0 <= i < |p| - 1 ==> p[..|p| - 1][i] == p[i];
      prev + [EmaStep(alpha, p[|p| - 1], prev[|p| - 2])]
  }

  /** With a factor in [0, 1] every EMA value is a weighted mean of the prices so far, so it stays within their bounds. */
  lemma {:induction false} EmaWithinBounds(p: seq<real>, alpha: real, lo: real, hi: real)
    requires 0.0 <= alpha <= 1.0
    requires forall i :: 0 <= i < |p| ==> lo <= p[i] <= hi
    ensures forall i :: 0 <= i < |p| ==> lo <= Ema(p, alpha)[i] <= hi
  {
    if |p| > 1 {
      var init := p[..|p| - 1];
      EmaWithinBounds(init, alpha, lo, hi);
      var e := Ema(p, alpha);
      var prev := Ema(init, alpha);
      assert e == prev + [EmaStep(alpha, p[|p| - 1], prev[|p| - 2])];
      StepWithinBounds(alpha, p[|p| - 1], prev[|p| - 2], lo, hi);
      assert forall i :: 0 <= i < |p| - 1 ==> e[i] == prev[i];
    }
  }

  /** One step is a convex combination of the new price and the previous average, so it stays between them. */
  lemma StepWithinBounds(alpha: real, x: real, y: real, lo: real, hi: real)
    requires 0.0 <= alpha <= 1.0 && lo <= x <= hi && lo <= y <= hi
    ensures lo <= EmaStep(alpha, x, y) <= hi
  {
    var d := x - y;
    assert EmaStep(alpha, x, y) == y + alpha * d;
    if d >= 0.0 {
      MulLeLeft(alpha, 0.0, d);
      MulLe(alpha, 1.0, d);
    } else {
      MulLeLeft(alpha, d, 0.0);
      MulLe(alpha, 1.0, -d);
    }
    PartOfTheWay(y, d, alpha * d);
  }

  lemma PartOfTheWay(y: real, d: real, m: real)
    requires d >= 0.0 ==> 0.0 <= m <= d
    requires d < 0.0 ==> d <= m <= 0.0
    ensures MinReal(y, y + d) <= y + m <= MaxReal(y, y + d)
  {
  }

  /** The EMA of a flat series is that series. */
  lemma {:induction false} EmaOfConstant(p: seq<real>, alpha: real, c: real)
    requires forall i :: 0 <= i < |p| ==> p[i] == c
    ensures forall i :: 0 <= i < |p| ==> Ema(p, alpha)[i] == c
  {
    if |p| > 1 {
      EmaOfConstant(p[..|p| - 1], alpha, c);
      assert Ema(p, alpha) == Ema(p[..|p| - 1], alpha) + [EmaStep(alpha, c, Ema(p[..|p| - 1], alpha)[|p| - 2])];
    }
  }

  function Difference(a: seq<real>, b: seq<real>): (d: seq<real>)
    requires |a| == |b|
    ensures |d| == |a| && forall i :: 0 <= i < |a| ==> d[i] == a[i] - b[i]
  {
    seq(|a|, i requires 0 <= i < |a| => a[i] - b[i])
  }

  /** The MACD line `ema_fast - ema_slow` over closing prices. */
  function MacdLine(closes: seq<real>, fast: nat, slow: nat): (line: seq<real>)
    ensures |line| == |closes|
  {
    Difference(Ema(closes, Alpha(fast)), Ema(closes, Alpha(slow)))
  }

  /** Its signal line, the EMA of the MACD line with `signalSpan`. */
  function SignalLine(closes: seq<real>, fast: nat, slow: nat, signalSpan: nat): (sig: seq<real>)
    ensures |sig| == |closes|
  {
    Ema(MacdLine(closes, fast, slow), Alpha(signalSpan))
  }

  /**
   * The MACD golden cross of `is_macd_golden_cross`, with the spans as
   * parameters: at least 35 rows; the line crosses its signal upwards on
   * the last row while rising; the signal is at most `signalCap`; and from
   * 50 rows on, today's volume exceeds 1.1 times the mean of the last ten.
   */
  predicate MacdGoldenCross(closes: seq<real>, volumes: seq<real>, fast: nat, slow: nat, signalSpan: nat, signalCap: real)
    requires |volumes| == |closes|
  {
    var n := |closes|;
    if n < 35 then false
    else
      var line := MacdLine(closes, fast, slow);
      var sig := SignalLine(closes, fast, slow, signalSpan);
      var golden := line[n - 2] <= sig[n - 2] && line[n - 1] > sig[n - 1] && line[n - 1] > line[n - 2];
      var valid := sig[n - 1] <= signalCap;
      if n >= 50 then golden && valid && volumes[n - 1] > MovingAverage(volumes, n - 1, 10) * 1.1
      else golden && valid
  }

  /** analyze/technical_indicators.py uses spans 8 and 18 (not 12 and 26) with a signal span of 9 and the cap 0.2. */
  predicate AnalyzeMacdGoldenCross(closes: seq<real>, volumes: seq<real>)
    requires |volumes| == |closes|
  {
    MacdGoldenCross(closes, volumes, 8, 18, 9, 0.2)
  }

  /** A MACD golden cross is an upward cross of the flags `calculate_macd` writes, on the last row. */
  lemma MacdGoldenCrossIsUpwardCross(closes: seq<real>, volumes: seq<real>, fast: nat, slow: nat, signalSpan: nat, signalCap: real)
    requires |volumes| == |closes| && MacdGoldenCross(closes, volumes, fast, slow, signalSpan, signalCap)
    ensures var n := |closes|;
            MacdSignals.CrossesAbove(MacdLine(closes, fast, slow), SignalLine(closes, fast, slow, signalSpan), n - 1)
  {
  }

  /** A flat price history never gives a MACD golden cross: both lines stay at zero. */
  lemma FlatPricesNeverCross(closes: seq<real>, volumes: seq<real>, c: real, fast: nat, slow: nat, signalSpan: nat, signalCap: real)
    requires |volumes| == |closes| && forall i :: 0 <= i < |closes| ==> closes[i] == c
    ensures !MacdGoldenCross(closes, volumes, fast, slow, signalSpan, signalCap)
  {
    var n := |closes|;
    if n >= 35 {
      EmaOfConstant(closes, Alpha(fast), c);
      EmaOfConstant(closes, Alpha(slow), c);
      var line := MacdLine(closes, fast, slow);
      assert forall i :: 0 <= i < n ==> line[i] == 0.0;
      EmaOfConstant(line, Alpha(signalSpan), 0.0);
      assert line[n - 1] == 0.0 && SignalLine(closes, fast, slow, signalSpan)[n - 1] == 0.0;
    }
  }

  // ---- Double bottom ----

  /** Row i of the window is a strict local minimum of the lows. */
  predicate IsLocalMin(r: seq<real>, i: int)
  {
    1 <= i && i + 1 < |r| && r[i] < r[i - 1] && r[i] < r[i + 1]
  }

  /** The local minima among the rows before `k`, in row order. */
  function MinimaBelow(r: seq<real>, k: nat): (m: seq<nat>)
    requires k <= |r|
    ensures forall j :: 0 <= j < |m| ==> m[j] < k && IsLocalMin(r, m[j])
    ensures forall j, l :: 0 <= j < l < |m| ==> m[j] < m[l]
    ensures forall i :: 0 <= i < k && IsLocalMin(r, i) ==> i in m
    ensures |m| > 0 ==> |r| >= 3
  {
    if k == 0 then []
    else
      var prev := MinimaBelow(r, k - 1);
      if IsLocalMin(r, k - 1) then
        assert forall j :: 0 <= j < |prev| ==> prev[j] < k - 1;
        prev + [k - 1]
      else prev
  }

  /** The decision of `is_double_bottom_pattern` once the local minima of the window are known. */
  predicate DoubleBottomFrom(r: seq<real>, minima: seq<nat>, close: real, tolerance: real)
    requires forall j :: 0 <= j < |minima| ==> minima[j] < |r|
  {
    if |minima| < 2 then false
    else
      var low1, low2 := r[minima[|minima| - 2]], r[minima[|minima| - 1]];
      // A zero first low divides by zero: infinity or NaN, and the comparison fails.
      low1 != 0.0 && MacdSignals.Abs(low1 - low2) / low1 < tolerance && close > MaxReal(low1, low2) * 1.02
  }

  /** `is_double_bottom_pattern(df, lookback, tolerance)` on the lows and closes of the frame. */
  predicate DoubleBottom(lows: seq<real>, closes: seq<real>, lookback: nat, tolerance: real)
    requires |closes| == |lows|
  {
    var r := MacdSignals.SeriesTail(lows, 2 * lookback);
    |lows| >= 2 * lookback && |lows| > 0 && DoubleBottomFrom(r, MinimaBelow(r, |r|), closes[|closes| - 1], tolerance)
  }

  /** A local minimum needs a neighbour on each side, so fewer than three lows have none. */
  lemma NoMinimaInShortSeries(r: seq<real>)
    requires |r| < 3
    ensures MinimaBelow(r, |r|) == []
  {
  }

  /** The loop of `is_double_bottom_pattern` collecting the local minima of the last `2 * lookback` lows. */
  method IsDoubleBottomPattern(lows: seq<real>, closes: seq<real>, lookback: nat, tolerance: real) returns (b: bool)
    requires |closes| == |lows|
    ensures b == DoubleBottom(lows, closes, lookback, tolerance)
  {
    if |lows| == 0 || |lows| < 2 * lookback {
      return false;
    }
    var r := MacdSignals.SeriesTail(lows, 2 * lookback);
    if |r| < 3 {
      NoMinimaInShortSeries(r);
      return false;
    }
    var minima: seq<nat> := [];
    var i := 1;
    assert MinimaBelow(r, 1) == [];
    while i < |r| - 1
      invariant 1 <= i <= |r| - 1
      invariant minima == MinimaBelow(r, i)
    {
      if r[i] < r[i - 1] && r[i] < r[i + 1] {
        minima := minima + [i];
      }
      i := i + 1;
    }
    assert !IsLocalMin(r, |r| - 1);
    assert MinimaBelow(r, |r|) == MinimaBelow(r, |r| - 1);
    b := DoubleBottomFrom(r, minima, closes[|closes| - 1], tolerance);
  }

  /** A detected double bottom rests on two strict local minima of the window that differ by under the tolerance, with the close 2% above both. */
  lemma DoubleBottomWitness(lows: seq<real>, closes: seq<real>, lookback: nat, tolerance: real)
    requires |closes| == |lows| && DoubleBottom(lows, closes, lookback, tolerance)
    ensures var r := MacdSignals.SeriesTail(lows, 2 * lookback);
            exists i, j :: 0 <= i < j < |r| && IsLocalMin(r, i) && IsLocalMin(r, j)
                           && r[i] != 0.0 && MacdSignals.Abs(r[i] - r[j]) / r[i] < tolerance
                           && closes[|closes| - 1] > r[i] * 1.02 && closes[|closes| - 1] > r[j] * 1.02
  {
    var r := MacdSignals.SeriesTail(lows, 2 * lookback);
    var m := MinimaBelow(r, |r|);
    var i, j := m[|m| - 2], m[|m| - 1];
    var c := closes[|closes| - 1];
    MulLe(r[i], MaxReal(r[i], r[j]), 1.02);
    MulLe(r[j], MaxReal(r[i], r[j]), 1.02);
    assert 0 <= i < j < |r| && IsLocalMin(r, i) && IsLocalMin(r, j);
  }

  // ---- Signal count ----

  datatype NamedSignal = NamedSignal(name: string, on: bool)

  function Score(signals: seq<NamedSignal>): (n: nat)
    ensures n <= |signals|
  {
    if signals == [] then 0 else Score(signals[..|signals| - 1]) + (if signals[|signals| - 1].on then 1 else 0)
  }

  /** `[key for key, value in signals.items() if value]`. */
  function ActiveSignals(signals: seq<NamedSignal>): (names: seq<string>)
    ensures forall x :: x in names <==> exists s :: s in signals && s.on && s.name == x
  {
    if signals == [] then []
    else
      var last := signals[|signals| - 1];
      assert signals == signals[..|signals| - 1] + [last];
      ActiveSignals(signals[..|signals| - 1]) + (if last.on then [last.name] else [])
  }

  /** The score is the number of active signals. */
  lemma {:induction false} ScoreCountsActive(signals: seq<NamedSignal>)
    ensures Score(signals) == |ActiveSignals(signals)|
  {
    if signals != [] {
      ScoreCountsActive(signals[..|signals| - 1]);
    }
  }

  /** The thirteen signals of `calculate_buy_signal_score`, in their dictionary order. */
  function BuySignals(goldenCross: bool, bollinger: bool, macdCross: bool, rsi: bool, stochastic: bool, volume: bool,
                      williams: bool, doubleBottom: bool, ichimoku: bool, cupHandle: bool, macdGolden: bool,
                      foreignTrend: string, institutionTrend: string): (s: seq<NamedSignal>)
    ensures |s| == 13
    ensures s[11].on <==> foreignTrend == "steady_buying"
    ensures s[12].on <==> institutionTrend == "steady_buying" || institutionTrend == "accumulating"
  {
    [NamedSignal("골든크로스", goldenCross), NamedSignal("볼린저밴드복귀", bollinger), NamedSignal("MACD상향돌파", macdCross),
     NamedSignal("RSI과매도회복", rsi), NamedSignal("스토캐스틱회복", stochastic), NamedSignal("거래량급증", volume),
     NamedSignal("Williams%R회복", williams), NamedSignal("이중바닥", doubleBottom), NamedSignal("일목균형표", ichimoku),
     NamedSignal("컵앤핸들", cupHandle), NamedSignal("MACD골든크로스", macdGolden),
     NamedSignal("외국인매수추세", foreignTrend == "steady_buying"),
     NamedSignal("기관매수추세", institutionTrend in {"steady_buying", "accumulating"})]
  }

  /** `calculate_buy_signal_score`: nothing for a missing or empty frame, else the count and the names of the true signals. */
  function BuySignalScore(frameRows: int, signals: seq<NamedSignal>): (r: (nat, seq<string>))
    ensures frameRows <= 0 ==> r == (0, [])
    ensures frameRows > 0 ==> r.0 == |r.1| && r.0 <= |signals| && r.1 == ActiveSignals(signals)
  {
    if frameRows <= 0 then (0, [])
    else
      ScoreCountsActive(signals);
      (Score(signals), ActiveSignals(signals))
  }

  // ---- Fundamental filter ----

  /** The conditions `passes_fundamental_filters` collects: one per value that is present. */
  function FilterConditions(per: Option<real>, roe: Option<real>, debtRatio: Option<real>): seq<bool>
  {
    (if per.Some? then [per.value < 80.0] else [])
    + (if roe.Some? then [roe.value > 1.0] else [])
    + (if debtRatio.Some? then [debtRatio.value < 500.0] else [])
  }

  /** It passes iff at least one value is present and every present value meets its bound. */
  function PassesFundamentalFilters(per: Option<real>, roe: Option<real>, debtRatio: Option<real>): (pass: bool)
    ensures pass <==> (per.Some? || roe.Some? || debtRatio.Some?)
                      && (per.Some? ==> per.value < 80.0)
                      && (roe.Some? ==> roe.value > 1.0)
                      && (debtRatio.Some? ==> debtRatio.value < 500.0)
  {
    var c := FilterConditions(per, roe, debtRatio);
    var a := if per.Some? then [per.value < 80.0] else [];
    var b := if roe.Some? then [roe.value > 1.0] else [];
    var d := if debtRatio.Some? then [debtRatio.value < 500.0] else [];
    assert c == a + b + d;
    assert (forall i :: 0 <= i < |a| ==> a[i]) <==> (per.Some? ==> per.value < 80.0) by {
      if per.Some? { assert a[0] == (per.value < 80.0); }
    }
    assert (forall i :: 0 <= i < |b| ==> b[i]) <==> (roe.Some? ==> roe.value > 1.0) by {
      if roe.Some? { assert b[0] == (roe.value > 1.0); }
    }
    assert (forall i :: 0 <= i < |d| ==> d[i]) <==> (debtRatio.Some? ==> debtRatio.value < 500.0) by {
      if debtRatio.Some? { assert d[0] == (debtRatio.value < 500.0); }
    }
    AllOfConcat(a, b);
    AllOfConcat(a + b, d);
    |c| > 0 && forall i :: 0 <= i < |c| ==> c[i]
  }

  lemma AllOfConcat(a: seq<bool>, b: seq<bool>)
    ensures (forall i :: 0 <= i < |a + b| ==> (a + b)[i]) <==> (forall i :: 0 <= i < |a| ==> a[i]) && (forall i :: 0 <= i < |b| ==> b[i])
  {
    assert forall i :: 0 <= i < |a| ==> (a + b)[i] == a[i];
    assert forall i :: 0 <= i < |b| ==> (a + b)[|a| + i] == b[i];
  }
}
