/**
 * MACD cross flags and golden-cross detection
 * (trading_system/strategy/technical_indicators.py; autotrader.py carries
 * an identical copy). The MACD line and its signal line are pandas `ewm`
 * averages with the default `adjust=True`; they enter as given reals.
 */
module MacdSignals {
  import opened Common

  /** The MACD columns `calculate_macd` adds to a frame. */
  datatype MacdFrame = MacdFrame(line: seq<real>, signal: seq<real>, histogram: seq<real>, cross: seq<int>)
  {
    predicate WellFormed()
    {
      |signal| == |line| && |histogram| == |line| && |cross| == |line|
    }
  }

  /** The line crosses above its signal at row i. */
  predicate CrossesAbove(line: seq<real>, signal: seq<real>, i: int)
    requires |signal| == |line| && 1 <= i < |line|
  {
    line[i] > signal[i] && line[i - 1] <= signal[i - 1]
  }

  /** The line crosses below its signal at row i. */
  predicate CrossesBelow(line: seq<real>, signal: seq<real>, i: int)
    requires |signal| == |line| && 1 <= i < |line|
  {
    line[i] < signal[i] && line[i - 1] >= signal[i - 1]
  }

  /** `macd_cross` as `calculate_macd` leaves it: 0 in row 0, then +1 on an upward cross, -1 on a downward cross, 0 otherwise. */
  predicate FlagsFor(line: seq<real>, signal: seq<real>, cross: seq<int>)
    requires |signal| == |line|
  {
    && |cross| == |line|
    && (|cross| > 0 ==> cross[0] == 0)
    && (forall i :: 1 <= i < |cross| ==> (cross[i] == 1 <==> CrossesAbove(line, signal, i)))
    && (forall i :: 1 <= i < |cross| ==> (cross[i] == -1 <==> CrossesBelow(line, signal, i)))
    && (forall i :: 0 <= i < |cross| ==> -1 <= cross[i] <= 1)
  }

  /** The cross-flag loop of `calculate_macd`: a zero column, then one cell written per row from row 1 on. */
  method MarkCrosses(line: seq<real>, signal: seq<real>) returns (cross: seq<int>)
    requires |signal| == |line|
    ensures FlagsFor(line, signal, cross)
  {
    var flags := new int[|line|](_ => 0);
    var i := 1;
    while i < |line|
      invariant 1 <= i && (|line| == 0 || i <= |line|)
      invariant forall j :: 0 <= j < flags.Length && (j == 0 || j >= i) ==> flags[j] == 0
      invariant forall j :: 1 <= j < i && j < flags.Length ==> (flags[j] == 1 <==> CrossesAbove(line, signal, j))
      invariant forall j :: 1 <= j < i && j < flags.Length ==> (flags[j] == -1 <==> CrossesBelow(line, signal, j))
      invariant forall j :: 0 <= j < flags.Length ==> -1 <= flags[j] <= 1
    {
      if line[i] > signal[i] && line[i - 1] <= signal[i - 1] {
        flags[i] := 1;
      } else if line[i] < signal[i] && line[i - 1] >= signal[i - 1] {
        flags[i] := -1;
      }
      i := i + 1;
    }
    cross := flags[..];
  }

  /**
   * `calculate_macd` with `rows` rows: None (the frame is returned without
   * MACD columns) when there are fewer than `slow + signalSpan` rows.
   */
  method CalculateMacd(line: seq<real>, signal: seq<real>, slow: int, signalSpan: int) returns (r: Option<MacdFrame>)
    requires |signal| == |line|
    ensures |line| < slow + signalSpan <==> r.None?
    ensures r.Some? ==>
              && r.value.WellFormed() && r.value.line == line && r.value.signal == signal
              && (forall i :: 0 <= i < |line| ==> r.value.histogram[i] == line[i] - signal[i])
              && FlagsFor(line, signal, r.value.cross)
  {
    if |line| < slow + signalSpan {
      return None;
    }
    var cross := MarkCrosses(line, signal);
    var histogram := seq(|line|, i requires 0 <= i < |line| => line[i] - signal[i]);
    r := Some(MacdFrame(line, signal, histogram, cross));
  }

  /** The upward and downward cross cannot happen on the same row. */
  lemma CrossesAreExclusive(line: seq<real>, signal: seq<real>, cross: seq<int>)
    requires |signal| == |line| && FlagsFor(line, signal, cross)
    ensures forall i :: 1 <= i < |cross| ==> !(CrossesAbove(line, signal, i) && CrossesBelow(line, signal, i))
    ensures forall i :: 1 <= i < |cross| ==> (cross[i] == 0 <==> !CrossesAbove(line, signal, i) && !CrossesBelow(line, signal, i))
  {
  }

  datatype HistogramTrend = Rising | Falling | Neutral

  datatype CrossReport = CrossReport(
    goldenCross: bool, crossStrength: real, signalAge: int,
    histogramTrend: Option<HistogramTrend>, macdAboveZero: bool)

  /** The result `detect_macd_golden_cross` returns when it cannot decide. */
  const NoCross: CrossReport := CrossReport(false, 0.0, 999, None, false)

  /** pandas `Series.tail(n)`: nothing for n = 0, otherwise the slice `s[-n:]`. */
  function SeriesTail<T>(s: seq<T>, n: int): (t: seq<T>)
    ensures n >= 0 ==> t == s[|s| - (if n < |s| then n else |s|)..]
  {
    if n == 0 then [] else Tail(s, n)
  }

  /** The position of the last occurrence of `v`. */
  function LastIndexOf(s: seq<int>, v: int): (r: Option<nat>)
    ensures r.Some? ==> r.value < |s| && s[r.value] == v && forall j :: r.value < j < |s| ==> s[j] != v
    ensures r.None? ==> v !in s
  {
    if s == [] then None
    else if s[|s| - 1] == v then Some(|s| - 1)
    else LastIndexOf(s[..|s| - 1], v)
  }

  function TrendOfLastThree(h: seq<real>): HistogramTrend
    requires |h| >= 3
  {
    var (a, b, c) := (h[|h| - 3], h[|h| - 2], h[|h| - 1]);
    if a < b && b < c then Rising else if a > b && b > c then Falling else Neutral
  }

  function Abs(x: real): real { if x < 0.0 then -x else x }

  function Bonus(c: bool): real { if c then 0.5 else 0.0 }

  /** How many of the conditions `cs` hold. */
  function CountTrue(cs: seq<bool>): (k: nat)
    ensures k <= |cs|
  {
    if cs == [] then 0 else (if cs[0] then 1 else 0) + CountTrue(cs[1..])
  }

  /** The four bonuses add half a point per condition that holds. */
  lemma BonusesCount(a: bool, b: bool, c: bool, d: bool)
    ensures Bonus(a) + Bonus(b) + Bonus(c) + Bonus(d) == 0.5 * CountTrue([a, b, c, d]) as real
  {
    assert [a, b, c, d][1..] == [b, c, d];
    assert [b, c, d][1..] == [c, d];
    assert [c, d][1..] == [d];
    assert [d][1..] == [];
    assert CountTrue([d]) == (if d then 1 else 0);
    assert CountTrue([c, d]) == (if c then 1 else 0) + (if d then 1 else 0);
    assert CountTrue([b, c, d]) == (if b then 1 else 0) + (if c then 1 else 0) + (if d then 1 else 0);
  }

  /**
   * `detect_macd_golden_cross(df, lookback)`: `frame` is None when the
   * frame has no `macd_cross` column; `lineStd` is the sample standard
   * deviation of the MACD line, a library value taken as given.
   */
  function DetectGoldenCross(frame: Option<MacdFrame>, lookback: int, lineStd: real): (r: CrossReport)
    requires frame.Some? ==> frame.value.WellFormed()
    ensures frame.None? || |frame.value.line| < 10 ==> r == NoCross
    ensures frame.Some? && |frame.value.line| >= 10 ==>
              var f := frame.value;
              var n := |f.line|;
              && (r.goldenCross <==> 1 in SeriesTail(f.cross, lookback))
              && (r.goldenCross ==> 0 <= r.signalAge < n && f.cross[n - 1 - r.signalAge] == 1
                                    && forall j :: n - 1 - r.signalAge < j < n ==> f.cross[j] != 1)
              && (!r.goldenCross ==> r.signalAge == 999 && r.crossStrength == 0.0)
              && (r.goldenCross ==> 2.0 <= r.crossStrength <= 4.0)
              && (r.goldenCross ==>
                    r.crossStrength == 2.0 + 0.5 * CountTrue([f.line[n - 1] > 0.0, r.histogramTrend == Some(Rising),
                                                              r.signalAge <= 2, Abs(f.line[n - 1] - f.signal[n - 1]) > lineStd * 0.5]) as real)
              && (r.histogramTrend == Some(Rising) <==> f.histogram[n - 3] < f.histogram[n - 2] < f.histogram[n - 1])
              && (r.histogramTrend == Some(Falling) <==> f.histogram[n - 3] > f.histogram[n - 2] > f.histogram[n - 1])
              && (r.macdAboveZero <==> f.line[n - 1] > 0.0)
  {
    if frame.None? || |frame.value.line| < 10 then NoCross
    else
      var f := frame.value;
      var n := |f.line|;
      var golden := 1 in SeriesTail(f.cross, lookback);
      var age := if golden then (match LastIndexOf(f.cross, 1) case Some(k) => n - k - 1 case None => 999) else 999;
      var gap := Abs(f.line[n - 1] - f.signal[n - 1]);
      var trend := TrendOfLastThree(f.histogram);
      var above := f.line[n - 1] > 0.0;
      var strength :=
        if golden then 2.0 + Bonus(above) + Bonus(trend == Rising) + Bonus(age <= 2) + Bonus(gap > lineStd * 0.5)
        else 0.0;
      BonusesCount(above, trend == Rising, age <= 2, gap > lineStd * 0.5);
      CrossReport(golden, MinReal(strength, 5.0), age, Some(trend), above)
  }

  /** With a positive look-back, a detected cross is younger than the look-back window. */
  lemma SignalAgeWithinLookback(frame: Option<MacdFrame>, lookback: int, lineStd: real)
    requires frame.Some? && frame.value.WellFormed()
    requires lookback >= 1
    ensures var r := DetectGoldenCross(frame, lookback, lineStd);
            r.goldenCross ==> r.signalAge < lookback
  {
    var r := DetectGoldenCross(frame, lookback, lineStd);
    if r.goldenCross {
      var f := frame.value;
      var n := |f.line|;
      var t := SeriesTail(f.cross, lookback);
      var m := if lookback < n then lookback else n;
      var k :| 0 <= k < |t| && t[k] == 1;
      assert f.cross[n - m + k] == 1;
    }
  }

  /** On flags written by `calculate_macd`, the reported cross is a row where the MACD line rose through its signal. */
  lemma ReportedCrossIsUpwardCross(line: seq<real>, signal: seq<real>, frame: MacdFrame, lookback: int, lineStd: real)
    requires frame.WellFormed() && frame.line == line && frame.signal == signal
    requires FlagsFor(line, signal, frame.cross)
    ensures var r := DetectGoldenCross(Some(frame), lookback, lineStd);
            var n := |line|;
            r.goldenCross && n >= 10 ==>
              var i := n - 1 - r.signalAge;
              1 <= i && line[i] > signal[i] && line[i - 1] <= signal[i - 1]
  {
    var r := DetectGoldenCross(Some(frame), lookback, lineStd);
    var n := |line|;
    if r.goldenCross && n >= 10 {
      FlagOneIsUpwardCross(line, signal, frame.cross, n - 1 - r.signalAge);
    }
  }

  /** A +1 flag marks a row where the line rose through its signal. */
  lemma FlagOneIsUpwardCross(line: seq<real>, signal: seq<real>, cross: seq<int>, i: int)
    requires |signal| == |line| && FlagsFor(line, signal, cross)
    requires 0 <= i < |cross| && cross[i] == 1
    ensures 1 <= i && line[i] > signal[i] && line[i - 1] <= signal[i - 1]
  {
    assert i != 0;
    assert CrossesAbove(line, signal, i);
  }
}
