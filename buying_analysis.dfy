/**
 * The screening script analyze_buying_stocks.py where it differs from the
 * analyze package: the MACD golden cross over the standard spans 12/26/9,
 * the near golden cross, the investor-trend rule with a distributing band
 * for both investor groups, its thirteen-signal score and the grading of
 * that score. Its fundamental filter is the one of AnalyzeIndicators.
 */
module BuyingAnalysis {
  import opened Common
  import MacdSignals
  import AnalyzeIndicators
  import DataFetcher

  /** `is_macd_golden_cross` of the script: the analyze package's rule with the standard spans 12 and 26. */
  predicate MacdGoldenCross(closes: seq<real>, volumes: seq<real>)
    requires |volumes| == |closes|
  {
    AnalyzeIndicators.MacdGoldenCross(closes, volumes, 12, 26, 9, 0.2)
  }

  /**
   * `is_macd_near_golden_cross`: at least 35 rows; the MACD line still
   * below its signal but close to it; the line rising over two rows or the
   * histogram improving over two rows; and the signal at most 0.3.
   */
  predicate NearGoldenCross(closes: seq<real>)
  {
    var n := |closes|;
    if n < 35 then false
    else
      var line := AnalyzeIndicators.MacdLine(closes, 12, 26);
      var sig := AnalyzeIndicators.SignalLine(closes, 12, 26, 9);
      if line[n - 1] >= sig[n - 1] then false
      else
        var diff := MacdSignals.Abs(line[n - 1] - sig[n - 1]);
        var isClose := diff / MaxReal(MacdSignals.Abs(sig[n - 1]), 0.01) <= 0.05 || diff <= 0.03;
        var trendUp := line[n - 1] > line[n - 2] && line[n - 2] >= line[n - 3];
        var improving := line[n - 1] - sig[n - 1] > line[n - 2] - sig[n - 2]
                         && line[n - 2] - sig[n - 2] > line[n - 3] - sig[n - 3];
        isClose && (trendUp || improving) && sig[n - 1] <= 0.3
  }

  /** A near cross is never reported while the line is at or above its signal, nor with a signal above 0.3. */
  lemma NearCrossIsBelowSignal(closes: seq<real>)
    requires NearGoldenCross(closes)
    ensures var n := |closes|;
            var sig := AnalyzeIndicators.SignalLine(closes, 12, 26, 9);
            AnalyzeIndicators.MacdLine(closes, 12, 26)[n - 1] < sig[n - 1] && sig[n - 1] <= 0.3
  {
  }

  /** The near cross and the golden cross of the same day exclude each other. */
  lemma NearAndGoldenExclusive(closes: seq<real>, volumes: seq<real>)
    requires |volumes| == |closes|
    ensures !(NearGoldenCross(closes) && MacdGoldenCross(closes, volumes))
  {
  }

  /** Being close to the signal in absolute terms: a gap of at most 0.03 always counts as close. */
  lemma SmallGapIsClose(closes: seq<real>)
    requires |closes| >= 35
    requires var n := |closes|;
             var line := AnalyzeIndicators.MacdLine(closes, 12, 26);
             var sig := AnalyzeIndicators.SignalLine(closes, 12, 26, 9);
             && line[n - 1] < sig[n - 1] && sig[n - 1] - line[n - 1] <= 0.03 && sig[n - 1] <= 0.3
             && line[n - 1] > line[n - 2] && line[n - 2] >= line[n - 3]
    ensures NearGoldenCross(closes)
  {
  }

  /**
   * `get_institution_netbuy_trend_kis` and `get_foreign_netbuy_trend_kis`
   * once the API has answered: `fields` are the quantity fields of the
   * `output` rows (none when the answer has no `output`). Both investor
   * groups use the rule with the distributing band; a field `int` cannot
   * read gives `([], "unknown")`.
   */
  method KisNetbuyTrend(fields: seq<string>, days: int) returns (r: DataFetcher.TrendResult)
    ensures var p := DataFetcher.ParsedNetbuys(Head(fields, days));
            r == (if p.None? then DataFetcher.TrendResult([], DataFetcher.UnknownTrend)
                  else DataFetcher.TrendResult(p.value, DataFetcher.ForeignTrend(p.value, days)))
    ensures fields == [] ==> r == DataFetcher.TrendResult([], DataFetcher.Neutral)
  {
    var p := DataFetcher.ParseNetbuys(fields, days);
    if p.None? {
      return DataFetcher.TrendResult([], DataFetcher.UnknownTrend);
    }
    return DataFetcher.TrendResult(p.value, DataFetcher.ForeignTrend(p.value, days));
  }

  /** `is_institution_consecutive_buying(days)`: a steady-buying trend over exactly `days` parsed values. */
  predicate InstitutionConsecutiveBuying(r: DataFetcher.TrendResult, days: int)
  {
    r.trend == DataFetcher.SteadyBuying && |r.netbuys| == days
  }

  /** The length test is implied: a steady-buying verdict over the first `days` rows already has `days` values, all positive. */
  lemma SteadyBuyingHasEveryDay(fields: seq<string>, days: int)
    requires DataFetcher.ParsedNetbuys(Head(fields, days)).Some?
    ensures var l := DataFetcher.ParsedNetbuys(Head(fields, days)).value;
            var r := DataFetcher.TrendResult(l, DataFetcher.ForeignTrend(l, days));
            InstitutionConsecutiveBuying(r, days) <==> |l| >= 3 && |l| == days && forall i :: 0 <= i < |l| ==> l[i] > 0
  {
    var l := DataFetcher.ParsedNetbuys(Head(fields, days)).value;
    if DataFetcher.ForeignTrend(l, days) == DataFetcher.SteadyBuying {
      DataFetcher.SteadyMeansEveryDayBought(fields, days);
    }
  }

  /** The thirteen signals of the script's `calculate_buy_signal_score`, in dictionary order; the last is the institutional check. */
  function BuySignals(goldenCross: bool, bollinger: bool, macdCross: bool, rsi: bool, stochastic: bool, volume: bool,
                      williams: bool, doubleBottom: bool, ichimoku: bool, cupHandle: bool, macdGolden: bool,
                      foreignTrend: DataFetcher.Trend, hasAppKey: bool, institutionBuying: bool)
    : (s: seq<AnalyzeIndicators.NamedSignal>)
    ensures |s| == 13
    ensures s[11].on <==> foreignTrend == DataFetcher.SteadyBuying
    ensures s[12].on <==> hasAppKey && institutionBuying
  {
    [AnalyzeIndicators.NamedSignal("골든크로스", goldenCross), AnalyzeIndicators.NamedSignal("볼린저밴드복귀", bollinger),
     AnalyzeIndicators.NamedSignal("MACD상향돌파", macdCross), AnalyzeIndicators.NamedSignal("RSI과매도회복", rsi),
     AnalyzeIndicators.NamedSignal("스토캐스틱회복", stochastic), AnalyzeIndicators.NamedSignal("거래량급증", volume),
     AnalyzeIndicators.NamedSignal("Williams%R회복", williams), AnalyzeIndicators.NamedSignal("이중바닥", doubleBottom),
     AnalyzeIndicators.NamedSignal("일목균형표", ichimoku), AnalyzeIndicators.NamedSignal("컵앤핸들", cupHandle),
     AnalyzeIndicators.NamedSignal("MACD골든크로스", macdGolden),
     AnalyzeIndicators.NamedSignal("외국인매수추세", foreignTrend == DataFetcher.SteadyBuying),
     AnalyzeIndicators.NamedSignal("기관연속매수", hasAppKey && institutionBuying)]
  }

  /** With every technical signal off, only the two investor signals can score. */
  lemma InvestorSignalsAlone(foreignTrend: DataFetcher.Trend, hasAppKey: bool, institutionBuying: bool)
    ensures var s := BuySignals(false, false, false, false, false, false, false, false, false, false, false,
                                foreignTrend, hasAppKey, institutionBuying);
            AnalyzeIndicators.Score(s) == (if foreignTrend == DataFetcher.SteadyBuying then 1 else 0)
                                          + (if hasAppKey && institutionBuying then 1 else 0)
  {
    var s := BuySignals(false, false, false, false, false, false, false, false, false, false, false,
                        foreignTrend, hasAppKey, institutionBuying);
    assert s[..12][..11] == s[..11];
    assert s[..13] == s;
    assert AnalyzeIndicators.Score(s[..1]) == 0 by { assert s[..1][..0] == []; }
    var k := 1;
    while k < 11
      invariant 1 <= k <= 11 && AnalyzeIndicators.Score(s[..k]) == 0
    {
      assert s[..k + 1][..k] == s[..k];
      k := k + 1;
    }
    assert s[..12][..11] == s[..11];
    assert s[..13][..12] == s[..12];
  }

  datatype Grade = UltraStrong | Strong | Moderate | Weak | Single

  /** The multi-signal bucket of a score: 5 or more, 4, 3, 2, 1; a score of 0 goes in no bucket. */
  function GradeOf(score: int): (g: Option<Grade>)
    ensures g.None? <==> score < 1
    ensures g == Some(UltraStrong) <==> score >= 5
    ensures g == Some(Single) <==> score == 1
  {
    if score >= 5 then Some(UltraStrong)
    else if score == 4 then Some(Strong)
    else if score == 3 then Some(Moderate)
    else if score == 2 then Some(Weak)
    else if score == 1 then Some(Single)
    else None
  }

  function GradeRank(g: Option<Grade>): int
  {
    match g
    case None => 0
    case Some(Single) => 1
    case Some(Weak) => 2
    case Some(Moderate) => 3
    case Some(Strong) => 4
    case Some(UltraStrong) => 5
  }

  /** A higher score never lands in a lower bucket, and the rank is the score capped at 5 (0 for no score). */
  lemma GradeIsMonotone(a: int, b: int)
    requires a <= b
    ensures GradeRank(GradeOf(a)) <= GradeRank(GradeOf(b))
    ensures GradeRank(GradeOf(a)) == if a >= 5 then 5 else if a < 0 then 0 else a
  {
  }
}
