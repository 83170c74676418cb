/**
 * The phase-one screening helpers of analyze/enhanced_technical_indicators.py:
 * the distance of the close from its 20-day average and its bonus, the run
 * of consecutive institutional buying days, the foreign/institution
 * combinator and the traded-value threshold.
 */
module EnhancedIndicators {
  import opened Common

  /** The band the divergence from MA20 falls in; `Unknown` when it cannot be computed. */
  datatype Category = Mild | Moderate | Strong | AboveMa20 | Unknown
  {
    function Name(): string
    {
      match this
      case Mild => "mild"
      case Moderate => "moderate"
      case Strong => "strong"
      case AboveMa20 => "above_ma20"
      case Unknown => "unknown"
    }
  }

  /** The bands of the divergence in percent: [-5, 0], [-10, -5), below -10, and above 0. */
  function Classify(pct: real): (c: Category)
    ensures c != Unknown
    ensures c == Mild <==> -5.0 <= pct <= 0.0
    ensures c == Moderate <==> -10.0 <= pct < -5.0
    ensures c == Strong <==> pct < -10.0
    ensures c == AboveMa20 <==> pct > 0.0
  {
    if -5.0 <= pct <= 0.0 then Mild
    else if -10.0 <= pct < -5.0 then Moderate
    else if pct < -10.0 then Strong
    else AboveMa20
  }

  /** How deep a category sits below the average: 0 above it, 3 for a strong correction. */
  function Depth(c: Category): int
  {
    match c
    case AboveMa20 => 0
    case Mild => 1
    case Moderate => 2
    case Strong => 3
    case Unknown => 0
  }

  /** A lower divergence never falls in a shallower band. */
  lemma ClassifyIsMonotone(x: real, y: real)
    requires x <= y
    ensures Depth(Classify(x)) >= Depth(Classify(y))
  {
  }

  /** The `MA20` column of the frame: absent (then it is computed as the 20-row rolling mean), or its last value (None for NaN). */
  datatype Ma20Column = Absent | Present(last: Option<real>)

  datatype Divergence = Divergence(pct: Option<real>, category: Category, ma20: Option<real>)

  /** The last MA20 value `calculate_ma20_divergence` reads. */
  function LastMa20(closes: seq<real>, column: Ma20Column): (m: Option<real>)
    requires |closes| >= 20
    ensures column.Absent? ==> m == Some(Mean(closes[|closes| - 20..]))
    ensures column.Present? ==> m == column.last
  {
    if column.Absent? then Some(Mean(closes[|closes| - 20..])) else column.last
  }

  /** `calculate_ma20_divergence` on the closing prices. */
  function Ma20Divergence(closes: seq<real>, column: Ma20Column): (d: Divergence)
    ensures |closes| < 20 ==> d == Divergence(None, Unknown, None)
    ensures d.category == Unknown <==> d.pct.None?
    ensures d.pct.Some? ==> |closes| >= 20 && d.ma20.Some? && d.ma20.value != 0.0
                            && d.ma20 == LastMa20(closes, column)
                            && d.pct.value == (closes[|closes| - 1] - d.ma20.value) / d.ma20.value * 100.0
                            && d.category == Classify(d.pct.value)
    ensures |closes| >= 20 && d.pct.None? ==> LastMa20(closes, column) in {None, Some(0.0)}
  {
    if |closes| < 20 then Divergence(None, Unknown, None)
    else
      var m := LastMa20(closes, column);
      if m.None? || m.value == 0.0 then Divergence(None, Unknown, None)
      else
        var price := closes[|closes| - 1];
        var pct := (price - m.value) / m.value * 100.0;
        Divergence(Some(pct), Classify(pct), m)
  }

  /** With a positive average, the close is at or below it exactly when the divergence lands in one of the three correction bands. */
  lemma CorrectionMeansAtOrBelowAverage(closes: seq<real>, column: Ma20Column)
    requires |closes| >= 20
    requires var m := LastMa20(closes, column); m.Some? && m.value > 0.0
    ensures var d := Ma20Divergence(closes, column);
            d.category in {Mild, Moderate, Strong} <==> closes[|closes| - 1] <= LastMa20(closes, column).value
  {
    var m := LastMa20(closes, column).value;
    var p := closes[|closes| - 1];
    var q := (p - m) / m;
    assert q * m == p - m;
    if q <= 0.0 {
      MulLe(q, 0.0, m);
    } else {
      MulLt(0.0, q, m);
    }
  }

  /** The `ma20_divergence` section of the configuration. */
  datatype BonusConfig = BonusConfig(enabled: bool, bonusScores: map<string, real>)

  /** `get_divergence_bonus`: nothing without an enabled configuration, else the configured score of the category, 0 when it has none. */
  function DivergenceBonus(d: Divergence, config: Option<BonusConfig>): (b: real)
    ensures config.None? || !config.value.enabled ==> b == 0.0
    ensures config.Some? && config.value.enabled ==>
              b == (if d.category.Name() in config.value.bonusScores then config.value.bonusScores[d.category.Name()] else 0.0)
  {
    if config.None? || !config.value.enabled then 0.0
    else
      var scores := config.value.bonusScores;
      var key := d.category.Name();
      if key in scores then scores[key] else 0.0
  }

  /** A divergence that could not be computed earns a bonus only if the configuration scores "unknown" itself. */
  lemma UnknownEarnsNoBonus(closes: seq<real>, column: Ma20Column, config: Option<BonusConfig>)
    requires config.Some? ==> "unknown" !in config.value.bonusScores
    requires |closes| < 20
    ensures DivergenceBonus(Ma20Divergence(closes, column), config) == 0.0
  {
  }

  /** The number of leading positive entries. */
  function LeadingPositives(s: seq<int>): (k: nat)
    ensures k <= |s|
    ensures forall i :: 0 <= i < k ==> s[i] > 0
    ensures k < |s| ==> s[k] <= 0
  {
    if s == [] || s[0] <= 0 then 0 else 1 + LeadingPositives(s[1..])
  }

  /**
   * `check_institution_consecutive_buying` as a value: the leading run of
   * buying days among the first `n`, met when all `n` are buying days. A
   * non-positive `n` asks for nothing, so any non-empty list meets it.
   */
  function InstitutionRun(netbuys: seq<int>, n: int): (r: (bool, nat))
    ensures r.1 <= (if n >= 0 then n else |netbuys|)
    ensures r.0 <==> |netbuys| > 0 && |netbuys| >= n && forall i :: 0 <= i < n ==> netbuys[i] > 0
    ensures |netbuys| == 0 || |netbuys| < n ==> r == (false, 0)
  {
    if |netbuys| == 0 || |netbuys| < n then (false, 0)
    else
      var recent := Head(netbuys, n);
      var count := LeadingPositives(recent);
      (count >= n, count)
  }

  /** For the default of two days and longer lists: buying on both of the two latest days. */
  lemma TwoDayRun(netbuys: seq<int>)
    requires |netbuys| >= 2
    ensures InstitutionRun(netbuys, 2).0 <==> netbuys[0] > 0 && netbuys[1] > 0
  {
    var h := Head(netbuys, 2);
    assert h[0] == netbuys[0] && h[1] == netbuys[1];
  }

  /** The counting loop of `check_institution_consecutive_buying`, which stops at the first day without net buying. */
  method CheckInstitutionConsecutiveBuying(netbuys: seq<int>, n: int) returns (meets: bool, days: nat, volumes: seq<int>)
    ensures (meets, days) == InstitutionRun(netbuys, n)
    ensures volumes == (if |netbuys| == 0 || |netbuys| < n then [] else Head(netbuys, n))
  {
    if |netbuys| == 0 || |netbuys| < n {
      return false, 0, [];
    }
    var recent := Head(netbuys, n);
    var count := 0;
    var i := 0;
    while i < |recent|
      invariant 0 <= i <= |recent| && count == i
      invariant LeadingPositives(recent) == i + LeadingPositives(recent[i..])
    {
      if recent[i] > 0 {
        assert recent[i..][1..] == recent[i + 1..];
        count := count + 1;
      } else {
        break;
      }
      i := i + 1;
    }
    meets, days, volumes := count >= n, count, recent;
  }

  /** `check_investor_condition`'s combination of the two checks; an unknown condition type is never met. */
  function InvestorCondition(conditionType: string, foreign: bool, institution: bool): (meets: bool)
    ensures conditionType !in {"foreign_only", "institution_only", "both", "either"} ==> !meets
    ensures conditionType == "both" ==> (meets <==> foreign && institution)
    ensures conditionType == "either" ==> (meets <==> foreign || institution)
    ensures conditionType == "foreign_only" ==> meets == foreign
    ensures conditionType == "institution_only" ==> meets == institution
  {
    if conditionType == "foreign_only" then foreign
    else if conditionType == "institution_only" then institution
    else if conditionType == "both" then foreign && institution
    else if conditionType == "either" then foreign || institution
    else false
  }

  /** "both" is the strictest and "either" the loosest of the four combinations. */
  lemma BothImpliesEveryOther(conditionType: string, foreign: bool, institution: bool)
    ensures InvestorCondition("both", foreign, institution) ==> InvestorCondition(conditionType, foreign, institution)
                                                                  || conditionType !in {"foreign_only", "institution_only", "both", "either"}
    ensures InvestorCondition(conditionType, foreign, institution) ==> InvestorCondition("either", foreign, institution)
  {
  }

  /**
   * `check_investor_condition` as it is evidently meant to work: `foreignCheck`
   * stands for the foreign-investor predicate it imports, asked only for a
   * non-empty list; the institution check runs only on a non-empty list.
   */
  method CheckInvestorCondition(foreignList: seq<int>, institutionList: seq<int>, conditionType: string, n: int,
                                foreignCheck: seq<int> -> bool) returns (meets: bool)
    ensures meets == InvestorCondition(conditionType, |foreignList| > 0 && foreignCheck(foreignList),
                                       InstitutionRun(institutionList, n).0)
  {
    var foreign := |foreignList| > 0 && foreignCheck(foreignList);
    var institution := false;
    if |institutionList| > 0 {
      var days: nat;
      var volumes: seq<int>;
      institution, days, volumes := CheckInstitutionConsecutiveBuying(institutionList, n);
    }
    meets := InvestorCondition(conditionType, foreign, institution);
  }

  /**
   * `check_investor_condition` as written: the foreign-investor function it
   * imports from `technical_indicators` is not defined in
   * analyze/technical_indicators.py, so the import raises, the exception
   * handler answers, and the condition is never met.
   */
  function InvestorConditionAsWritten(foreignList: seq<int>, institutionList: seq<int>, conditionType: string, n: int): (meets: bool)
    ensures !meets
  {
    false
  }

  /** Two days of institutional buying satisfy "institution_only" in the intended combinator, but not as written. */
  lemma ImportFailureHidesInstitutionBuying()
    ensures InvestorCondition("institution_only", false, InstitutionRun([5, 7], 2).0)
    ensures !InvestorConditionAsWritten([], [5, 7], "institution_only", 2)
  {
    TwoDayRun([5, 7]);
  }

  const DefaultMinTradingValue: int := 100_000_000

  /** `check_trading_value`: `int(price * volume)` of the last row against the minimum; an empty frame gives (false, 0). */
  function TradingValue(prices: seq<real>, volumes: seq<real>, minValue: int): (r: (bool, int))
    requires |prices| == |volumes|
    ensures |prices| == 0 ==> r == (false, 0)
    ensures |prices| > 0 ==> r.1 == Trunc(prices[|prices| - 1] * volumes[|volumes| - 1]) && (r.0 <==> r.1 >= minValue)
  {
    if |prices| == 0 then (false, 0)
    else
      var value := Trunc(prices[|prices| - 1] * volumes[|volumes| - 1]);
      (value >= minValue, value)
  }

  /** Truncation does not move an integer threshold: a non-negative traded value meets a positive minimum exactly when the exact product does. */
  lemma TruncationKeepsThreshold(prices: seq<real>, volumes: seq<real>, minValue: int)
    requires |prices| == |volumes| > 0 && minValue > 0
    requires prices[|prices| - 1] >= 0.0 && volumes[|volumes| - 1] >= 0.0
    ensures TradingValue(prices, volumes, minValue).0 <==> prices[|prices| - 1] * volumes[|volumes| - 1] >= minValue as real
  {
    var x := prices[|prices| - 1] * volumes[|volumes| - 1];
    MulLe(0.0, prices[|prices| - 1], volumes[|volumes| - 1]);
    assert x >= 0.0;
  }
}
