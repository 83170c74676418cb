/**
 * The scoring tables of buying_stocks.py: the 40-point fundamental score,
 * the comprehensive score capped at 100, the recommendation grade and the
 * keyword sector classification.
 */
module BuyingStocks {
  import opened Common

  /**
   * The fields `fundamental_scoring` reads, with the defaults of its
   * `data.get` calls already applied. None stands for a stored None: a
   * None growth value makes its comparison raise, which ends the scoring
   * with the points earned so far; the ratio fields are guarded by their
   * truthiness.
   */
  datatype Fundamentals = Fundamentals(salesGrowth: Option<real>, profitGrowth: Option<real>, epsGrowth: Option<real>,
                                       roe: Option<real>, per: Option<real>, debtRatio: Option<real>, pbr: Option<real>)

  /** Python truthiness of a number that may be None. */
  predicate Truthy(x: Option<real>)
  {
    x.Some? && x.value != 0.0
  }

  function SalesPoints(g: real): int { if g > 20.0 then 5 else if g > 10.0 then 3 else if g > 0.0 then 1 else 0 }

  function ProfitPoints(g: real): int { if g > 30.0 then 5 else if g > 15.0 then 3 else if g > 0.0 then 1 else 0 }

  function EpsPoints(g: real): int { if g > 20.0 then 5 else if g > 10.0 then 3 else 0 }

  /** Profitability: ROE tiers and the PER bands. */
  function ProfitabilityPoints(roe: Option<real>, per: Option<real>): int
  {
    (if Truthy(roe) && roe.value > 15.0 then 8 else if Truthy(roe) && roe.value > 10.0 then 5
     else if Truthy(roe) && roe.value > 5.0 then 2 else 0)
    + (if Truthy(per) && 5.0 < per.value < 15.0 then 7 else if Truthy(per) && 15.0 <= per.value < 25.0 then 4
       else if Truthy(per) && per.value < 5.0 then 2 else 0)
  }

  /** Stability: the debt-ratio tiers and the PBR bands. */
  function StabilityPoints(debtRatio: Option<real>, pbr: Option<real>): int
  {
    (if Truthy(debtRatio) && debtRatio.value < 30.0 then 5 else if Truthy(debtRatio) && debtRatio.value < 50.0 then 3 else 0)
    + (if Truthy(pbr) && 0.5 < pbr.value < 2.0 then 5 else if Truthy(pbr) && 2.0 <= pbr.value < 3.0 then 3 else 0)
  }

  /** The sum before the cap, stopping where a None growth value raises. */
  function RawFundamentalScore(d: Fundamentals): (s: int)
    ensures 0 <= s <= 40
  {
    if d.salesGrowth.None? then 0
    else if d.profitGrowth.None? then SalesPoints(d.salesGrowth.value)
    else if d.epsGrowth.None? then SalesPoints(d.salesGrowth.value) + ProfitPoints(d.profitGrowth.value)
    else
      SalesPoints(d.salesGrowth.value) + ProfitPoints(d.profitGrowth.value) + EpsPoints(d.epsGrowth.value)
      + ProfitabilityPoints(d.roe, d.per) + StabilityPoints(d.debtRatio, d.pbr)
  }

  /** `fundamental_scoring`: `min(score, 40)` of the sum. */
  function FundamentalScore(d: Fundamentals): (s: int)
    ensures 0 <= s <= 40
    ensures s == RawFundamentalScore(d)
  {
    if RawFundamentalScore(d) < 40 then RawFundamentalScore(d) else 40
  }

  /** The full 40 points need every tier at its top. */
  lemma FullScoreNeedsTopTiers(d: Fundamentals)
    requires FundamentalScore(d) == 40
    ensures d.salesGrowth.Some? && d.salesGrowth.value > 20.0 && d.profitGrowth.Some? && d.profitGrowth.value > 30.0
    ensures d.epsGrowth.Some? && d.epsGrowth.value > 20.0 && d.roe.Some? && d.roe.value > 15.0
    ensures d.per.Some? && 5.0 < d.per.value < 15.0 && Truthy(d.debtRatio) && d.debtRatio.value < 30.0
    ensures d.pbr.Some? && 0.5 < d.pbr.value < 2.0
  {
  }

  /** A stored None for the sales growth stops the scoring before any point is given. */
  lemma MissingSalesGrowthScoresNothing(d: Fundamentals)
    requires d.salesGrowth.None?
    ensures FundamentalScore(d) == 0
  {
  }

  /** A zero PER is falsy and earns nothing, although it is below 5. */
  lemma ZeroPerEarnsNothing(roe: Option<real>)
    ensures ProfitabilityPoints(roe, Some(0.0)) == ProfitabilityPoints(roe, None)
    ensures ProfitabilityPoints(roe, Some(1.0)) == ProfitabilityPoints(roe, None) + 2
  {
  }

  /** The component scores of `calculate_comprehensive_score`, after the market weighting. */
  datatype Components = Components(fundamental: real, technical: real, institutional: real, news: real, patterns: real)

  function Total(c: Components): real
  {
    c.fundamental + c.technical + c.institutional + c.news + c.patterns
  }

  /** The weighting: a bear market weights fundamentals by 1.3 and institutions by 1.2, a bull market technicals by 1.2 and patterns by 1.3. */
  function Weighted(c: Components, market: string): (w: Components)
    ensures market != "bear" && market != "bull" ==> w == c
    ensures w.news == c.news
  {
    if market == "bear" then c.(fundamental := c.fundamental * 1.3, institutional := c.institutional * 1.2)
    else if market == "bull" then c.(technical := c.technical * 1.2, patterns := c.patterns * 1.3)
    else c
  }

  /** `calculate_comprehensive_score`: the weighted total, capped at 100. */
  function ComprehensiveScore(c: Components, market: string): (s: real)
    ensures s <= 100.0 && s <= Total(Weighted(c, market))
    ensures Total(Weighted(c, market)) <= 100.0 ==> s == Total(Weighted(c, market))
    ensures Total(Weighted(c, market)) > 100.0 ==> s == 100.0
  {
    MinReal(100.0, Total(Weighted(c, market)))
  }

  /** With non-negative components the weighting can only raise the score, and the score is not negative. */
  lemma WeightingNeverLowers(c: Components, market: string)
    requires c.fundamental >= 0.0 && c.technical >= 0.0 && c.institutional >= 0.0 && c.news >= 0.0 && c.patterns >= 0.0
    ensures ComprehensiveScore(c, "neutral") <= ComprehensiveScore(c, market)
    ensures 0.0 <= ComprehensiveScore(c, market)
  {
  }

  /** `get_recommendation`: the first row whose total and risk thresholds both hold. */
  function Recommendation(total: real, risk: real): (r: string)
    ensures r == "강력매수" <==> total >= 85.0 && risk >= 70.0
    ensures r == "보류" <==> total < 70.0
    ensures r in {"강력매수", "매수", "적극관심", "관심", "보류"}
  {
    if total >= 85.0 && risk >= 70.0 then "강력매수"
    else if total >= 80.0 && risk >= 60.0 then "매수"
    else if total >= 75.0 && risk >= 50.0 then "적극관심"
    else if total >= 70.0 then "관심"
    else "보류"
  }

  function RecommendationRank(r: string): int
  {
    if r == "강력매수" then 4 else if r == "매수" then 3 else if r == "적극관심" then 2 else if r == "관심" then 1 else 0
  }

  /** A better total or a better risk score never gives a weaker recommendation. */
  lemma RecommendationIsMonotone(t1: real, r1: real, t2: real, r2: real)
    requires t1 <= t2 && r1 <= r2
    ensures RecommendationRank(Recommendation(t1, r1)) <= RecommendationRank(Recommendation(t2, r2))
  {
  }

  // ---- Sectors ----

  predicate IsPrefix(k: string, s: string)
  {
    |k| <= |s| && s[..|k|] == k
  }

  /** Python's `keyword in name`. */
  predicate Contains(s: string, k: string)
    decreases |s|
  {
    IsPrefix(k, s) || (s != [] && Contains(s[1..], k))
  }

  lemma {:induction false} ContainsAt(s: string, k: string, i: nat)
    requires i + |k| <= |s| && s[i..i + |k|] == k
    ensures Contains(s, k)
    decreases i
  {
    if i > 0 {
      assert s[1..][i - 1..i - 1 + |k|] == s[i..i + |k|];
      ContainsAt(s[1..], k, i - 1);
    }
  }

  predicate AnyKeyword(name: string, keywords: seq<string>)
  {
    exists j :: 0 <= j < |keywords| && Contains(name, keywords[j])
  }

  /** The sector table of `classify_sector`, in dictionary order. */
  const SectorKeywords: seq<(string, seq<string>)> := [
    ("반도체", ["반도체", "실리콘", "메모리", "칩", "SK하이닉스", "삼성전자"]),
    ("바이오", ["바이오", "제약", "의료", "병원", "치료", "신약"]),
    ("IT", ["소프트웨어", "게임", "인터넷", "플랫폼", "네이버", "카카오"]),
    ("자동차", ["자동차", "현대차", "부품", "타이어", "배터리"])]

  /** The first sector of the table with a keyword in the name. */
  function FirstSector(table: seq<(string, seq<string>)>, name: string): (r: Option<string>)
    ensures r.None? <==> forall i :: 0 <= i < |table| ==> !AnyKeyword(name, table[i].1)
    ensures r.Some? ==> exists i :: 0 <= i < |table| && r.value == table[i].0 && AnyKeyword(name, table[i].1)
                                    && forall j :: 0 <= j < i ==> !AnyKeyword(name, table[j].1)
  {
    if table == [] then None
    else if AnyKeyword(name, table[0].1) then Some(table[0].0)
    else
      var r := FirstSector(table[1..], name);
      assert forall i :: 1 <= i < |table| ==> table[1..][i - 1] == table[i];
      if r.Some? then
        ghost var i :| 0 <= i < |table[1..]| && r.value == table[1..][i].0 && AnyKeyword(name, table[1..][i].1)
                      && forall j :: 0 <= j < i ==> !AnyKeyword(name, table[1..][j].1);
        assert forall j :: 0 <= j < i + 1 ==> !AnyKeyword(name, table[j].1) by {
          forall j | 0 <= j < i + 1
            ensures !AnyKeyword(name, table[j].1)
          {
            if j > 0 {
              assert table[j] == table[1..][j - 1];
            }
          }
        }
        r
      else r
  }

  /** `classify_sector(stock_name)`. */
  function ClassifySector(name: string): (r: Option<string>)
    ensures r.Some? ==> r.value in {"반도체", "바이오", "IT", "자동차"}
  {
    FirstSector(SectorKeywords, name)
  }

  /** A name with a semiconductor keyword is a semiconductor stock whatever else it contains: the first sector wins. */
  lemma SemiconductorWinsTies(name: string, j: nat)
    requires j < 6 && Contains(name, SectorKeywords[0].1[j])
    ensures ClassifySector(name) == Some("반도체")
  {
  }

  lemma SamsungElectronicsIsSemiconductor()
    ensures ClassifySector("삼성전자 바이오") == Some("반도체")
  {
    ContainsAt("삼성전자 바이오", "삼성전자", 0);
    SemiconductorWinsTies("삼성전자 바이오", 5);
  }
}
