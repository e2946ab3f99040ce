// Position classification: a technical score from the trend, the moving
// average alignment and the latest indicators; a fundamental score from the
// valuation, profitability, growth and financial-health metrics; a market
// score drawn at random; their weighted blend; and the cascade that files a
// position as right-side, left-side, defensive or under observation.

module PositionClassification {
  import opened Util
  import T = TechnicalAnalysis
  import F = FundamentalAnalysis

  datatype Category = Right | Left | Defensive | Observation
  datatype Action = Buy | Sell | Hold | Watch

  datatype Recommendation = Recommendation(action: Action, reason: string, targetPrice: Option<real>, stopLoss: Option<real>)
  datatype Scores = Scores(technical: real, fundamental: real, market: real, overall: real)
  datatype Classification = Classification(
    category: Category, confidence: real, reasoning: seq<string>,
    score: Scores, recommendations: seq<Recommendation>)

  // ---------------------------------------------------------------------
  // Technical score

  /** The trend share (at most 40 points): the strength for an up trend, its
    * complement for a down trend, 20 when sideways. */
  function TrendPoints(t: T.TechnicalReport): (p: real)
    requires T.WellFormed(t)
    ensures 0.0 <= p <= 40.0
    ensures t.trend == T.Sideways ==> p == 20.0
  {
    match t.trend
    case Up => 40.0 * (t.strength.value / 100.0)
    case Down => 40.0 * (1.0 - t.strength.value / 100.0)
    case Sideways => 20.0
  }

  /** Moving-average alignment of the current price with MA5, MA10, MA20 and
    * MA60; a missing average makes each comparison with it false. */
  function MaScore(price: real, ind: T.Indicators): (s: real)
    ensures s == 100.0 <==> Gt(Some(price), ind.ma5) && Gt(ind.ma5, ind.ma10) && Gt(ind.ma10, ind.ma20) && Gt(ind.ma20, ind.ma60)
    ensures s == 0.0 <==> Lt(Some(price), ind.ma5) && Lt(ind.ma5, ind.ma10) && Lt(ind.ma10, ind.ma20) && Lt(ind.ma20, ind.ma60)
    ensures s == 70.0 || s == 30.0 || s == 50.0 || s == 100.0 || s == 0.0
  {
    if Gt(Some(price), ind.ma5) && Gt(ind.ma5, ind.ma10) && Gt(ind.ma10, ind.ma20) && Gt(ind.ma20, ind.ma60) then 100.0
    else if Lt(Some(price), ind.ma5) && Lt(ind.ma5, ind.ma10) && Lt(ind.ma10, ind.ma20) && Lt(ind.ma20, ind.ma60) then 0.0
    else if Gt(Some(price), ind.ma5) && Gt(ind.ma5, ind.ma10) then 70.0
    else if Lt(Some(price), ind.ma5) && Lt(ind.ma5, ind.ma10) then 30.0
    else 50.0
  }

  /** A full bullish alignment implies an up trend, a full bearish one a down
    * trend, for the same price and averages. */
  lemma MaScoreAgreesWithTrend(price: real, ind: T.Indicators)
    ensures MaScore(price, ind) == 100.0 ==> T.DetermineTrend(price, ind.ma5, ind.ma10, ind.ma20) == T.Up
    ensures MaScore(price, ind) == 0.0 ==> T.DetermineTrend(price, ind.ma5, ind.ma10, ind.ma20) == T.Down
  {
  }

  function MacdPoints(m: T.Macd): (p: real)
    ensures p == 25.0 <==> T.MacdGoldenCross(m)
    ensures p == 0.0 <==> T.MacdDeathCross(m)
    ensures p == 25.0 || p == 0.0 || p == 12.5
  {
    if T.MacdGoldenCross(m) then 25.0 else if T.MacdDeathCross(m) then 0.0 else 12.5
  }

  /** Oversold scores highest; an undefined RSI compares false everywhere and
    * gets the 10 points of the last branch. */
  function RsiPoints(rsi: Option<real>): (p: real)
    ensures p == 25.0 <==> Lt(rsi, Some(30.0))
    ensures p == 0.0 <==> Gt(rsi, Some(70.0))
    ensures rsi.None? ==> p == 10.0
    ensures p == 25.0 || p == 0.0 || p == 20.0 || p == 10.0
  {
    if Lt(rsi, Some(30.0)) then 25.0
    else if Gt(rsi, Some(70.0)) then 0.0
    else if Gt(rsi, Some(50.0)) then 20.0
    else 10.0
  }

  /** The KDJ share; the NaN entry (`None`) compares false and gets 12.5. */
  function KdjPoints(kdj: Option<T.Kdj>): (p: real)
    ensures kdj.None? ==> p == 12.5
    ensures kdj.Some? ==> (p == 25.0 <==> kdj.value.k > kdj.value.d && kdj.value.j > kdj.value.k)
    ensures kdj.Some? ==> (p == 0.0 <==> kdj.value.k < kdj.value.d && kdj.value.j < kdj.value.k)
    ensures p == 25.0 || p == 0.0 || p == 12.5
  {
    if kdj.Some? && kdj.value.k > kdj.value.d && kdj.value.j > kdj.value.k then 25.0
    else if kdj.Some? && kdj.value.k < kdj.value.d && kdj.value.j < kdj.value.k then 0.0
    else 12.5
  }

  /** Position of a price in the Bollinger bands: 0 at or above the upper
    * band, 100 at or below the lower band, 75 above the middle, otherwise
    * 25. An undefined price compares false everywhere and gets 25. */
  function BollingerPosition(b: T.Bollinger, price: Option<real>): (p: real)
    ensures price.None? ==> p == 25.0
    ensures price.Some? && price.value >= b.upper ==> p == 0.0
    ensures price.Some? && b.lower < b.upper && price.value <= b.lower ==> p == 100.0
    ensures p == 0.0 || p == 100.0 || p == 75.0 || p == 25.0
  {
    if price.Some? && price.value >= b.upper then 0.0
    else if price.Some? && price.value <= b.lower then 100.0
    else if Gt(price, Some(b.middle)) then 75.0
    else 25.0
  }

  /** The indicator score as the service computes it. The price handed to
    * the Bollinger rule is a field the indicators object does not have, so
    * it is `undefined`. `None` is the TypeError of reading an undefined KDJ
    * entry or destructuring undefined bands. */
  function IndicatorScore(ind: T.Indicators): (s: Option<real>)
    ensures s.None? <==> ind.kdj.None? || ind.boll.None?
  {
    if ind.kdj.None? || ind.boll.None? then None
    else
      var sum := MacdPoints(ind.macd) + RsiPoints(ind.rsi) + KdjPoints(ind.kdj.value)
                 + BollingerPosition(ind.boll.value, None) * 25.0;
      Some(Min(sum, 100.0))
  }

  /** Because the Bollinger share is always 25 × 25 = 625, the indicator
    * score is capped at 100 for every set of indicators it accepts. */
  lemma IndicatorScoreSaturated(ind: T.Indicators)
    requires ind.kdj.Some? && ind.boll.Some?
    ensures IndicatorScore(ind) == Some(100.0)
  {
    assert BollingerPosition(ind.boll.value, None) == 25.0;
  }

  /** Accumulates the four indicator shares and caps the total at 100. */
  method CalculateIndicatorScore(ind: T.Indicators) returns (s: Option<real>)
    ensures s == IndicatorScore(ind)
  {
    var score := 0.0;
    var m := ind.macd;
    if m.value > m.signal && m.histogram > 0.0 {
      score := score + 25.0;
    } else if m.value < m.signal && m.histogram < 0.0 {
      score := score + 0.0;
    } else {
      score := score + 12.5;
    }
    if Lt(ind.rsi, Some(30.0)) {
      score := score + 25.0;
    } else if Gt(ind.rsi, Some(70.0)) {
      score := score + 0.0;
    } else if Gt(ind.rsi, Some(50.0)) {
      score := score + 20.0;
    } else {
      score := score + 10.0;
    }
    if ind.kdj.None? {
      return None;
    }
    var kdj := ind.kdj.value;
    if kdj.Some? && kdj.value.k > kdj.value.d && kdj.value.j > kdj.value.k {
      score := score + 25.0;
    } else if kdj.Some? && kdj.value.k < kdj.value.d && kdj.value.j < kdj.value.k {
      score := score + 0.0;
    } else {
      score := score + 12.5;
    }
    if ind.boll.None? {
      return None;
    }
    var position := BollingerPosition(ind.boll.value, None);
    score := score + position * 25.0;
    s := Some(Min(score, 100.0));
  }

  /** Trend share plus 30% of the alignment score plus 30% of the indicator
    * score, capped at 100. */
  function TechnicalScore(t: T.TechnicalReport, price: real): (s: Option<real>)
    requires T.WellFormed(t)
    ensures s.None? <==> t.indicators.kdj.None? || t.indicators.boll.None?
  {
    var ind := IndicatorScore(t.indicators);
    if ind.None? then None
    else Some(Min(TrendPoints(t) + MaScore(price, t.indicators) * 0.3 + ind.value * 0.3, 100.0))
  }

  /** The cap never binds: every technical score is 30 (the saturated
    * indicator share) plus at most 40 trend points and 30 alignment
    * points, so it lies in [30, 100]. */
  lemma {:induction false} TechnicalScoreRange(t: T.TechnicalReport, price: real)
    requires T.WellFormed(t)
    requires t.indicators.kdj.Some? && t.indicators.boll.Some?
    ensures TechnicalScore(t, price) == Some(TrendPoints(t) + MaScore(price, t.indicators) * 0.3 + 30.0)
    ensures 30.0 <= TechnicalScore(t, price).value <= 100.0
  {
    IndicatorScoreSaturated(t.indicators);
  }

  /** A stronger up trend never lowers the technical score, a stronger down
    * trend never raises it. */
  lemma TechnicalScoreStrengthMonotone(t: T.TechnicalReport, s1: real, s2: real, price: real)
    requires T.WellFormed(t) && t.trend != T.Sideways
    requires t.indicators.kdj.Some? && t.indicators.boll.Some?
    requires 0.0 <= s1 <= s2 <= 100.0
    ensures t.trend == T.Up ==>
      TechnicalScore(t.(strength := Some(s1)), price).value <= TechnicalScore(t.(strength := Some(s2)), price).value
    ensures t.trend == T.Down ==>
      TechnicalScore(t.(strength := Some(s2)), price).value <= TechnicalScore(t.(strength := Some(s1)), price).value
  {
    TechnicalScoreRange(t.(strength := Some(s1)), price);
    TechnicalScoreRange(t.(strength := Some(s2)), price);
  }

  /** Adds the trend share, the alignment share and the indicator share. */
  method CalculateTechnicalScore(t: T.TechnicalReport, price: real) returns (s: Option<real>)
    requires T.WellFormed(t)
    ensures s == TechnicalScore(t, price)
  {
    var score := 0.0;
    if t.trend == T.Up {
      score := score + 40.0 * (t.strength.value / 100.0);
    } else if t.trend == T.Down {
      score := score + 40.0 * (1.0 - t.strength.value / 100.0);
    } else {
      score := score + 20.0;
    }
    var maScore := MaScore(price, t.indicators);
    score := score + maScore * 0.3;
    var indicatorScore := CalculateIndicatorScore(t.indicators);
    if indicatorScore.None? {
      return None;
    }
    score := score + indicatorScore.value * 0.3;
    s := Some(Min(score, 100.0));
  }

  // ---------------------------------------------------------------------
  // Fundamental score

  function PePoints(pe: real): (p: real)
    ensures 10.0 <= p <= 40.0
    ensures p == 40.0 <==> 0.0 < pe < 15.0
  {
    if 0.0 < pe < 15.0 then 40.0 else if pe <= 20.0 then 30.0 else if pe <= 30.0 then 20.0 else 10.0
  }

  function PbPoints(pb: real): (p: real)
    ensures 5.0 <= p <= 30.0
    ensures p == 30.0 <==> 0.0 < pb < 2.0
  {
    if 0.0 < pb < 2.0 then 30.0 else if pb <= 3.0 then 20.0 else if pb <= 5.0 then 10.0 else 5.0
  }

  function PegPoints(peg: real): (p: real)
    ensures 10.0 <= p <= 30.0
    ensures p == 30.0 <==> 0.0 < peg < 1.0
  {
    if 0.0 < peg < 1.0 then 30.0 else if peg <= 1.5 then 20.0 else 10.0
  }

  /** PE, PB and PEG shares; their maxima add up to exactly 100, so the
    * source's cap at 100 never binds. */
  function ValuationScore(v: F.Valuation): (s: real)
    ensures 25.0 <= s <= 100.0
    ensures s == 100.0 <==> 0.0 < v.pe < 15.0 && 0.0 < v.pb < 2.0 && 0.0 < v.peg < 1.0
  {
    PePoints(v.pe) + PbPoints(v.pb) + PegPoints(v.peg)
  }

  method ScoreValuation(v: F.Valuation) returns (s: real)
    ensures s == ValuationScore(v)
  {
    var score := 0.0;
    if v.pe > 0.0 && v.pe < 15.0 {
      score := score + 40.0;
    } else if v.pe <= 20.0 {
      score := score + 30.0;
    } else if v.pe <= 30.0 {
      score := score + 20.0;
    } else {
      score := score + 10.0;
    }
    if v.pb > 0.0 && v.pb < 2.0 {
      score := score + 30.0;
    } else if v.pb <= 3.0 {
      score := score + 20.0;
    } else if v.pb <= 5.0 {
      score := score + 10.0;
    } else {
      score := score + 5.0;
    }
    if v.peg > 0.0 && v.peg < 1.0 {
      score := score + 30.0;
    } else if v.peg <= 1.5 {
      score := score + 20.0;
    } else {
      score := score + 10.0;
    }
    s := Min(score, 100.0);
  }

  function RoePoints(roe: real): (p: real)
    ensures 10.0 <= p <= 40.0
    ensures p == 40.0 <==> roe >= 20.0
  {
    if roe >= 20.0 then 40.0 else if roe >= 15.0 then 30.0 else if roe >= 10.0 then 20.0 else 10.0
  }

  function NetMarginPoints(margin: real): (p: real)
    ensures 5.0 <= p <= 30.0
    ensures p == 30.0 <==> margin >= 15.0
  {
    if margin >= 15.0 then 30.0 else if margin >= 10.0 then 20.0 else if margin >= 5.0 then 15.0 else 5.0
  }

  function GrossMarginPoints(margin: real): (p: real)
    ensures 5.0 <= p <= 30.0
    ensures p == 30.0 <==> margin >= 40.0
  {
    if margin >= 40.0 then 30.0 else if margin >= 30.0 then 20.0 else if margin >= 20.0 then 15.0 else 5.0
  }

  /** ROE, net margin and gross margin shares; the cap at 100 never binds. */
  function ProfitabilityScore(p: F.Profitability): (s: real)
    ensures 20.0 <= s <= 100.0
    ensures s == 100.0 <==> p.roe >= 20.0 && p.netMargin >= 15.0 && p.grossMargin >= 40.0
  {
    RoePoints(p.roe) + NetMarginPoints(p.netMargin) + GrossMarginPoints(p.grossMargin)
  }

  method ScoreProfitability(p: F.Profitability) returns (s: real)
    ensures s == ProfitabilityScore(p)
  {
    var score := 0.0;
    if p.roe >= 20.0 {
      score := score + 40.0;
    } else if p.roe >= 15.0 {
      score := score + 30.0;
    } else if p.roe >= 10.0 {
      score := score + 20.0;
    } else {
      score := score + 10.0;
    }
    if p.netMargin >= 15.0 {
      score := score + 30.0;
    } else if p.netMargin >= 10.0 {
      score := score + 20.0;
    } else if p.netMargin >= 5.0 {
      score := score + 15.0;
    } else {
      score := score + 5.0;
    }
    if p.grossMargin >= 40.0 {
      score := score + 30.0;
    } else if p.grossMargin >= 30.0 {
      score := score + 20.0;
    } else if p.grossMargin >= 20.0 {
      score := score + 15.0;
    } else {
      score := score + 5.0;
    }
    s := Min(score, 100.0);
  }

  /** Steps of 20 on the mean of revenue and profit growth. */
  function GrowthScore(g: F.Growth): (s: real)
    ensures 20.0 <= s <= 100.0
    ensures s == 100.0 <==> g.revenueGrowth + g.profitGrowth >= 60.0
    ensures s == 20.0 <==> g.revenueGrowth + g.profitGrowth < 0.0
  {
    var avgGrowth := (g.revenueGrowth + g.profitGrowth) / 2.0;
    if avgGrowth >= 30.0 then 100.0
    else if avgGrowth >= 20.0 then 80.0
    else if avgGrowth >= 10.0 then 60.0
    else if avgGrowth >= 0.0 then 40.0
    else 20.0
  }

  /** Faster growth never scores lower. */
  lemma GrowthScoreMonotone(g: F.Growth, h: F.Growth)
    requires g.revenueGrowth + g.profitGrowth <= h.revenueGrowth + h.profitGrowth
    ensures GrowthScore(g) <= GrowthScore(h)
  {
  }

  function DebtPoints(debtRatio: real): (p: real)
    ensures 5.0 <= p <= 50.0
    ensures p == 50.0 <==> debtRatio <= 30.0
  {
    if debtRatio <= 30.0 then 50.0 else if debtRatio <= 50.0 then 40.0 else if debtRatio <= 70.0 then 20.0 else 5.0
  }

  function CurrentRatioPoints(ratio: real): (p: real)
    ensures 5.0 <= p <= 30.0
    ensures p == 30.0 <==> ratio >= 2.0
  {
    if ratio >= 2.0 then 30.0 else if ratio >= 1.5 then 25.0 else if ratio >= 1.0 then 15.0 else 5.0
  }

  function CoveragePoints(coverage: real): (p: real)
    ensures 0.0 <= p <= 20.0
    ensures p == 20.0 <==> coverage >= 5.0
  {
    if coverage >= 5.0 then 20.0 else if coverage >= 3.0 then 15.0 else if coverage >= 1.0 then 10.0 else 0.0
  }

  /** Debt ratio, current ratio and interest coverage shares; the cap at 100
    * never binds. */
  function FinancialScore(f: F.Financial): (s: real)
    ensures 10.0 <= s <= 100.0
    ensures s == 100.0 <==> f.debtRatio <= 30.0 && f.currentRatio >= 2.0 && f.interestCoverage >= 5.0
  {
    DebtPoints(f.debtRatio) + CurrentRatioPoints(f.currentRatio) + CoveragePoints(f.interestCoverage)
  }

  method ScoreFinancial(f: F.Financial) returns (s: real)
    ensures s == FinancialScore(f)
  {
    var score := 0.0;
    if f.debtRatio <= 30.0 {
      score := score + 50.0;
    } else if f.debtRatio <= 50.0 {
      score := score + 40.0;
    } else if f.debtRatio <= 70.0 {
      score := score + 20.0;
    } else {
      score := score + 5.0;
    }
    if f.currentRatio >= 2.0 {
      score := score + 30.0;
    } else if f.currentRatio >= 1.5 {
      score := score + 25.0;
    } else if f.currentRatio >= 1.0 {
      score := score + 15.0;
    } else {
      score := score + 5.0;
    }
    if f.interestCoverage >= 5.0 {
      score := score + 20.0;
    } else if f.interestCoverage >= 3.0 {
      score := score + 15.0;
    } else if f.interestCoverage >= 1.0 {
      score := score + 10.0;
    } else {
      score := score + 0.0;
    }
    s := Min(score, 100.0);
  }

  /** 25% valuation, 30% profitability, 25% growth, 20% financial health. */
  function FundamentalScore(r: F.FundamentalReport): real
  {
    ValuationScore(r.valuation) * 0.25 + ProfitabilityScore(r.profitability) * 0.30
    + GrowthScore(r.growth) * 0.25 + FinancialScore(r.financial) * 0.20
  }

  /** The weights add up to one, so the blend lies between the weakest
    * possible sub-scores (19.25) and 100, reaching 100 only when every
    * sub-score does. */
  lemma {:induction false} FundamentalScoreRange(r: F.FundamentalReport)
    ensures 19.25 <= FundamentalScore(r) <= 100.0
    ensures FundamentalScore(r) == 100.0 <==>
      ValuationScore(r.valuation) == 100.0 && ProfitabilityScore(r.profitability) == 100.0 &&
      GrowthScore(r.growth) == 100.0 && FinancialScore(r.financial) == 100.0
  {
    var v, p, g, f := ValuationScore(r.valuation), ProfitabilityScore(r.profitability),
                      GrowthScore(r.growth), FinancialScore(r.financial);
    assert 25.0 <= v <= 100.0 && 20.0 <= p <= 100.0 && 20.0 <= g <= 100.0 && 10.0 <= f <= 100.0;
  }

  method CalculateFundamentalScore(r: F.FundamentalReport) returns (s: real)
    ensures s == FundamentalScore(r)
  {
    var valuationScore := ScoreValuation(r.valuation);
    var profitabilityScore := ScoreProfitability(r.profitability);
    var growthScore := GrowthScore(r.growth);
    var financialScore := ScoreFinancial(r.financial);
    s := valuationScore * 0.25 + profitabilityScore * 0.30 + growthScore * 0.25 + financialScore * 0.20;
  }

  // ---------------------------------------------------------------------
  // Blend and category

  /** 40% technical, 30% fundamental, 30% market. */
  function OverallScore(technical: real, fundamental: real, market: real): real
  {
    technical * 0.4 + fundamental * 0.3 + market * 0.3
  }

  /** The blend is monotone in every score and stays in [0, 100] when they do. */
  lemma OverallScoreProperties(t1: real, f1: real, m1: real, t2: real, f2: real, m2: real)
    requires t1 <= t2 && f1 <= f2 && m1 <= m2
    ensures OverallScore(t1, f1, m1) <= OverallScore(t2, f2, m2)
    ensures 0.0 <= t1 && 0.0 <= f1 && 0.0 <= m1 && t2 <= 100.0 && f2 <= 100.0 && m2 <= 100.0 ==>
      0.0 <= OverallScore(t1, f1, m1) <= 100.0
  {
  }

  /** The rating as the letter the service stores. */
  function RatingLetter(r: F.Rating): string
  {
    match r
    case A => "A"
    case B => "B"
    case C => "C"
    case D => "D"
  }

  /** `rating >= 'B'` compares strings: it holds for B, C and D, and not
    * for A. */
  lemma RatingAtLeastB(r: F.Rating)
    ensures StringGe(RatingLetter(r), "B") <==> r != F.A
  {
  }

  /** The cascade: right-side on a strong blend with an up trend and an A
    * rating; left-side on a fair blend with a sideways trend; defensive on
    * a middling blend with a dividend yield above 3; else observation. */
  function CategoryFor(overall: real, trend: T.Trend, rating: F.Rating, dividendYield: real): Category
  {
    if overall >= 80.0 && trend == T.Up && rating == F.A then Right
    else if overall >= 60.0 && trend == T.Sideways && StringGe(RatingLetter(rating), "B") then Left
    else if overall >= 50.0 && StringGe(RatingLetter(rating), "B") && dividendYield > 3.0 then Defensive
    else Observation
  }

  /** Each category's entry condition with the string comparison resolved:
    * an A-rated stock is right-side or under observation, never left-side
    * or defensive, while B, C and D ratings qualify for both. */
  lemma {:induction false} CategoryConditions(overall: real, trend: T.Trend, rating: F.Rating, dividendYield: real)
    ensures CategoryFor(overall, trend, rating, dividendYield) == Right <==>
      overall >= 80.0 && trend == T.Up && rating == F.A
    ensures CategoryFor(overall, trend, rating, dividendYield) == Left <==>
      overall >= 60.0 && trend == T.Sideways && rating != F.A
    ensures CategoryFor(overall, trend, rating, dividendYield) == Defensive <==>
      overall >= 50.0 && rating != F.A && dividendYield > 3.0 && !(overall >= 60.0 && trend == T.Sideways)
    ensures overall < 50.0 ==> CategoryFor(overall, trend, rating, dividendYield) == Observation
  {
    RatingAtLeastB(rating);
  }

  function CategoryRank(c: Category): nat
  {
    match c
    case Right => 0
    case Left => 1
    case Defensive => 2
    case Observation => 3
  }

  /** Raising the blended score never moves a position further down the
    * cascade. */
  lemma {:induction false} CategoryMonotone(x: real, y: real, trend: T.Trend, rating: F.Rating, dividendYield: real)
    requires x <= y
    ensures CategoryRank(CategoryFor(y, trend, rating, dividendYield)) <= CategoryRank(CategoryFor(x, trend, rating, dividendYield))
  {
    CategoryConditions(x, trend, rating, dividendYield);
    CategoryConditions(y, trend, rating, dividendYield);
  }

  function Confidence(c: Category): (r: real)
    ensures 60.0 <= r <= 90.0
  {
    match c
    case Right => 90.0
    case Left => 75.0
    case Defensive => 70.0
    case Observation => 60.0
  }

  /** A category earlier in the cascade carries a higher confidence. */
  lemma ConfidenceFollowsCascade(c: Category, d: Category)
    ensures CategoryRank(c) < CategoryRank(d) <==> Confidence(c) > Confidence(d)
  {
  }

  /** Files the position and writes three reasons and one recommendation:
    * buy towards 110% of the resistance (right), watch towards 95% of the
    * support (left), hold (defensive) or watch (observation). */
  method DetermineCategory(t: T.TechnicalReport, f: F.FundamentalReport, scores: Scores) returns (c: Classification)
    ensures c.category == CategoryFor(scores.overall, t.trend, f.quality.rating, f.valuation.dividendYield)
    ensures c.confidence == Confidence(c.category)
    ensures c.score == scores
    ensures |c.reasoning| == 3 && |c.recommendations| == 1
    ensures c.category == Right ==> c.recommendations[0].action == Buy && c.recommendations[0].targetPrice == Some(t.resistance * 1.1)
    ensures c.category == Left ==> c.recommendations[0].action == Watch && c.recommendations[0].targetPrice == Some(t.support * 0.95)
    ensures c.category == Defensive ==> c.recommendations[0].action == Hold && c.recommendations[0].targetPrice.None?
    ensures c.category == Observation ==> c.recommendations[0].action == Watch && c.recommendations[0].targetPrice.None?
    ensures forall i :: 0 <= i < |c.recommendations| ==> c.recommendations[i].stopLoss.None?
  {
    var overall := scores.overall;
    var rating := f.quality.rating;
    var category: Category;
    var confidence := 0.0;
    var reasoning: seq<string> := [];
    var recommendations: seq<Recommendation> := [];
    if overall >= 80.0 && t.trend == T.Up && rating == F.A {
      category := Right;
      confidence := 90.0;
      reasoning := reasoning + ["技术面强势，趋势向上"];
      reasoning := reasoning + ["基本面优秀，估值合理"];
      reasoning := reasoning + ["市场表现强劲"];
      recommendations := recommendations + [Recommendation(Buy, "技术突破，基本面支撑", Some(t.resistance * 1.1), None)];
    } else if overall >= 60.0 && t.trend == T.Sideways && StringGe(RatingLetter(rating), "B") {
      category := Left;
      confidence := 75.0;
      reasoning := reasoning + ["基本面良好，估值合理"];
      reasoning := reasoning + ["技术面震荡，适合逢低布局"];
      reasoning := reasoning + ["长期投资价值凸显"];
      recommendations := recommendations + [Recommendation(Watch, "等待技术面企稳信号", Some(t.support * 0.95), None)];
    } else if overall >= 50.0 && StringGe(RatingLetter(rating), "B") && f.valuation.dividendYield > 3.0 {
      category := Defensive;
      confidence := 70.0;
      reasoning := reasoning + ["高股息率，分红稳定"];
      reasoning := reasoning + ["估值偏低，安全边际高"];
      reasoning := reasoning + ["适合长期持有"];
      recommendations := recommendations + [Recommendation(Hold, "防御性配置，稳定收益", None, None)];
    } else {
      category := Observation;
      confidence := 60.0;
      reasoning := reasoning + ["基本面一般，需要改善"];
      reasoning := reasoning + ["技术面不明朗，需要观察"];
      reasoning := reasoning + ["等待更好的投资时机"];
      recommendations := recommendations + [Recommendation(Watch, "继续观察，等待机会", None, None)];
    }
    c := Classification(category, confidence, reasoning, scores, recommendations);
  }

  // ---------------------------------------------------------------------
  // The whole classification

  /** Classifies one position from its technical and fundamental analyses
    * (either of which may have failed), the current price and the random
    * draw in [0, 1) behind the market score. Fails when an analysis failed
    * or when the technical report lacks the KDJ or Bollinger entry. */
  method ClassifyPosition(technical: Result<T.TechnicalReport>, fundamental: Result<F.FundamentalReport>,
                          currentPrice: real, marketDraw: real) returns (r: Result<Classification>)
    requires technical.Success? ==> T.WellFormed(technical.value)
    requires 0.0 <= marketDraw < 1.0
    ensures r.Failure? <==>
      technical.Failure? || fundamental.Failure? ||
      technical.value.indicators.kdj.None? || technical.value.indicators.boll.None?
    ensures r.Success? ==>
      var t, f, s := technical.value, fundamental.value, r.value.score;
      Some(s.technical) == TechnicalScore(t, currentPrice) &&
      s.fundamental == FundamentalScore(f) &&
      s.market == marketDraw * 100.0 &&
      s.overall == OverallScore(s.technical, s.fundamental, s.market) &&
      0.0 <= s.overall <= 100.0 &&
      r.value.category == CategoryFor(s.overall, t.trend, f.quality.rating, f.valuation.dividendYield)
  {
    if technical.Failure? {
      return Failure(technical.error);
    }
    if fundamental.Failure? {
      return Failure(fundamental.error);
    }
    var technicalScore := CalculateTechnicalScore(technical.value, currentPrice);
    if technicalScore.None? {
      return Failure("TypeError");
    }
    var fundamentalScore := CalculateFundamentalScore(fundamental.value);
    var marketScore := marketDraw * 100.0;
    TechnicalScoreRange(technical.value, currentPrice);
    FundamentalScoreRange(fundamental.value);
    var overall := OverallScore(technicalScore.value, fundamentalScore, marketScore);
    OverallScoreProperties(0.0, 0.0, 0.0, technicalScore.value, fundamentalScore, marketScore);
    OverallScoreProperties(technicalScore.value, fundamentalScore, marketScore, 100.0, 100.0, 100.0);
    var c := DetermineCategory(technical.value, fundamental.value,
                               Scores(technicalScore.value, fundamentalScore, marketScore, overall));
    r := Success(c);
  }
}
