// Time-series analysis of one holding: the share of up and down days, the
// slopes of the fundamental score and of the return, the resulting direction,
// momentum and confidence; a risk assessment from volatility, drawdown and
// the latest scores; and the advice that combines the two.

module TimeSeriesAnalysis {
  import opened Util
  import T = TechnicalAnalysis

  datatype Horizon = Daily | Weekly | Monthly
  datatype Direction = Improving | Deteriorating | Stable
  datatype RiskLevel = Low | Medium | High
  datatype Action = Continue | Adjust | Rebalance | Replace
  datatype RiskFactor = HighVolatility | LargeDrawdown | WeakFundamentals | WeakTechnicals

  /** One observation: the technical trend and strength (the strength may be
    * undefined), the fundamental score and the performance figures. */
  datatype DataPoint = DataPoint(
    trend: T.Trend, strength: Option<real>, fundamentalScore: real,
    ret: real, volatility: real, maxDrawdown: real)

  datatype TrendAnalysis = TrendAnalysis(direction: Direction, momentum: real, confidence: real)
  datatype RiskAssessment = RiskAssessment(level: RiskLevel, factors: seq<RiskFactor>, mitigation: seq<string>)
  datatype Advice = Advice(action: Action, confidence: real, reasoning: string, timeline: string)
  datatype DecisionAnalysis = DecisionAnalysis(
    horizon: Horizon, dataPoints: seq<DataPoint>, trend: TrendAnalysis,
    risk: RiskAssessment, advice: Advice)

  /** 'daily' up to 7 points, 'weekly' up to 30, 'monthly' beyond. */
  function HorizonFor(n: nat): (h: Horizon)
    ensures h == Daily <==> n <= 7
    ensures h == Monthly <==> n > 30
  {
    if n <= 7 then Daily else if n <= 30 then Weekly else Monthly
  }

  // ---------------------------------------------------------------------
  // Trend analysis

  function CountTrend(data: seq<DataPoint>, t: T.Trend): (c: nat)
    ensures c <= |data|
  {
    if |data| == 0 then 0
    else CountTrend(data[..|data| - 1], t) + (if data[|data| - 1].trend == t then 1 else 0)
  }

  /** Every point has exactly one of the three trends. */
  lemma {:induction false} CountTrendTotal(data: seq<DataPoint>)
    ensures CountTrend(data, T.Up) + CountTrend(data, T.Down) + CountTrend(data, T.Sideways) == |data|
  {
    if |data| > 0 {
      CountTrendTotal(data[..|data| - 1]);
    }
  }

  /** The share of points with trend `t`. */
  function Share(data: seq<DataPoint>, t: T.Trend): (r: real)
    requires |data| > 0
    ensures 0.0 <= r <= 1.0
  {
    CountTrend(data, t) as real / |data| as real
  }

  function FundamentalScores(data: seq<DataPoint>): (r: seq<real>)
    ensures |r| == |data| && forall i :: 0 <= i < |data| ==> r[i] == data[i].fundamentalScore
  {
    if |data| == 0 then [] else FundamentalScores(data[..|data| - 1]) + [data[|data| - 1].fundamentalScore]
  }

  function Returns(data: seq<DataPoint>): (r: seq<real>)
    ensures |r| == |data| && forall i :: 0 <= i < |data| ==> r[i] == data[i].ret
  {
    if |data| == 0 then [] else Returns(data[..|data| - 1]) + [data[|data| - 1].ret]
  }

  /** The least-squares slope of a series against its index; 0 for fewer
    * than two values. */
  function SeriesSlope(values: seq<real>): real
  {
    if |values| < 2 then 0.0 else T.Slope(values)
  }

  /** A flat series has slope 0. */
  lemma SeriesSlopeOfConstant(values: seq<real>, c: real)
    requires forall i :: 0 <= i < |values| ==> values[i] == c
    ensures SeriesSlope(values) == 0.0
  {
    if |values| >= 2 {
      T.SlopeOfConstant(values, c);
    }
  }

  /** +1 for a positive slope, −1 otherwise (a zero slope counts as −1). */
  function Sign(x: real): real
  {
    if x > 0.0 then 1.0 else -1.0
  }

  /** Improving needs more than 60% up days and rising fundamentals and
    * returns; deteriorating the mirror image; otherwise stable. */
  function DirectionOf(data: seq<DataPoint>): Direction
    requires |data| > 0
  {
    var fs := SeriesSlope(FundamentalScores(data));
    var ps := SeriesSlope(Returns(data));
    if Share(data, T.Up) > 0.6 && fs > 0.0 && ps > 0.0 then Improving
    else if Share(data, T.Down) > 0.6 && fs < 0.0 && ps < 0.0 then Deteriorating
    else Stable
  }

  function Momentum(data: seq<DataPoint>): real
    requires |data| > 0
  {
    (Share(data, T.Up) - Share(data, T.Down)) * 0.4
    + Sign(SeriesSlope(FundamentalScores(data))) * 0.3
    + Sign(SeriesSlope(Returns(data))) * 0.3
  }

  /** Two counts that together do not exceed `n` give shares adding up to
    * at most one. */
  lemma SharesBounded(a: real, b: real, n: real)
    requires n > 0.0 && 0.0 <= a && 0.0 <= b && a + b <= n
    ensures a / n + b / n <= 1.0
  {
    assert a / n + b / n == (a + b) / n;
    DivideBounds(a + b, n, 0.0, 1.0);
  }

  /** Up and down shares add up to at most one. */
  lemma UpDownShares(data: seq<DataPoint>)
    requires |data| > 0
    ensures Share(data, T.Up) + Share(data, T.Down) <= 1.0
  {
    CountTrendTotal(data);
    SharesBounded(CountTrend(data, T.Up) as real, CountTrend(data, T.Down) as real, |data| as real);
  }

  /** Momentum lies in [−1, 1]; an improving series has momentum above 0.68
    * and a deteriorating one below −0.68. */
  lemma {:induction false} MomentumRange(data: seq<DataPoint>)
    requires |data| > 0
    ensures -1.0 <= Momentum(data) <= 1.0
    ensures DirectionOf(data) == Improving ==> Momentum(data) > 0.68
    ensures DirectionOf(data) == Deteriorating ==> Momentum(data) < -0.68
  {
    UpDownShares(data);
  }

  /** The two guarded directions are exclusive, so 'deteriorating' holds
    * exactly on its own condition. */
  lemma {:induction false} DirectionConditions(data: seq<DataPoint>)
    requires |data| > 0
    ensures DirectionOf(data) == Improving <==>
      Share(data, T.Up) > 0.6 && SeriesSlope(FundamentalScores(data)) > 0.0 && SeriesSlope(Returns(data)) > 0.0
    ensures DirectionOf(data) == Deteriorating <==>
      Share(data, T.Down) > 0.6 && SeriesSlope(FundamentalScores(data)) < 0.0 && SeriesSlope(Returns(data)) < 0.0
  {
    UpDownShares(data);
  }

  /** 70% of |momentum| plus up to 0.3 for the length of the series (full at
    * ten points), capped at 1. */
  function ConfidenceOf(data: seq<DataPoint>): real
    requires |data| > 0
  {
    var lengthShare := if |data| >= 10 then 0.3 else |data| as real / 10.0 * 0.3;
    Min(Abs(Momentum(data)) * 0.7 + lengthShare, 1.0)
  }

  /** The confidence lies in [0, 1] and the cap never binds. */
  lemma {:induction false} ConfidenceRange(data: seq<DataPoint>)
    requires |data| > 0
    ensures 0.0 <= ConfidenceOf(data) <= 1.0
    ensures ConfidenceOf(data) == Abs(Momentum(data)) * 0.7 + (if |data| >= 10 then 0.3 else |data| as real / 10.0 * 0.3)
  {
    MomentumRange(data);
  }

  function TrendAnalysisOf(data: seq<DataPoint>): TrendAnalysis
    requires |data| > 0
  {
    TrendAnalysis(DirectionOf(data), Momentum(data), ConfidenceOf(data))
  }

  // ---------------------------------------------------------------------
  // Risk assessment

  function Volatilities(data: seq<DataPoint>): (r: seq<real>)
    ensures |r| == |data| && forall i :: 0 <= i < |data| ==> r[i] == data[i].volatility
  {
    if |data| == 0 then [] else Volatilities(data[..|data| - 1]) + [data[|data| - 1].volatility]
  }

  function Drawdowns(data: seq<DataPoint>): (r: seq<real>)
    ensures |r| == |data| && forall i :: 0 <= i < |data| ==> r[i] == data[i].maxDrawdown
  {
    if |data| == 0 then [] else Drawdowns(data[..|data| - 1]) + [data[|data| - 1].maxDrawdown]
  }

  function MitigationText(f: RiskFactor): string
  {
    match f
    case HighVolatility => "考虑减仓或对冲"
    case LargeDrawdown => "设置止损位"
    case WeakFundamentals => "关注基本面变化"
    case WeakTechnicals => "关注技术信号"
  }

  /** No factor is low risk, one or two medium, three or four high. */
  function LevelFor(factorCount: nat): RiskLevel
  {
    if factorCount == 0 then Low else if factorCount <= 2 then Medium else High
  }

  function If(c: bool, f: RiskFactor): seq<RiskFactor> { if c then [f] else [] }

  /** The factors found, in the order checked: mean volatility above 0.3,
    * worst drawdown above 0.2, latest fundamental score below 60, latest
    * strength below 40. */
  function RiskFactors(data: seq<DataPoint>): seq<RiskFactor>
    requires |data| > 0
  {
    If(Sum(Volatilities(data)) / |data| as real > 0.3, HighVolatility)
    + If(SeqMax(Drawdowns(data)) > 0.2, LargeDrawdown)
    + If(data[|data| - 1].fundamentalScore < 60.0, WeakFundamentals)
    + If(Lt(data[|data| - 1].strength, Some(40.0)), WeakTechnicals)
  }

  /** The factors for the four threshold tests, in order. */
  function FactorsFor(volatile: bool, drawdown: bool, weakFundamentals: bool, weakTechnicals: bool): seq<RiskFactor>
  {
    If(volatile, HighVolatility) + If(drawdown, LargeDrawdown)
    + If(weakFundamentals, WeakFundamentals) + If(weakTechnicals, WeakTechnicals)
  }

  lemma FactorsForExact(a: bool, b: bool, c: bool, d: bool)
    ensures HighVolatility in FactorsFor(a, b, c, d) <==> a
    ensures LargeDrawdown in FactorsFor(a, b, c, d) <==> b
    ensures WeakFundamentals in FactorsFor(a, b, c, d) <==> c
    ensures WeakTechnicals in FactorsFor(a, b, c, d) <==> d
    ensures |FactorsFor(a, b, c, d)| <= 4
    ensures forall i, j :: 0 <= i < j < |FactorsFor(a, b, c, d)| ==> FactorsFor(a, b, c, d)[i] != FactorsFor(a, b, c, d)[j]
  {
  }

  /** Each factor is reported exactly when its threshold is crossed, at most
    * once, so there are at most four. */
  lemma RiskFactorsExact(data: seq<DataPoint>)
    requires |data| > 0
    ensures HighVolatility in RiskFactors(data) <==> Sum(Volatilities(data)) / |data| as real > 0.3
    ensures LargeDrawdown in RiskFactors(data) <==> SeqMax(Drawdowns(data)) > 0.2
    ensures WeakFundamentals in RiskFactors(data) <==> data[|data| - 1].fundamentalScore < 60.0
    ensures WeakTechnicals in RiskFactors(data) <==> Lt(data[|data| - 1].strength, Some(40.0))
    ensures |RiskFactors(data)| <= 4
    ensures forall i, j :: 0 <= i < j < |RiskFactors(data)| ==> RiskFactors(data)[i] != RiskFactors(data)[j]
  {
    var a := Sum(Volatilities(data)) / |data| as real > 0.3;
    var b := SeqMax(Drawdowns(data)) > 0.2;
    var c := data[|data| - 1].fundamentalScore < 60.0;
    var d := Lt(data[|data| - 1].strength, Some(40.0));
    assert RiskFactors(data) == FactorsFor(a, b, c, d);
    FactorsForExact(a, b, c, d);
  }

  /** Pushes `factor` with its mitigation when `fires`. */
  method Flag(fires: bool, factor: RiskFactor, factors: seq<RiskFactor>, mitigation: seq<string>)
    returns (f: seq<RiskFactor>, m: seq<string>)
    requires |mitigation| == |factors|
    requires forall i :: 0 <= i < |factors| ==> mitigation[i] == MitigationText(factors[i])
    ensures f == factors + If(fires, factor)
    ensures |m| == |f| && forall i :: 0 <= i < |f| ==> m[i] == MitigationText(f[i])
  {
    f, m := factors, mitigation;
    if fires {
      f := f + [factor];
      m := m + [MitigationText(factor)];
    }
  }

  /** The factors found, each with its mitigation, in the order tested. */
  method FindFactors(data: seq<DataPoint>) returns (factors: seq<RiskFactor>, mitigation: seq<string>)
    requires |data| > 0
    ensures factors == RiskFactors(data)
    ensures |mitigation| == |factors|
    ensures forall i :: 0 <= i < |factors| ==> mitigation[i] == MitigationText(factors[i])
  {
    var avgVolatility := Sum(Volatilities(data)) / |data| as real;
    var maxDrawdown := SeqMax(Drawdowns(data));
    var latest := data[|data| - 1];
    ghost var a, b, c, d := avgVolatility > 0.3, maxDrawdown > 0.2, latest.fundamentalScore < 60.0,
                            Lt(latest.strength, Some(40.0));
    assert RiskFactors(data) == FactorsFor(a, b, c, d);
    factors, mitigation := Flag(avgVolatility > 0.3, HighVolatility, [], []);
    assert factors == If(a, HighVolatility);
    factors, mitigation := Flag(maxDrawdown > 0.2, LargeDrawdown, factors, mitigation);
    factors, mitigation := Flag(latest.fundamentalScore < 60.0, WeakFundamentals, factors, mitigation);
    factors, mitigation := Flag(Lt(latest.strength, Some(40.0)), WeakTechnicals, factors, mitigation);
  }

  /** Pushes each factor found together with its mitigation, then grades
    * the level by the number of factors. */
  method CalculateRiskAssessment(data: seq<DataPoint>) returns (r: RiskAssessment)
    requires |data| > 0
    ensures r.factors == RiskFactors(data)
    ensures |r.mitigation| == |r.factors|
    ensures forall i :: 0 <= i < |r.factors| ==> r.mitigation[i] == MitigationText(r.factors[i])
    ensures r.level == LevelFor(|r.factors|)
  {
    var factors, mitigation := FindFactors(data);
    var level: RiskLevel;
    if |factors| == 0 {
      level := Low;
    } else if |factors| <= 2 {
      level := Medium;
    } else {
      level := High;
    }
    r := RiskAssessment(level, factors, mitigation);
  }

  // ---------------------------------------------------------------------
  // Advice and the whole analysis

  /** Continue on an improving, low-risk series; adjust on an improving,
    * medium-risk one; replace on a deteriorating, high-risk one; rebalance
    * whenever stable; otherwise adjust with less confidence. */
  method GenerateRecommendation(direction: Direction, level: RiskLevel) returns (a: Advice)
    ensures a.action == Continue <==> direction == Improving && level == Low
    ensures a.action == Replace <==> direction == Deteriorating && level == High
    ensures a.action == Rebalance <==> direction == Stable
    ensures a.action == Continue ==> a.confidence == 0.9
    ensures a.action == Replace ==> a.confidence == 0.8
    ensures a.action == Rebalance ==> a.confidence == 0.6
    ensures a.action == Adjust ==> a.confidence == (if direction == Improving && level == Medium then 0.7 else 0.5)
  {
    var action: Action;
    var confidence := 0.0;
    var reasoning := "";
    var timeline := "";
    if direction == Improving && level == Low {
      action := Continue;
      confidence := 0.9;
      reasoning := "技术面转强，基本面改善，风险可控，建议继续持有";
      timeline := "1-3个月";
    } else if direction == Improving && level == Medium {
      action := Adjust;
      confidence := 0.7;
      reasoning := "趋势向好但存在一定风险，建议适度调整仓位";
      timeline := "2-4周";
    } else if direction == Deteriorating && level == High {
      action := Replace;
      confidence := 0.8;
      reasoning := "趋势转弱且风险较高，建议考虑替换标的";
      timeline := "1-2周";
    } else if direction == Stable {
      action := Rebalance;
      confidence := 0.6;
      reasoning := "趋势平稳，建议重新平衡仓位结构";
      timeline := "3-6周";
    } else {
      action := Adjust;
      confidence := 0.5;
      reasoning := "情况复杂，建议谨慎调整";
      timeline := "1-2周";
    }
    a := Advice(action, confidence, reasoning, timeline);
  }

  /** The latest point is read unconditionally, so an empty series fails. */
  method AnalyzeTimeSeriesTrend(data: seq<DataPoint>) returns (r: Result<DecisionAnalysis>)
    ensures r.Failure? <==> |data| == 0
    ensures r.Success? ==>
      r.value.horizon == HorizonFor(|data|) && r.value.dataPoints == data &&
      r.value.trend == TrendAnalysisOf(data) &&
      0.0 <= r.value.trend.confidence <= 1.0 &&
      r.value.risk.factors == RiskFactors(data) &&
      |r.value.risk.mitigation| == |r.value.risk.factors| &&
      (forall i :: 0 <= i < |r.value.risk.factors| ==> r.value.risk.mitigation[i] == MitigationText(r.value.risk.factors[i])) &&
      r.value.risk.level == LevelFor(|r.value.risk.factors|)
    ensures r.Success? ==>
      var direction, level, a := r.value.trend.direction, r.value.risk.level, r.value.advice;
      (a.action == Continue <==> direction == Improving && level == Low) &&
      (a.action == Replace <==> direction == Deteriorating && level == High) &&
      (a.action == Rebalance <==> direction == Stable) &&
      (a.action == Continue ==> a.confidence == 0.9) &&
      (a.action == Replace ==> a.confidence == 0.8) &&
      (a.action == Rebalance ==> a.confidence == 0.6) &&
      (a.action == Adjust ==> a.confidence == (if direction == Improving && level == Medium then 0.7 else 0.5))
  {
    if |data| == 0 {
      return Failure("TypeError");
    }
    var trend := TrendAnalysisOf(data);
    ConfidenceRange(data);
    var risk := CalculateRiskAssessment(data);
    var advice := GenerateRecommendation(trend.direction, risk.level);
    r := Success(DecisionAnalysis(HorizonFor(|data|), data, trend, risk, advice));
  }
}
