// The per-stock position recommender: technical, fundamental, trend and
// market assessments and their blend; the trend phase and opportunity
// level; the transition tables for held and not-held stocks; time nodes,
// position sizes, the risk ladder, entry and exit signals and the trend
// forecast; and the batch run that keeps the successful recommendations in
// descending order of confidence.

module SmartPositionRecommendation {
  import opened Util
  import T = TechnicalAnalysis
  import F = FundamentalAnalysis
  import TS = TimeSeriesAnalysis
  import Sorting

  datatype Position = Left | Right | Mainline | Defensive | Exit
  datatype Action = Build | Add | Hold | Reduce | ExitAll | Upgrade
  datatype Urgency = High | Medium | Low
  datatype Phase = BottomBuilding | Breakout | UptrendContinuation | Consolidation | Pullback | Uncertain
  datatype Opportunity = HighOpportunity | MediumHigh | MediumOpportunity | LowOpportunity | VeryLow

  /** A stored holding of the user; its category column may be empty. */
  datatype Holding = Holding(quantity: real, averagePrice: real, category: Option<Position>)

  datatype Assessment = Assessment(
    technicalScore: real, fundamentalScore: real, trendScore: real, marketScore: real,
    overallScore: real, phase: Phase, opportunity: Opportunity)

  datatype Strategy = Strategy(position: Position, action: Action, confidence: real, reasoning: seq<string>, urgency: Urgency)

  datatype TimeNode = TimeNode(price: real, condition: string, confidence: real, action: string, priority: Urgency)
  datatype TimeNodes = TimeNodes(
    buildLeft: seq<TimeNode>, upgradeToRight: seq<TimeNode>, upgradeToMainline: seq<TimeNode>,
    addPosition: seq<TimeNode>, reducePosition: seq<TimeNode>, exit: seq<TimeNode>)

  datatype PositionSize = PositionSize(left: real, right: real, mainline: real, maxPosition: real)
  datatype Rung = Rung(price: real, positionRatio: real, description: string)
  datatype RiskControl = RiskControl(stopLoss: real, targetPrice: real, ladder: seq<Rung>)

  datatype EntrySignal = BreakoutEntry | LeftSideEntry | WatchEntry | WaitEntry
  datatype ExitSignal = BreakdownExit | FundamentalExit | WeakeningExit | NoExit
  datatype Forecast = Forecast(direction: T.Trend, probability: real, timeframe: string)

  datatype PositionRecommendation = PositionRecommendation(
    stockCode: string, isHeld: bool, currentPrice: real, strategy: Strategy,
    timeNodes: TimeNodes, size: PositionSize, risk: RiskControl,
    entry: EntrySignal, exit: ExitSignal, forecast: Forecast)

  // ---------------------------------------------------------------------
  // Technical assessment

  /** 100 for MA5 > MA10 > MA20 > MA60, 75 for MA5 > MA10 > MA20, 50 when
    * MA5 is within 2% of MA10, otherwise 25. Missing averages compare false. */
  function AssessMASystem(ind: T.Indicators): (s: real)
    ensures s == 100.0 <==> Gt(ind.ma5, ind.ma10) && Gt(ind.ma10, ind.ma20) && Gt(ind.ma20, ind.ma60)
    ensures s >= 75.0 <==> Gt(ind.ma5, ind.ma10) && Gt(ind.ma10, ind.ma20)
    ensures s == 100.0 || s == 75.0 || s == 50.0 || s == 25.0
  {
    if Gt(ind.ma5, ind.ma10) && Gt(ind.ma10, ind.ma20) && Gt(ind.ma20, ind.ma60) then 100.0
    else if Gt(ind.ma5, ind.ma10) && Gt(ind.ma10, ind.ma20) then 75.0
    else if ind.ma5.Some? && ind.ma10.Some? && Abs(ind.ma5.value - ind.ma10.value) < ind.ma10.value * 0.02 then 50.0
    else 25.0
  }

  function MacdShare(m: T.Macd): real
  {
    if m.value > m.signal && m.histogram > 0.0 then 35.0 else if m.value < m.signal then 15.0 else 25.0
  }

  function RsiShare(rsi: Option<real>): real
  {
    if Lt(rsi, Some(30.0)) then 35.0 else if Gt(rsi, Some(70.0)) then 15.0 else if Gt(rsi, Some(50.0)) then 30.0 else 20.0
  }

  /** The NaN entry of a flat window compares false and scores 20. */
  function KdjShare(kdj: Option<T.Kdj>): real
  {
    if kdj.Some? && kdj.value.k > kdj.value.d && kdj.value.j > kdj.value.k then 30.0
    else if kdj.Some? && kdj.value.k < kdj.value.d then 10.0
    else 20.0
  }

  /** The indicator score; `None` is the TypeError of an undefined KDJ. */
  function IndicatorScore(ind: T.Indicators): (s: Option<real>)
    ensures s.None? <==> ind.kdj.None?
    ensures s.Some? ==> 40.0 <= s.value <= 100.0
    ensures s.Some? && s.value == 100.0 ==> T.MacdGoldenCross(ind.macd) && Lt(ind.rsi, Some(30.0))
  {
    if ind.kdj.None? then None
    else Some(MacdShare(ind.macd) + RsiShare(ind.rsi) + KdjShare(ind.kdj.value))
  }

  method AssessIndicators(ind: T.Indicators) returns (s: Option<real>)
    ensures s == IndicatorScore(ind)
  {
    var score := 0.0;
    var m := ind.macd;
    if m.value > m.signal && m.histogram > 0.0 {
      score := score + 35.0;
    } else if m.value < m.signal {
      score := score + 15.0;
    } else {
      score := score + 25.0;
    }
    if Lt(ind.rsi, Some(30.0)) {
      score := score + 35.0;
    } else if Gt(ind.rsi, Some(70.0)) {
      score := score + 15.0;
    } else if Gt(ind.rsi, Some(50.0)) {
      score := score + 30.0;
    } else {
      score := score + 20.0;
    }
    if ind.kdj.None? {
      return None;
    }
    var kdj := ind.kdj.value;
    if kdj.Some? && kdj.value.k > kdj.value.d && kdj.value.j > kdj.value.k {
      score := score + 30.0;
    } else if kdj.Some? && kdj.value.k < kdj.value.d {
      score := score + 10.0;
    } else {
      score := score + 20.0;
    }
    s := Some(score);
  }

  /** 2 for a strong signal, 1 for a medium one, 0.5 for a weak one. */
  function SignalWeight(s: T.Signal): (w: real)
    ensures 0.5 <= w <= 2.0
  {
    match s.strength
    case Strong => 2.0
    case Medium => 1.0
    case Weak => 0.5
  }

  /** Total weight of the signals of one kind. */
  function KindStrength(signals: seq<T.Signal>, kind: T.SignalType): real
  {
    if |signals| == 0 then 0.0
    else KindStrength(signals[..|signals| - 1], kind)
         + (if signals[|signals| - 1].kind == kind then SignalWeight(signals[|signals| - 1]) else 0.0)
  }

  /** 50 without signals, otherwise 50 plus 20 per unit of buy weight minus
    * sell weight; the result is not clamped. */
  function AssessSignals(signals: seq<T.Signal>): real
  {
    if |signals| == 0 then 50.0
    else 50.0 + (KindStrength(signals, T.Buy) - KindStrength(signals, T.Sell)) * 20.0
  }

  /** Buy and sell weights together are at most two per signal. */
  lemma {:induction false} KindStrengthBound(signals: seq<T.Signal>)
    ensures 0.0 <= KindStrength(signals, T.Buy) && 0.0 <= KindStrength(signals, T.Sell)
    ensures KindStrength(signals, T.Buy) + KindStrength(signals, T.Sell) <= 2.0 * |signals| as real
  {
    if |signals| > 0 {
      KindStrengthBound(signals[..|signals| - 1]);
    }
  }

  /** The signal score lies within 40 points per signal of 50, so with the
    * technical analysis's at most three signals it lies in [−70, 170]. */
  lemma {:induction false} AssessSignalsRange(signals: seq<T.Signal>)
    ensures 50.0 - 40.0 * |signals| as real <= AssessSignals(signals) <= 50.0 + 40.0 * |signals| as real
  {
    KindStrengthBound(signals);
  }

  /** Two strong buy signals give 130: the signal score can exceed 100. */
  lemma SignalScoreUnclamped()
    ensures AssessSignals([T.Signal(T.Buy, T.Strong, ""), T.Signal(T.Buy, T.Strong, "")]) == 130.0
  {
    var s := [T.Signal(T.Buy, T.Strong, ""), T.Signal(T.Buy, T.Strong, "")];
    assert s[..1][..0] == [];
    assert KindStrength(s[..1], T.Buy) == 2.0;
    assert KindStrength(s, T.Buy) == 4.0;
    assert KindStrength(s[..1], T.Sell) == 0.0;
  }

  /** The trend share of the technical score: at most 30 points. */
  function TrendShare(t: T.TechnicalReport): (p: real)
    requires T.WellFormed(t)
    ensures 0.0 <= p <= 30.0
  {
    match t.trend
    case Up => 30.0 * (t.strength.value / 100.0)
    case Down => 30.0 * (1.0 - t.strength.value / 100.0)
    case Sideways => 15.0
  }

  /** 30% trend, 25% alignment, 25% indicators, 20% signals, capped at 100. */
  function TechnicalScore(t: T.TechnicalReport): (s: Option<real>)
    requires T.WellFormed(t)
    ensures s.None? <==> t.indicators.kdj.None?
    ensures s.Some? ==> s.value <= 100.0
  {
    var ind := IndicatorScore(t.indicators);
    if ind.None? then None
    else Some(Min(TrendShare(t) + AssessMASystem(t.indicators) * 0.25 + ind.value * 0.25
                  + AssessSignals(t.signals) * 0.20, 100.0))
  }

  /** With at most three signals the technical score lies in [2.25, 100]. */
  lemma {:induction false} TechnicalScoreRange(t: T.TechnicalReport)
    requires T.WellFormed(t) && t.indicators.kdj.Some? && |t.signals| <= 3
    ensures 2.25 <= TechnicalScore(t).value <= 100.0
  {
    AssessSignalsRange(t.signals);
  }

  method AssessTechnical(t: T.TechnicalReport) returns (s: Option<real>)
    requires T.WellFormed(t)
    ensures s == TechnicalScore(t)
  {
    var score := 0.0;
    if t.trend == T.Up {
      score := score + 30.0 * (t.strength.value / 100.0);
    } else if t.trend == T.Down {
      score := score + 30.0 * (1.0 - t.strength.value / 100.0);
    } else {
      score := score + 15.0;
    }
    var maScore := AssessMASystem(t.indicators);
    score := score + maScore * 0.25;
    var indicatorScore := AssessIndicators(t.indicators);
    if indicatorScore.None? {
      return None;
    }
    score := score + indicatorScore.value * 0.25;
    var signalScore := AssessSignals(t.signals);
    score := score + signalScore * 0.20;
    s := Some(Min(score, 100.0));
  }

  // ---------------------------------------------------------------------
  // Trend, market and overall assessment

  function RecentReturns(series: seq<TS.DataPoint>): seq<real>
  {
    TS.Returns(TakeLast(series, 10))
  }

  function RecentVolatilities(series: seq<TS.DataPoint>): seq<real>
  {
    TS.Volatilities(TakeLast(series, 10))
  }

  /** From the last ten points: 50, plus 25 for a positive mean return or
    * minus 15 otherwise, minus 50 times the mean volatility, clamped to
    * [0, 100]; 50 with fewer than two points. */
  function AssessTrend(series: seq<TS.DataPoint>): (s: real)
    ensures 0.0 <= s <= 100.0
    ensures |series| < 2 ==> s == 50.0
  {
    if |series| < 2 then 50.0
    else
      var n := |TakeLast(series, 10)| as real;
      var avgPerformance := Sum(RecentReturns(series)) / n;
      var avgVolatility := Sum(RecentVolatilities(series)) / n;
      var score := 50.0 + (if avgPerformance > 0.0 then 25.0 else -15.0) - avgVolatility * 50.0;
      Max(0.0, Min(100.0, score))
  }

  /** Volatility only subtracts: with non-negative volatilities the trend
    * score is at most 75, and at most 35 without a positive mean return. */
  lemma {:induction false} AssessTrendCeiling(series: seq<TS.DataPoint>)
    requires |series| >= 2
    requires forall i :: 0 <= i < |series| ==> series[i].volatility >= 0.0
    ensures AssessTrend(series) <= 75.0
    ensures Sum(RecentReturns(series)) <= 0.0 ==> AssessTrend(series) <= 35.0
  {
    VolatilityMeanNonNegative(series);
    var n := |TakeLast(series, 10)| as real;
    var avgPerformance := Sum(RecentReturns(series)) / n;
    var avgVolatility := Sum(RecentVolatilities(series)) / n;
    assert avgPerformance > 0.0 ==> Sum(RecentReturns(series)) > 0.0;
    var score := 50.0 + (if avgPerformance > 0.0 then 25.0 else -15.0) - avgVolatility * 50.0;
    assert score <= 75.0;
    assert AssessTrend(series) == Max(0.0, Min(100.0, score));
  }

  /** The mean recent volatility is non-negative when every volatility is. */
  lemma VolatilityMeanNonNegative(series: seq<TS.DataPoint>)
    requires |series| >= 2
    requires forall i :: 0 <= i < |series| ==> series[i].volatility >= 0.0
    ensures Sum(RecentVolatilities(series)) / |TakeLast(series, 10)| as real >= 0.0
  {
    var recent := TakeLast(series, 10);
    var vols := RecentVolatilities(series);
    forall i | 0 <= i < |vols|
      ensures vols[i] >= 0.0
    {
      assert vols[i] == recent[i].volatility == series[|series| - |recent| + i].volatility;
    }
    SumNonNegative(vols);
  }

  /** 30% technical, 25% fundamental, 25% trend, 20% market. */
  function OverallScore(technical: real, fundamental: real, trend: real, market: real): real
  {
    technical * 0.30 + fundamental * 0.25 + trend * 0.25 + market * 0.20
  }

  lemma OverallScoreMonotone(t1: real, f1: real, r1: real, m1: real, t2: real, f2: real, r2: real, m2: real)
    requires t1 <= t2 && f1 <= f2 && r1 <= r2 && m1 <= m2
    ensures OverallScore(t1, f1, r1, m1) <= OverallScore(t2, f2, r2, m2)
  {
  }

  // ---------------------------------------------------------------------
  // Phase and opportunity

  /** First match: down and weaker than 30 is bottom-building; up and
    * stronger than 70 a breakout; up and stronger than 50 an uptrend
    * continuation; sideways consolidation; down and weaker than 50 a
    * pullback; anything else uncertain. */
  function DetermineTrendPhase(trend: T.Trend, strength: Option<real>): Phase
  {
    if trend == T.Down && Lt(strength, Some(30.0)) then BottomBuilding
    else if trend == T.Up && Gt(strength, Some(70.0)) then Breakout
    else if trend == T.Up && Gt(strength, Some(50.0)) then UptrendContinuation
    else if trend == T.Sideways then Consolidation
    else if trend == T.Down && Lt(strength, Some(50.0)) then Pullback
    else Uncertain
  }

  /** Each phase belongs to one trend; a phase is uncertain exactly for a
    * weak up trend or a strong down trend. */
  lemma PhaseMatchesTrend(trend: T.Trend, strength: real)
    ensures DetermineTrendPhase(trend, Some(strength)) in {BottomBuilding, Pullback} ==> trend == T.Down
    ensures DetermineTrendPhase(trend, Some(strength)) in {Breakout, UptrendContinuation} ==> trend == T.Up
    ensures DetermineTrendPhase(trend, Some(strength)) == Consolidation <==> trend == T.Sideways
    ensures DetermineTrendPhase(trend, Some(strength)) == Uncertain <==>
      (trend == T.Up && strength <= 50.0) || (trend == T.Down && strength >= 50.0)
  {
  }

  function DetermineOpportunityLevel(technical: real, fundamental: real, trend: real, phase: Phase): (o: Opportunity)
    ensures o == HighOpportunity ==> phase == Breakout
    ensures o == MediumHigh ==> phase == BottomBuilding && fundamental >= 70.0
    ensures o == VeryLow <==>
      ((technical + fundamental + trend) / 3.0 < 40.0 && !(fundamental >= 70.0 && technical >= 50.0 && phase == BottomBuilding))
  {
    var avgScore := (technical + fundamental + trend) / 3.0;
    if avgScore >= 75.0 && phase == Breakout then HighOpportunity
    else if fundamental >= 70.0 && technical >= 50.0 && phase == BottomBuilding then MediumHigh
    else if avgScore >= 60.0 then MediumOpportunity
    else if avgScore >= 40.0 then LowOpportunity
    else VeryLow
  }

  // ---------------------------------------------------------------------
  // Strategy

  /** The transition tables without the reasoning text. Held: upgrade on a
    * breakout at 75+, add on an uptrend continuation at 70+, reduce in
    * consolidation below 50, exit below 40, otherwise hold in the stored
    * category (left when empty). Not held: build left from a bottom at 70+
    * unless the opportunity is very low, build right on a breakout at 80+,
    * otherwise hold off. */
  function StrategyFor(a: Assessment, holding: Option<Holding>): Strategy
  {
    var s := a.overallScore;
    if holding.Some? then
      if s >= 75.0 && a.phase == Breakout then Strategy(Right, Upgrade, 85.0, [], High)
      else if s >= 70.0 && a.phase == UptrendContinuation then Strategy(Mainline, Add, 80.0, [], Medium)
      else if s < 50.0 && a.phase == Consolidation then Strategy(Left, Reduce, 70.0, [], Medium)
      else if s < 40.0 then Strategy(Exit, ExitAll, 75.0, [], High)
      else Strategy(if holding.value.category.Some? then holding.value.category.value else Left, Hold, 60.0, [], Low)
    else
      if s >= 70.0 && a.phase == BottomBuilding && a.opportunity != VeryLow then Strategy(Left, Build, 75.0, [], Medium)
      else if s >= 80.0 && a.phase == Breakout then Strategy(Right, Build, 85.0, [], High)
      else Strategy(Exit, Hold, 50.0, [], Low)
  }

  /** Building is only for stocks not held; upgrading, adding, reducing and
    * exiting only for held ones; each action carries a fixed confidence. */
  lemma StrategyShape(a: Assessment, holding: Option<Holding>)
    ensures StrategyFor(a, holding).action == Build ==> holding.None?
    ensures StrategyFor(a, holding).action in {Upgrade, Add, Reduce, ExitAll} ==> holding.Some?
    ensures StrategyFor(a, holding).action == ExitAll ==> a.overallScore < 40.0 && StrategyFor(a, holding).confidence == 75.0
    ensures StrategyFor(a, holding).action == Upgrade ==> StrategyFor(a, holding).confidence == 85.0
    ensures 50.0 <= StrategyFor(a, holding).confidence <= 85.0
  {
  }

  /** Because the consolidation rule comes first, a held stock below 40 in
    * consolidation is reduced, not exited. */
  lemma ConsolidationReducesBeforeExit(a: Assessment, h: Holding)
    requires a.overallScore < 40.0 && a.phase == Consolidation
    ensures StrategyFor(a, Some(h)).action == Reduce
  {
  }

  /** Applies the transition table and pushes the reasoning: one line for a
    * held stock, two when building, one when holding off. */
  method GeneratePositionStrategy(a: Assessment, holding: Option<Holding>) returns (s: Strategy)
    ensures s.(reasoning := []) == StrategyFor(a, holding)
    ensures |s.reasoning| == (if s.action == Build then 2 else 1)
  {
    var s0 := a.overallScore;
    var position: Position;
    var action: Action;
    var confidence := 0.0;
    var reasoning: seq<string> := [];
    var urgency := Low;
    if holding.Some? {
      if s0 >= 75.0 && a.phase == Breakout {
        action := Upgrade;
        position := Right;
        confidence := 85.0;
        reasoning := reasoning + ["技术突破，趋势向上，建议升级到右仓或主线"];
        urgency := High;
      } else if s0 >= 70.0 && a.phase == UptrendContinuation {
        action := Add;
        position := Mainline;
        confidence := 80.0;
        reasoning := reasoning + ["趋势延续，建议加仓到主线仓位"];
        urgency := Medium;
      } else if s0 < 50.0 && a.phase == Consolidation {
        action := Reduce;
        position := Left;
        confidence := 70.0;
        reasoning := reasoning + ["基本面转弱，建议减仓观望"];
        urgency := Medium;
      } else if s0 < 40.0 {
        action := ExitAll;
        position := Exit;
        confidence := 75.0;
        reasoning := reasoning + ["基本面恶化，建议清仓退出"];
        urgency := High;
      } else {
        action := Hold;
        position := if holding.value.category.Some? then holding.value.category.value else Left;
        confidence := 60.0;
        reasoning := reasoning + ["情况稳定，建议继续持有观察"];
        urgency := Low;
      }
    } else {
      if s0 >= 70.0 && a.phase == BottomBuilding && a.opportunity != VeryLow {
        action := Build;
        position := Left;
        confidence := 75.0;
        reasoning := reasoning + ["基本面良好，处于筑底阶段，建议建左仓"];
        reasoning := reasoning + ["当前估值合理，适合长期布局"];
        urgency := Medium;
      } else if s0 >= 80.0 && a.phase == Breakout {
        action := Build;
        position := Right;
        confidence := 85.0;
        reasoning := reasoning + ["技术突破，趋势向上，建议直接建右仓"];
        reasoning := reasoning + ["市场表现强劲，时机成熟"];
        urgency := High;
      } else {
        action := Hold;
        position := Exit;
        confidence := 50.0;
        reasoning := reasoning + ["当前机会不明确，建议观望"];
        urgency := Low;
      }
    }
    s := Strategy(position, action, confidence, reasoning, urgency);
  }

  // ---------------------------------------------------------------------
  // Time nodes

  function Count(c: bool): nat { if c then 1 else 0 }

  /** The time nodes for an assessment: a build-left node for a stock not
    * held scoring at least 70; for a held stock, an upgrade-to-right node
    * on a breakout scoring at least 75, an upgrade-to-mainline node in a
    * continuing up trend scoring at least 80, a reduce node below 50 and
    * an exit node below 40. */
  function TimeNodesFor(a: Assessment, held: bool): TimeNodes
  {
    TimeNodes(
      if !held && a.overallScore >= 70.0 then [TimeNode(0.0, "基本面良好，技术面企稳", 75.0, "建议建左仓10-20%", Medium)] else [],
      if held && a.phase == Breakout && a.overallScore >= 75.0 then [TimeNode(0.0, "突破压力位，成交量放大", 80.0, "建议从左仓升级到右仓，加仓至总仓位30-40%", High)] else [],
      if held && a.phase == UptrendContinuation && a.overallScore >= 80.0 then [TimeNode(0.0, "趋势持续，基本面改善", 85.0, "建议升级到主线仓位，总仓位50-60%", High)] else [],
      [],
      if held && a.overallScore < 50.0 then [TimeNode(0.0, "基本面转弱，风险增加", 70.0, "建议减仓50%", Medium)] else [],
      if held && a.overallScore < 40.0 then [TimeNode(0.0, "基本面恶化，建议清仓", 75.0, "建议全部清仓", High)] else [])
  }

  /** Each list holds at most one node, present exactly under its guard; the
    * add-position list is always empty. Dates come from the clock and are
    * not modelled; every node's price is the placeholder 0. */
  method GenerateTimeNodes(a: Assessment, held: bool) returns (n: TimeNodes)
    ensures n == TimeNodesFor(a, held)
    ensures |n.buildLeft| == Count(!held && a.overallScore >= 70.0)
    ensures |n.upgradeToRight| == Count(held && a.phase == Breakout && a.overallScore >= 75.0)
    ensures |n.upgradeToMainline| == Count(held && a.phase == UptrendContinuation && a.overallScore >= 80.0)
    ensures |n.addPosition| == 0
    ensures |n.reducePosition| == Count(held && a.overallScore < 50.0)
    ensures |n.exit| == Count(held && a.overallScore < 40.0)
    ensures |n.upgradeToRight| == 1 ==> n.upgradeToRight[0].priority == High && n.upgradeToRight[0].confidence == 80.0
    ensures |n.exit| == 1 ==> n.exit[0].priority == High && n.exit[0].confidence == 75.0
  {
    var buildLeft: seq<TimeNode> := [];
    if !held && a.overallScore >= 70.0 {
      buildLeft := buildLeft + [TimeNode(0.0, "基本面良好，技术面企稳", 75.0, "建议建左仓10-20%", Medium)];
    }
    var upgradeToRight: seq<TimeNode> := [];
    if held && a.phase == Breakout && a.overallScore >= 75.0 {
      upgradeToRight := upgradeToRight + [TimeNode(0.0, "突破压力位，成交量放大", 80.0, "建议从左仓升级到右仓，加仓至总仓位30-40%", High)];
    }
    var upgradeToMainline: seq<TimeNode> := [];
    if held && a.phase == UptrendContinuation && a.overallScore >= 80.0 {
      upgradeToMainline := upgradeToMainline + [TimeNode(0.0, "趋势持续，基本面改善", 85.0, "建议升级到主线仓位，总仓位50-60%", High)];
    }
    var addPosition: seq<TimeNode> := [];
    var reducePosition: seq<TimeNode> := [];
    if held && a.overallScore < 50.0 {
      reducePosition := reducePosition + [TimeNode(0.0, "基本面转弱，风险增加", 70.0, "建议减仓50%", Medium)];
    }
    var exit: seq<TimeNode> := [];
    if held && a.overallScore < 40.0 {
      exit := exit + [TimeNode(0.0, "基本面恶化，建议清仓", 75.0, "建议全部清仓", High)];
    }
    n := TimeNodes(buildLeft, upgradeToRight, upgradeToMainline, addPosition, reducePosition, exit);
  }

  /** The exit guard implies the reduce guard, and an exit strategy always
    * comes with an exit node; a held stock in consolidation below 40 gets
    * an exit node although its strategy says reduce. */
  lemma TimeNodesAgreeWithStrategy(a: Assessment, h: Holding)
    ensures a.overallScore < 40.0 ==> Count(a.overallScore < 50.0) == 1
    ensures StrategyFor(a, Some(h)).action == ExitAll ==> Count(a.overallScore < 40.0) == 1
    ensures StrategyFor(a, Some(h)).action == Upgrade ==> Count(a.phase == Breakout && a.overallScore >= 75.0) == 1
  {
  }

  // ---------------------------------------------------------------------
  // Position size and risk control

  function LeftSize(s: real, phase: Phase): real
  {
    if s >= 70.0 && phase == BottomBuilding then 20.0 else if s >= 60.0 then 15.0 else if s >= 50.0 then 10.0 else 0.0
  }

  function RightSize(s: real, phase: Phase): real
  {
    if s >= 80.0 && phase == Breakout then 40.0 else if s >= 75.0 then 35.0 else if s >= 70.0 then 30.0 else 0.0
  }

  function MainlineSize(s: real, phase: Phase): real
  {
    if s >= 85.0 && phase == UptrendContinuation then 60.0 else if s >= 80.0 then 55.0 else if s >= 75.0 then 50.0 else 0.0
  }

  /** Sizes only grow with the overall score, for a fixed phase. */
  lemma SizesMonotone(x: real, y: real, phase: Phase)
    requires x <= y
    ensures LeftSize(x, phase) <= LeftSize(y, phase)
    ensures RightSize(x, phase) <= RightSize(y, phase)
    ensures MainlineSize(x, phase) <= MainlineSize(y, phase)
  {
  }

  /** Left in {0, 10, 15, 20}, right in {0, 30, 35, 40}, mainline in
    * {0, 50, 55, 60}; the maximum is the largest of the three. */
  method CalculatePositionSize(a: Assessment) returns (p: PositionSize)
    ensures p.left == LeftSize(a.overallScore, a.phase) && p.left in {0.0, 10.0, 15.0, 20.0}
    ensures p.right == RightSize(a.overallScore, a.phase) && p.right in {0.0, 30.0, 35.0, 40.0}
    ensures p.mainline == MainlineSize(a.overallScore, a.phase) && p.mainline in {0.0, 50.0, 55.0, 60.0}
    ensures p.maxPosition >= p.left && p.maxPosition >= p.right && p.maxPosition >= p.mainline
    ensures p.maxPosition in {p.left, p.right, p.mainline}
  {
    var s := a.overallScore;
    var left := 0.0;
    if s >= 70.0 && a.phase == BottomBuilding {
      left := 20.0;
    } else if s >= 60.0 {
      left := 15.0;
    } else if s >= 50.0 {
      left := 10.0;
    }
    var right := 0.0;
    if s >= 80.0 && a.phase == Breakout {
      right := 40.0;
    } else if s >= 75.0 {
      right := 35.0;
    } else if s >= 70.0 {
      right := 30.0;
    }
    var mainline := 0.0;
    if s >= 85.0 && a.phase == UptrendContinuation {
      mainline := 60.0;
    } else if s >= 80.0 {
      mainline := 55.0;
    } else if s >= 75.0 {
      mainline := 50.0;
    }
    p := PositionSize(left, right, mainline, Max(Max(left, right), mainline));
  }

  /** Stop loss 8% below the price, target 25% above, and a four-rung
    * ladder at 95%, 110%, 120% and 135% of the price with ratios 10, 20, 35
    * and 50. */
  function CalculateRiskControl(price: real): (r: RiskControl)
    ensures |r.ladder| == 4
    ensures price > 0.0 ==> r.stopLoss < price < r.targetPrice
    ensures price > 0.0 ==> forall i, j :: 0 <= i < j < 4 ==>
      r.ladder[i].price < r.ladder[j].price && r.ladder[i].positionRatio < r.ladder[j].positionRatio
    ensures price > 0.0 ==> r.stopLoss < r.ladder[0].price && r.ladder[3].price > r.targetPrice
  {
    RiskControl(price * 0.92, price * 1.25, [
      Rung(price * 0.95, 10.0, "下跌5%，加仓至总仓位10%"),
      Rung(price * 1.10, 20.0, "上涨10%，左侧确认，加仓至20%"),
      Rung(price * 1.20, 35.0, "突破前高，右侧确认，加仓至35%"),
      Rung(price * 1.35, 50.0, "趋势确立，升级主线，加仓至50%")])
  }

  // ---------------------------------------------------------------------
  // Prediction

  function GenerateEntrySignal(trend: T.Trend, qualityScore: int): (e: EntrySignal)
    ensures e == BreakoutEntry <==> trend == T.Up && qualityScore >= 70
    ensures e == WatchEntry <==> trend == T.Up && qualityScore < 70
    ensures e == LeftSideEntry <==> trend == T.Sideways && qualityScore >= 80
  {
    if trend == T.Up && qualityScore >= 70 then BreakoutEntry
    else if qualityScore >= 80 && trend == T.Sideways then LeftSideEntry
    else if trend == T.Up then WatchEntry
    else WaitEntry
  }

  function GenerateExitSignal(trend: T.Trend, strength: Option<real>, qualityScore: int): (e: ExitSignal)
    ensures e == BreakdownExit <==> trend == T.Down && qualityScore < 50
    ensures e == FundamentalExit <==> qualityScore < 40 && !(trend == T.Down && qualityScore < 50)
  {
    if trend == T.Down && qualityScore < 50 then BreakdownExit
    else if qualityScore < 40 then FundamentalExit
    else if trend == T.Down && Lt(strength, Some(30.0)) then WeakeningExit
    else NoExit
  }

  /** An entry signal to build never comes with an exit signal, and an exit
    * signal only for a down trend or a quality score below 40. */
  lemma EntryExitConsistent(trend: T.Trend, strength: Option<real>, qualityScore: int)
    ensures GenerateEntrySignal(trend, qualityScore) in {BreakoutEntry, LeftSideEntry} ==>
      GenerateExitSignal(trend, strength, qualityScore) == NoExit
    ensures GenerateExitSignal(trend, strength, qualityScore) != NoExit ==> trend == T.Down || qualityScore < 40
  {
  }

  /** Up with 75% probability on a strong up trend, down with 70% on a strong
    * down trend, otherwise sideways with 50%, over one to three months. */
  function ForecastTrend(trend: T.Trend, strength: Option<real>): (f: Forecast)
    ensures f.direction == T.Up <==> trend == T.Up && Gt(strength, Some(70.0))
    ensures f.direction == T.Down <==> trend == T.Down && Gt(strength, Some(70.0))
    ensures f.probability == (if f.direction == T.Up then 75.0 else if f.direction == T.Down then 70.0 else 50.0)
  {
    if trend == T.Up && Gt(strength, Some(70.0)) then Forecast(T.Up, 75.0, "1-3个月")
    else if trend == T.Down && Gt(strength, Some(70.0)) then Forecast(T.Down, 70.0, "1-3个月")
    else Forecast(T.Sideways, 50.0, "1-3个月")
  }

  /** An upward forecast is made exactly in the breakout phase. */
  lemma ForecastMatchesPhase(trend: T.Trend, strength: Option<real>)
    ensures ForecastTrend(trend, strength).direction == T.Up <==> DetermineTrendPhase(trend, strength) == Breakout
  {
  }

  // ---------------------------------------------------------------------
  // Whole recommendation and the batch

  /** Fails when the technical or fundamental analysis failed or the KDJ
    * entry is undefined. `marketDraw` in [0, 1) stands for the random
    * market score 60 + 40·draw. */
  method GenerateRecommendation(stockCode: string, technical: Result<T.TechnicalReport>,
                                fundamental: Result<F.FundamentalReport>, series: seq<TS.DataPoint>,
                                price: real, holding: Option<Holding>, marketDraw: real)
    returns (r: Result<PositionRecommendation>)
    requires technical.Success? ==> T.WellFormed(technical.value)
    requires 0.0 <= marketDraw < 1.0
    ensures r.Failure? <==> technical.Failure? || fundamental.Failure? || technical.value.indicators.kdj.None?
    ensures r.Success? ==>
      var t := technical.value;
      var a := Assessment(TechnicalScore(t).value, fundamental.value.quality.score as real, AssessTrend(series),
                          60.0 + marketDraw * 40.0,
                          OverallScore(TechnicalScore(t).value, fundamental.value.quality.score as real, AssessTrend(series), 60.0 + marketDraw * 40.0),
                          DetermineTrendPhase(t.trend, t.strength),
                          DetermineOpportunityLevel(TechnicalScore(t).value, fundamental.value.quality.score as real, AssessTrend(series), DetermineTrendPhase(t.trend, t.strength)));
      r.value.stockCode == stockCode && r.value.isHeld == holding.Some? &&
      r.value.currentPrice == price &&
      r.value.strategy.(reasoning := []) == StrategyFor(a, holding) &&
      r.value.timeNodes == TimeNodesFor(a, holding.Some?) &&
      r.value.size.left == LeftSize(a.overallScore, a.phase) &&
      r.value.size.right == RightSize(a.overallScore, a.phase) &&
      r.value.size.mainline == MainlineSize(a.overallScore, a.phase) &&
      r.value.size.maxPosition == Max(Max(r.value.size.left, r.value.size.right), r.value.size.mainline) &&
      r.value.risk == CalculateRiskControl(price) &&
      r.value.entry == GenerateEntrySignal(t.trend, fundamental.value.quality.score) &&
      r.value.exit == GenerateExitSignal(t.trend, t.strength, fundamental.value.quality.score) &&
      r.value.forecast == ForecastTrend(t.trend, t.strength)
  {
    if technical.Failure? {
      return Failure(technical.error);
    }
    if fundamental.Failure? {
      return Failure(fundamental.error);
    }
    var t := technical.value;
    var technicalScore := AssessTechnical(t);
    if technicalScore.None? {
      return Failure("TypeError");
    }
    var fundamentalScore := fundamental.value.quality.score as real;
    var trendScore := AssessTrend(series);
    var marketScore := 60.0 + marketDraw * 40.0;
    var overall := OverallScore(technicalScore.value, fundamentalScore, trendScore, marketScore);
    var phase := DetermineTrendPhase(t.trend, t.strength);
    var opportunity := DetermineOpportunityLevel(technicalScore.value, fundamentalScore, trendScore, phase);
    var a := Assessment(technicalScore.value, fundamentalScore, trendScore, marketScore, overall, phase, opportunity);
    var strategy := GeneratePositionStrategy(a, holding);
    var nodes := GenerateTimeNodes(a, holding.Some?);
    var size := CalculatePositionSize(a);
    var entry := GenerateEntrySignal(t.trend, fundamental.value.quality.score);
    var exit := GenerateExitSignal(t.trend, t.strength, fundamental.value.quality.score);
    r := Success(PositionRecommendation(stockCode, holding.Some?, price, strategy, nodes, size,
                                        CalculateRiskControl(price), entry, exit, ForecastTrend(t.trend, t.strength)));
  }

  /** The recommendations that succeeded, in input order. */
  function Successes(results: seq<Result<PositionRecommendation>>): (r: seq<PositionRecommendation>)
    ensures |r| <= |results|
  {
    if |results| == 0 then []
    else Successes(results[..|results| - 1])
         + (if results[|results| - 1].Success? then [results[|results| - 1].value] else [])
  }

  function Confidence(p: PositionRecommendation): real { p.strategy.confidence }

  /** Keeps the recommendations that succeeded and sorts them in place by
    * confidence, highest first. */
  method GenerateBatchRecommendations(results: seq<Result<PositionRecommendation>>)
    returns (recs: seq<PositionRecommendation>)
    ensures multiset(recs) == multiset(Successes(results))
    ensures Sorting.SortedDesc(recs, Confidence)
  {
    var kept: seq<PositionRecommendation> := [];
    var i := 0;
    while i < |results|
      invariant 0 <= i <= |results|
      invariant kept == Successes(results[..i])
    {
      assert results[..i + 1][..i] == results[..i];
      if results[i].Success? {
        kept := kept + [results[i].value];
      }
      i := i + 1;
    }
    assert results[..|results|] == results;
    var a := new PositionRecommendation[|kept|](j requires 0 <= j < |kept| => kept[j]);
    assert a[..] == kept;
    Sorting.SortByKeyDesc(a, Confidence);
    recs := a[..];
  }
}
