// The portfolio decision engine: one decision per holding from its
// time-series advice and its classification, the category mix with the
// rebalancing actions it calls for, the next steps (immediate actions,
// watch list, alerts, timeline) and the overall assessment.

module DecisionEngine {
  import opened Util
  import TS = TimeSeriesAnalysis
  import PC = PositionClassification

  datatype DecisionAction = Continue | Buy | Sell | Reduce | Increase
  datatype Priority = High | Medium | Low

  /** A stored holding. */
  datatype Holding = Holding(stockCode: string, stockName: string, currentPrice: real, quantity: real)

  datatype PositionDecision = PositionDecision(
    stockCode: string, stockName: string, currentCategory: PC.Category,
    action: DecisionAction, confidence: real, reasoning: string,
    targetPrice: Option<real>, stopLoss: Option<real>, positionSize: real)

  datatype Rebalance = Rebalance(action: string, stockCode: string, reason: string, priority: Priority)
  datatype Adjustment = Adjustment(
    leftRatio: Option<int>, rightRatio: Option<int>, defensiveRatio: Option<int>, observationRatio: Option<int>,
    actions: seq<Rebalance>)

  /** The texts of the next steps, without their string formatting. */
  datatype Immediate = Immediate(action: DecisionAction, stockCode: string, stockName: string, reasoning: string)
  datatype WatchKind = TargetWatch | StopWatch
  datatype Watch = Watch(kind: WatchKind, stockCode: string, stockName: string, price: real)
  datatype Alert = TechnicalAlert(stockCode: string, stockName: string) | RebalanceAlert(action: string, reason: string)
  datatype NextSteps = NextSteps(immediate: seq<Immediate>, watchList: seq<Watch>, alerts: seq<Alert>, timeline: string)

  /** `None` stands for the NaN produced by dividing by zero holdings. */
  datatype Assessment = Assessment(
    portfolioHealth: Option<int>, riskLevel: TS.RiskLevel, expectedReturn: Option<real>, confidence: Option<int>)

  datatype FinalDecision = FinalDecision(
    horizon: TS.Horizon, assessment: Assessment, decisions: seq<PositionDecision>,
    adjustment: Adjustment, nextSteps: NextSteps)

  // ---------------------------------------------------------------------
  // Single decisions

  /** Increase grows the quantity by 20% but by at most 1000; reduce
    * shrinks it by 20% but by at most 1000; otherwise it is kept. */
  function PositionSizeFor(action: DecisionAction, quantity: real): real
  {
    if action == Increase then Min(quantity * 1.2, quantity + 1000.0)
    else if action == Reduce then Max(quantity * 0.8, quantity - 1000.0)
    else quantity
  }

  lemma PositionSizeOrder(quantity: real)
    requires quantity >= 0.0
    ensures PositionSizeFor(Reduce, quantity) <= quantity <= PositionSizeFor(Increase, quantity)
    ensures quantity - 1000.0 <= PositionSizeFor(Reduce, quantity) && PositionSizeFor(Increase, quantity) <= quantity + 1000.0
  {
  }

  /** The decision table on the time-series advice: continue splits on the
    * category and direction, adjust on the risk level and direction,
    * replace sells, anything else (rebalance) continues. */
  function SingleDecision(h: Holding, a: TS.DecisionAnalysis, category: PC.Category): PositionDecision
  {
    var p := h.currentPrice;
    var d :=
      if a.advice.action == TS.Continue then
        if category == PC.Right && a.trend.direction == TS.Improving then
          PositionDecision(h.stockCode, h.stockName, category, Continue, 0.9, "右侧持仓趋势向好，建议继续持有", None, None, 0.0)
        else if category == PC.Left && a.trend.direction == TS.Improving then
          PositionDecision(h.stockCode, h.stockName, category, Increase, 0.8, "左侧持仓基本面改善，建议适度加仓", Some(p * 1.1), None, 0.0)
        else
          PositionDecision(h.stockCode, h.stockName, category, Continue, 0.6, "持仓稳定，建议继续观察", None, None, 0.0)
      else if a.advice.action == TS.Adjust then
        if a.risk.level == TS.High then
          PositionDecision(h.stockCode, h.stockName, category, Reduce, 0.8, "风险较高，建议减仓控制风险", None, Some(p * 0.9), 0.0)
        else if a.trend.direction == TS.Improving then
          PositionDecision(h.stockCode, h.stockName, category, Increase, 0.7, "趋势向好，建议适度加仓", Some(p * 1.15), None, 0.0)
        else
          PositionDecision(h.stockCode, h.stockName, category, Reduce, 0.6, "趋势不明，建议减仓观望", None, None, 0.0)
      else if a.advice.action == TS.Replace then
        PositionDecision(h.stockCode, h.stockName, category, Sell, 0.8, "基本面恶化且技术面转弱，建议卖出", None, Some(p * 0.95), 0.0)
      else
        PositionDecision(h.stockCode, h.stockName, category, Continue, 0.5, "情况复杂，建议谨慎持有", None, None, 0.0);
    d.(positionSize := PositionSizeFor(d.action, h.quantity))
  }

  /** 'buy' is never decided; a target price comes only with an increase and
    * a stop loss only with a high-risk reduce or a sell; confidence lies in
    * [0.5, 0.9]. */
  lemma SingleDecisionShape(h: Holding, a: TS.DecisionAnalysis, category: PC.Category)
    ensures SingleDecision(h, a, category).action != Buy
    ensures SingleDecision(h, a, category).targetPrice.Some? <==> SingleDecision(h, a, category).action == Increase
    ensures SingleDecision(h, a, category).stopLoss.Some? <==>
      SingleDecision(h, a, category).action == Sell ||
      (SingleDecision(h, a, category).action == Reduce && a.advice.action == TS.Adjust && a.risk.level == TS.High)
    ensures 0.5 <= SingleDecision(h, a, category).confidence <= 0.9
    ensures SingleDecision(h, a, category).action == Sell <==> a.advice.action == TS.Replace
  {
  }

  method GenerateSinglePositionDecision(h: Holding, a: TS.DecisionAnalysis, category: PC.Category)
    returns (d: PositionDecision)
    ensures d == SingleDecision(h, a, category)
  {
    var action: DecisionAction;
    var confidence := 0.0;
    var reasoning := "";
    var targetPrice: Option<real> := None;
    var stopLoss: Option<real> := None;
    if a.advice.action == TS.Continue {
      if category == PC.Right && a.trend.direction == TS.Improving {
        action := Continue;
        confidence := 0.9;
        reasoning := "右侧持仓趋势向好，建议继续持有";
      } else if category == PC.Left && a.trend.direction == TS.Improving {
        action := Increase;
        confidence := 0.8;
        reasoning := "左侧持仓基本面改善，建议适度加仓";
        targetPrice := Some(h.currentPrice * 1.1);
      } else {
        action := Continue;
        confidence := 0.6;
        reasoning := "持仓稳定，建议继续观察";
      }
    } else if a.advice.action == TS.Adjust {
      if a.risk.level == TS.High {
        action := Reduce;
        confidence := 0.8;
        reasoning := "风险较高，建议减仓控制风险";
        stopLoss := Some(h.currentPrice * 0.9);
      } else if a.trend.direction == TS.Improving {
        action := Increase;
        confidence := 0.7;
        reasoning := "趋势向好，建议适度加仓";
        targetPrice := Some(h.currentPrice * 1.15);
      } else {
        action := Reduce;
        confidence := 0.6;
        reasoning := "趋势不明，建议减仓观望";
      }
    } else if a.advice.action == TS.Replace {
      action := Sell;
      confidence := 0.8;
      reasoning := "基本面恶化且技术面转弱，建议卖出";
      stopLoss := Some(h.currentPrice * 0.95);
    } else {
      action := Continue;
      confidence := 0.5;
      reasoning := "情况复杂，建议谨慎持有";
    }
    var positionSize: real;
    if action == Increase {
      positionSize := Min(h.quantity * 1.2, h.quantity + 1000.0);
    } else if action == Reduce {
      positionSize := Max(h.quantity * 0.8, h.quantity - 1000.0);
    } else {
      positionSize := h.quantity;
    }
    d := PositionDecision(h.stockCode, h.stockName, category, action, confidence, reasoning,
                          targetPrice, stopLoss, positionSize);
  }

  /** One decision per holding, from the holding's own analysis and
    * category, in holding order. */
  method GeneratePositionDecisions(holdings: seq<Holding>, analyses: seq<TS.DecisionAnalysis>, categories: seq<PC.Category>)
    returns (decisions: seq<PositionDecision>)
    requires |analyses| == |holdings| && |categories| == |holdings|
    ensures |decisions| == |holdings|
    ensures forall i :: 0 <= i < |holdings| ==> decisions[i] == SingleDecision(holdings[i], analyses[i], categories[i])
  {
    decisions := [];
    var i := 0;
    while i < |holdings|
      invariant 0 <= i <= |holdings|
      invariant |decisions| == i
      invariant forall k :: 0 <= k < i ==> decisions[k] == SingleDecision(holdings[k], analyses[k], categories[k])
    {
      var d := GenerateSinglePositionDecision(holdings[i], analyses[i], categories[i]);
      decisions := decisions + [d];
      i := i + 1;
    }
  }

  // ---------------------------------------------------------------------
  // Portfolio adjustment

  function CountOf(decisions: seq<PositionDecision>, c: PC.Category): (n: nat)
    ensures n <= |decisions|
  {
    if |decisions| == 0 then 0
    else CountOf(decisions[..|decisions| - 1], c) + (if decisions[|decisions| - 1].currentCategory == c then 1 else 0)
  }

  /** Every decision is counted in exactly one category. */
  lemma {:induction false} CountsAddUp(decisions: seq<PositionDecision>)
    ensures CountOf(decisions, PC.Left) + CountOf(decisions, PC.Right) + CountOf(decisions, PC.Defensive)
            + CountOf(decisions, PC.Observation) == |decisions|
  {
    if |decisions| > 0 {
      CountsAddUp(decisions[..|decisions| - 1]);
    }
  }

  /** `(acc[c] || 0)`: a missing key counts as zero. */
  function Get(counts: map<PC.Category, nat>, c: PC.Category): nat
  {
    if c in counts then counts[c] else 0
  }

  /** Builds the count dictionary in place, one decision at a time. */
  method CountCategories(decisions: seq<PositionDecision>) returns (counts: map<PC.Category, nat>)
    ensures forall c :: Get(counts, c) == CountOf(decisions, c)
    ensures forall c :: c in counts ==> counts[c] > 0
  {
    counts := map[];
    var i := 0;
    while i < |decisions|
      invariant 0 <= i <= |decisions|
      invariant forall c :: Get(counts, c) == CountOf(decisions[..i], c)
      invariant forall c :: c in counts ==> counts[c] > 0
    {
      assert decisions[..i + 1][..i] == decisions[..i];
      var c := decisions[i].currentCategory;
      counts := counts[c := Get(counts, c) + 1];
      i := i + 1;
    }
    assert decisions[..|decisions|] == decisions;
  }

  /** The rounded percentage of one category; NaN (`None`) without holdings. */
  function Ratio(count: nat, total: nat): (r: Option<int>)
    requires count <= total
    ensures r.None? <==> total == 0
    ensures r.Some? ==> 0 <= r.value <= 100
  {
    if total == 0 then None
    else
      var x := count as real / total as real * 100.0;
      assert count as real / total as real <= 1.0;
      RoundWithin(x, 0, 100);
      Some(Round(x))
  }

  /** A right-side share below 40 asks (high priority) for more right-side
    * holdings, a left-side share above 50 for fewer left-side ones, a
    * defensive share below 15 for more defensive ones; NaN shares compare
    * false. */
  function RebalancingActions(leftRatio: Option<int>, rightRatio: Option<int>, defensiveRatio: Option<int>): seq<Rebalance>
  {
    (if rightRatio.Some? && rightRatio.value < 40
     then [Rebalance("增加右侧仓位", "建议关注", "右侧仓位不足，建议关注趋势向上的优质标的", High)] else [])
    + (if leftRatio.Some? && leftRatio.value > 50
       then [Rebalance("减少左侧仓位", "建议调整", "左侧仓位过重，建议适度减仓或转换为右侧", Medium)] else [])
    + (if defensiveRatio.Some? && defensiveRatio.value < 15
       then [Rebalance("增加防御性仓位", "建议关注", "防御性仓位不足，建议关注高股息、低估值标的", Medium)] else [])
  }

  /** At most one high-priority action, and it comes first; with no
    * holdings there is none at all. */
  lemma RebalancingShape(leftRatio: Option<int>, rightRatio: Option<int>, defensiveRatio: Option<int>)
    ensures |RebalancingActions(leftRatio, rightRatio, defensiveRatio)| <= 3
    ensures forall i :: 0 < i < |RebalancingActions(leftRatio, rightRatio, defensiveRatio)| ==>
      RebalancingActions(leftRatio, rightRatio, defensiveRatio)[i].priority == Medium
    ensures leftRatio.None? && rightRatio.None? && defensiveRatio.None? ==>
      RebalancingActions(leftRatio, rightRatio, defensiveRatio) == []
  {
  }

  method GeneratePortfolioAdjustment(decisions: seq<PositionDecision>) returns (adj: Adjustment)
    ensures adj.leftRatio == Ratio(CountOf(decisions, PC.Left), |decisions|)
    ensures adj.rightRatio == Ratio(CountOf(decisions, PC.Right), |decisions|)
    ensures adj.defensiveRatio == Ratio(CountOf(decisions, PC.Defensive), |decisions|)
    ensures adj.observationRatio == Ratio(CountOf(decisions, PC.Observation), |decisions|)
    ensures adj.actions == RebalancingActions(adj.leftRatio, adj.rightRatio, adj.defensiveRatio)
  {
    var counts := CountCategories(decisions);
    var total := |decisions|;
    var left := Ratio(Get(counts, PC.Left), total);
    var right := Ratio(Get(counts, PC.Right), total);
    var defensive := Ratio(Get(counts, PC.Defensive), total);
    var observation := Ratio(Get(counts, PC.Observation), total);
    var actions: seq<Rebalance> := [];
    if right.Some? && right.value < 40 {
      actions := actions + [Rebalance("增加右侧仓位", "建议关注", "右侧仓位不足，建议关注趋势向上的优质标的", High)];
    }
    if left.Some? && left.value > 50 {
      actions := actions + [Rebalance("减少左侧仓位", "建议调整", "左侧仓位过重，建议适度减仓或转换为右侧", Medium)];
    }
    if defensive.Some? && defensive.value < 15 {
      actions := actions + [Rebalance("增加防御性仓位", "建议关注", "防御性仓位不足，建议关注高股息、低估值标的", Medium)];
    }
    adj := Adjustment(left, right, defensive, observation, actions);
  }

  // ---------------------------------------------------------------------
  // Next steps

  /** One immediate action per decision other than continue, in order. */
  function ImmediateActions(decisions: seq<PositionDecision>): seq<Immediate>
  {
    if |decisions| == 0 then []
    else
      var d := decisions[|decisions| - 1];
      ImmediateActions(decisions[..|decisions| - 1])
      + (if d.action != Continue then [Immediate(d.action, d.stockCode, d.stockName, d.reasoning)] else [])
  }

  /** JavaScript truthiness of an optional price: present and non-zero. */
  predicate Truthy(p: Option<real>) { p.Some? && p.value != 0.0 }

  /** A target entry and then a stop entry per decision, when set. */
  function WatchList(decisions: seq<PositionDecision>): seq<Watch>
  {
    if |decisions| == 0 then []
    else
      var d := decisions[|decisions| - 1];
      WatchList(decisions[..|decisions| - 1])
      + (if Truthy(d.targetPrice) then [Watch(TargetWatch, d.stockCode, d.stockName, d.targetPrice.value)] else [])
      + (if Truthy(d.stopLoss) then [Watch(StopWatch, d.stockCode, d.stockName, d.stopLoss.value)] else [])
  }

  /** An alert per continue decision with confidence below 0.7. */
  function DecisionAlerts(decisions: seq<PositionDecision>): seq<Alert>
  {
    if |decisions| == 0 then []
    else
      var d := decisions[|decisions| - 1];
      DecisionAlerts(decisions[..|decisions| - 1])
      + (if d.action == Continue && d.confidence < 0.7 then [TechnicalAlert(d.stockCode, d.stockName)] else [])
  }

  /** An alert per high-priority rebalancing action. */
  function RebalanceAlerts(actions: seq<Rebalance>): seq<Alert>
  {
    if |actions| == 0 then []
    else
      var a := actions[|actions| - 1];
      RebalanceAlerts(actions[..|actions| - 1]) + (if a.priority == High then [RebalanceAlert(a.action, a.reason)] else [])
  }

  /** No decision yields more than one immediate action or two watch
    * entries; the engine's own decisions never produce a buy. */
  lemma {:induction false} NextStepsBounds(decisions: seq<PositionDecision>)
    ensures |ImmediateActions(decisions)| <= |decisions|
    ensures |WatchList(decisions)| <= 2 * |decisions|
    ensures |DecisionAlerts(decisions)| + |ImmediateActions(decisions)| <= |decisions|
  {
    if |decisions| > 0 {
      NextStepsBounds(decisions[..|decisions| - 1]);
    }
  }

  /** Urgent when some decision is a buy or a sell. */
  function GetTimeline(decisions: seq<PositionDecision>): (t: string)
    ensures t == "1-3天内执行紧急操作" <==> exists i :: 0 <= i < |decisions| && decisions[i].action in {Buy, Sell}
  {
    if exists i :: 0 <= i < |decisions| && decisions[i].action in {Buy, Sell} then "1-3天内执行紧急操作"
    else "1-2周内完成调整"
  }

  /** Walks the decisions three times and the rebalancing actions once,
    * pushing the immediate actions, watch entries and alerts. */
  method GenerateNextSteps(decisions: seq<PositionDecision>, adj: Adjustment) returns (n: NextSteps)
    ensures n.immediate == ImmediateActions(decisions)
    ensures n.watchList == WatchList(decisions)
    ensures n.alerts == DecisionAlerts(decisions) + RebalanceAlerts(adj.actions)
    ensures n.timeline == GetTimeline(decisions)
  {
    var immediate: seq<Immediate> := [];
    var i := 0;
    while i < |decisions|
      invariant 0 <= i <= |decisions|
      invariant immediate == ImmediateActions(decisions[..i])
    {
      assert decisions[..i + 1][..i] == decisions[..i];
      var d := decisions[i];
      if d.action == Sell || d.action == Buy || d.action == Reduce || d.action == Increase {
        immediate := immediate + [Immediate(d.action, d.stockCode, d.stockName, d.reasoning)];
      }
      i := i + 1;
    }
    var watch: seq<Watch> := [];
    i := 0;
    while i < |decisions|
      invariant 0 <= i <= |decisions|
      invariant watch == WatchList(decisions[..i])
    {
      assert decisions[..i + 1][..i] == decisions[..i];
      var d := decisions[i];
      if Truthy(d.targetPrice) {
        watch := watch + [Watch(TargetWatch, d.stockCode, d.stockName, d.targetPrice.value)];
      }
      if Truthy(d.stopLoss) {
        watch := watch + [Watch(StopWatch, d.stockCode, d.stockName, d.stopLoss.value)];
      }
      i := i + 1;
    }
    var alerts: seq<Alert> := [];
    i := 0;
    while i < |decisions|
      invariant 0 <= i <= |decisions|
      invariant alerts == DecisionAlerts(decisions[..i])
    {
      assert decisions[..i + 1][..i] == decisions[..i];
      var d := decisions[i];
      if d.action == Continue && d.confidence < 0.7 {
        alerts := alerts + [TechnicalAlert(d.stockCode, d.stockName)];
      }
      i := i + 1;
    }
    assert decisions[..|decisions|] == decisions;
    assert adj.actions[..0] == [];
    var j := 0;
    while j < |adj.actions|
      invariant 0 <= j <= |adj.actions|
      invariant alerts == DecisionAlerts(decisions) + RebalanceAlerts(adj.actions[..j])
    {
      assert adj.actions[..j + 1][..j] == adj.actions[..j];
      var a := adj.actions[j];
      if a.priority == High {
        alerts := alerts + [RebalanceAlert(a.action, a.reason)];
      }
      j := j + 1;
    }
    assert adj.actions[..|adj.actions|] == adj.actions;
    n := NextSteps(immediate, watch, alerts, GetTimeline(decisions));
  }

  // ---------------------------------------------------------------------
  // Overall assessment

  function Confidences(decisions: seq<PositionDecision>): (r: seq<real>)
    ensures |r| == |decisions| && forall i :: 0 <= i < |r| ==> r[i] == decisions[i].confidence
  {
    if |decisions| == 0 then [] else Confidences(decisions[..|decisions| - 1]) + [decisions[|decisions| - 1].confidence]
  }

  /** 1.2 for buy or increase, 0.8 for sell or reduce, 1 otherwise. */
  function Multiplier(a: DecisionAction): (m: real)
    ensures 0.8 <= m <= 1.2
  {
    match a
    case Buy => 1.2
    case Increase => 1.2
    case Sell => 0.8
    case Reduce => 0.8
    case Continue => 1.0
  }

  function Multipliers(decisions: seq<PositionDecision>): (r: seq<real>)
    ensures |r| == |decisions| && forall i :: 0 <= i < |r| ==> r[i] == Multiplier(decisions[i].action)
  {
    if |decisions| == 0 then [] else Multipliers(decisions[..|decisions| - 1]) + [Multiplier(decisions[|decisions| - 1].action)]
  }

  /** The latest return of each analysis, 0 when it has no points. */
  function LatestReturns(analyses: seq<TS.DecisionAnalysis>): (r: seq<real>)
    ensures |r| == |analyses|
  {
    if |analyses| == 0 then []
    else
      var pts := analyses[|analyses| - 1].dataPoints;
      LatestReturns(analyses[..|analyses| - 1]) + [if |pts| == 0 then 0.0 else pts[|pts| - 1].ret]
  }

  function CountHighRisk(analyses: seq<TS.DecisionAnalysis>): (n: nat)
    ensures n <= |analyses|
  {
    if |analyses| == 0 then 0
    else CountHighRisk(analyses[..|analyses| - 1]) + (if analyses[|analyses| - 1].risk.level == TS.High then 1 else 0)
  }

  /** High when more than half of the analyses are high-risk, medium when
    * any is, otherwise low. */
  function PortfolioRisk(analyses: seq<TS.DecisionAnalysis>): (r: TS.RiskLevel)
    ensures r == TS.Low <==> CountHighRisk(analyses) == 0
    ensures r == TS.High ==> 2 * CountHighRisk(analyses) > |analyses|
  {
    var high := CountHighRisk(analyses);
    if high as real > |analyses| as real / 2.0 then TS.High else if high > 0 then TS.Medium else TS.Low
  }

  /** Mean confidence as a rounded percentage; NaN without decisions. */
  function Health(decisions: seq<PositionDecision>): Option<int>
  {
    if |decisions| == 0 then None else Some(Round(Sum(Confidences(decisions)) / |decisions| as real * 100.0))
  }

  /** Mean latest return times mean multiplier, rounded to two decimals;
    * NaN without analyses or decisions. */
  function ExpectedReturn(decisions: seq<PositionDecision>, analyses: seq<TS.DecisionAnalysis>): Option<real>
  {
    if |analyses| == 0 || |decisions| == 0 then None
    else
      var avgReturn := Sum(LatestReturns(analyses)) / |analyses| as real;
      var multiplier := Sum(Multipliers(decisions)) / |decisions| as real;
      Some(Round2(avgReturn * multiplier))
  }

  /** The mean multiplier lies in [0.8, 1.2]. */
  lemma MeanMultiplierRange(decisions: seq<PositionDecision>)
    requires |decisions| > 0
    ensures 0.8 <= Sum(Multipliers(decisions)) / |decisions| as real <= 1.2
  {
    MeanBounds(Multipliers(decisions), 0.8, 1.2);
  }

  /** Decisions of the engine's own table keep the health in [50, 90]. */
  lemma HealthRange(decisions: seq<PositionDecision>)
    requires |decisions| > 0
    requires forall i :: 0 <= i < |decisions| ==> 0.5 <= decisions[i].confidence <= 0.9
    ensures 50 <= Health(decisions).value <= 90
  {
    var c := Confidences(decisions);
    MeanBounds(c, 0.5, 0.9);
    RoundWithin(Sum(c) / |decisions| as real * 100.0, 50, 90);
  }

  function OverallAssessment(decisions: seq<PositionDecision>, analyses: seq<TS.DecisionAnalysis>): Assessment
  {
    Assessment(Health(decisions), PortfolioRisk(analyses), ExpectedReturn(decisions, analyses), Health(decisions))
  }

  // ---------------------------------------------------------------------
  // The final decision

  /** Decides on every holding and derives the adjustment, the next steps
    * and the overall assessment from those decisions. `categories` stands
    * for the classification each holding receives from
    * `PositionClassificationService.classifyPosition`
    * (backend/src/services/decisionEngine.ts:146); that call's failure on
    * a malformed holding is outside the model, with the other failure paths. */
  method GenerateFinalDecision(horizon: TS.Horizon, holdings: seq<Holding>, analyses: seq<TS.DecisionAnalysis>,
                               categories: seq<PC.Category>) returns (f: FinalDecision)
    requires |analyses| == |holdings| && |categories| == |holdings|
    ensures |f.decisions| == |holdings|
    ensures forall i :: 0 <= i < |holdings| ==> f.decisions[i] == SingleDecision(holdings[i], analyses[i], categories[i])
    ensures f.adjustment.leftRatio == Ratio(CountOf(f.decisions, PC.Left), |f.decisions|)
    ensures f.adjustment.rightRatio == Ratio(CountOf(f.decisions, PC.Right), |f.decisions|)
    ensures f.adjustment.defensiveRatio == Ratio(CountOf(f.decisions, PC.Defensive), |f.decisions|)
    ensures f.adjustment.observationRatio == Ratio(CountOf(f.decisions, PC.Observation), |f.decisions|)
    ensures f.adjustment.actions == RebalancingActions(f.adjustment.leftRatio, f.adjustment.rightRatio, f.adjustment.defensiveRatio)
    ensures f.nextSteps.immediate == ImmediateActions(f.decisions)
    ensures f.nextSteps.watchList == WatchList(f.decisions)
    ensures f.nextSteps.alerts == DecisionAlerts(f.decisions) + RebalanceAlerts(f.adjustment.actions)
    ensures f.nextSteps.timeline == GetTimeline(f.decisions)
    ensures f.assessment == OverallAssessment(f.decisions, analyses)
    ensures f.horizon == horizon
  {
    var decisions := GeneratePositionDecisions(holdings, analyses, categories);
    var adj := GeneratePortfolioAdjustment(decisions);
    var next := GenerateNextSteps(decisions, adj);
    f := FinalDecision(horizon, OverallAssessment(decisions, analyses), decisions, adj, next);
  }
}
