// Portfolio risk control: per-position and per-sector risk levels, the
// grouping of positions by sector, stop-loss prices, risk-adjusted weights
// and the risk alerts raised from the resulting metrics.

module RiskControl {
  import opened Util

  datatype RiskLevel = Low | Medium | High
  datatype AlertKind = PositionAlert | PortfolioAlert | MarketAlert
  datatype AlertLevel = AlertMedium | AlertHigh | AlertCritical

  /** A stored position; `sector` is `None` when the column is empty. */
  datatype Position = Position(stockCode: string, stockName: string, currentPrice: real, marketValue: real, sector: Option<string>)

  datatype PortfolioRisk = PortfolioRisk(
    totalRisk: real, systematicRisk: real, unsystematicRisk: real, maxDrawdown: real, var95: real, cvar95: real)
  datatype PositionRisk = PositionRisk(stockCode: string, stockName: string, level: RiskLevel, factors: seq<string>, score: real)
  /** `concentration` is `None` when the portfolio value is zero (a NaN). */
  datatype SectorRisk = SectorRisk(sector: string, concentration: Option<real>, level: RiskLevel, diversification: real)
  datatype MarketRisk = MarketRisk(volatility: real, correlationRisk: real, liquidityRisk: real, policyRisk: real)
  datatype RiskMetrics = RiskMetrics(portfolio: PortfolioRisk, positions: seq<PositionRisk>, sectors: seq<SectorRisk>, market: MarketRisk)

  /** `subject` names the stock or sector an alert is about, if any. */
  datatype Alert = Alert(kind: AlertKind, level: AlertLevel, subject: Option<string>)

  /** The random draws in [0, 1) that stand in for one position's risk
    * score and its four risk-factor tests. */
  datatype RiskDraws = RiskDraws(score: real, volatility: real, liquidity: real, fundamentals: real, technicals: real)

  // ---------------------------------------------------------------------
  // Position risk

  /** High above 0.7, medium above 0.4, low otherwise. */
  function PositionLevel(score: real): (l: RiskLevel)
    ensures l == High <==> score > 0.7
    ensures l == Low <==> score <= 0.4
  {
    if score > 0.7 then High else if score > 0.4 then Medium else Low
  }

  function LevelRank(l: RiskLevel): int
  {
    match l
    case Low => 0
    case Medium => 1
    case High => 2
  }

  lemma PositionLevelMonotone(a: real, b: real)
    requires a <= b
    ensures LevelRank(PositionLevel(a)) <= LevelRank(PositionLevel(b))
  {
  }

  /** Each test adds its factor when its draw exceeds the threshold. */
  function RiskFactors(d: RiskDraws): (r: seq<string>)
    ensures |r| <= 4
    ensures "高波动率" in r <==> d.volatility > 0.7
    ensures "基本面恶化" in r <==> d.fundamentals > 0.6
  {
    (if d.volatility > 0.7 then ["高波动率"] else [])
    + (if d.liquidity > 0.8 then ["流动性不足"] else [])
    + (if d.fundamentals > 0.6 then ["基本面恶化"] else [])
    + (if d.technicals > 0.9 then ["技术面破位"] else [])
  }

  /** The score `0.8·draw + 0.2` lies in [0.2, 1), so a position is never
    * rated below low on its own, and it is high exactly when the draw
    * exceeds 0.625. */
  function PositionRiskOf(p: Position, d: RiskDraws): (r: PositionRisk)
    requires 0.0 <= d.score < 1.0
    ensures 0.2 <= r.score < 1.0
    ensures r.level == High <==> d.score > 0.625
    ensures r.factors == RiskFactors(d)
  {
    var score := d.score * 0.8 + 0.2;
    PositionRisk(p.stockCode, p.stockName, PositionLevel(score), RiskFactors(d), score)
  }

  predicate ValidDraws(draws: seq<RiskDraws>)
  {
    forall i :: 0 <= i < |draws| ==> 0.0 <= draws[i].score < 1.0
  }

  method CalculatePositionRisks(positions: seq<Position>, draws: seq<RiskDraws>) returns (risks: seq<PositionRisk>)
    requires |draws| == |positions| && ValidDraws(draws)
    ensures |risks| == |positions|
    ensures forall i :: 0 <= i < |positions| ==> risks[i] == PositionRiskOf(positions[i], draws[i])
  {
    risks := [];
    var i := 0;
    while i < |positions|
      invariant 0 <= i <= |positions|
      invariant |risks| == i
      invariant forall k :: 0 <= k < i ==> risks[k] == PositionRiskOf(positions[k], draws[k])
    {
      risks := risks + [PositionRiskOf(positions[i], draws[i])];
      i := i + 1;
    }
  }

  // ---------------------------------------------------------------------
  // Grouping by sector

  /** An empty or missing sector falls into '其他'. */
  function SectorOf(p: Position): string
  {
    if p.sector.Some? && p.sector.value != "" then p.sector.value else "其他"
  }

  /** The distinct sectors in order of first appearance. */
  function Sectors(ps: seq<Position>): seq<string>
  {
    if |ps| == 0 then []
    else
      var init := Sectors(ps[..|ps| - 1]);
      if SectorOf(ps[|ps| - 1]) in init then init else init + [SectorOf(ps[|ps| - 1])]
  }

  /** The positions of one sector, in input order. */
  function InSector(ps: seq<Position>, s: string): (r: seq<Position>)
    ensures |r| <= |ps|
  {
    if |ps| == 0 then []
    else InSector(ps[..|ps| - 1], s) + (if SectorOf(ps[|ps| - 1]) == s then [ps[|ps| - 1]] else [])
  }

  /** No sector is listed twice. */
  lemma {:induction false} SectorsDistinct(ps: seq<Position>)
    ensures forall i, j :: 0 <= i < j < |Sectors(ps)| ==> Sectors(ps)[i] != Sectors(ps)[j]
  {
    if |ps| > 0 {
      SectorsDistinct(ps[..|ps| - 1]);
    }
  }

  /** A sector is listed iff some position belongs to it, that is iff its
    * group is not empty. */
  lemma {:induction false} SectorsExactAt(ps: seq<Position>, s: string)
    ensures s in Sectors(ps) <==> exists i :: 0 <= i < |ps| && SectorOf(ps[i]) == s
    ensures s in Sectors(ps) <==> |InSector(ps, s)| > 0
  {
    if |ps| > 0 {
      var init := ps[..|ps| - 1];
      SectorsExactAt(init, s);
      if exists i :: 0 <= i < |ps| && SectorOf(ps[i]) == s {
        var i :| 0 <= i < |ps| && SectorOf(ps[i]) == s;
        if i < |init| {
          assert SectorOf(init[i]) == s;
        }
      }
      if exists i :: 0 <= i < |init| && SectorOf(init[i]) == s {
        var i :| 0 <= i < |init| && SectorOf(init[i]) == s;
        assert SectorOf(ps[i]) == s;
      }
    }
  }

  lemma SectorsExact(ps: seq<Position>)
    ensures forall s :: s in Sectors(ps) <==> exists i :: 0 <= i < |ps| && SectorOf(ps[i]) == s
  {
    forall s
      ensures s in Sectors(ps) <==> exists i :: 0 <= i < |ps| && SectorOf(ps[i]) == s
    {
      SectorsExactAt(ps, s);
    }
  }

  /** Builds the sector dictionary in place, appending each position to
    * its sector's list and creating the list on first sight; `order`
    * records the insertion order of the keys. */
  method GroupBySector(ps: seq<Position>) returns (groups: map<string, seq<Position>>, order: seq<string>)
    ensures order == Sectors(ps)
    ensures forall s :: s in groups <==> s in order
    ensures forall s :: s in groups ==> groups[s] == InSector(ps, s)
  {
    groups := map[];
    order := [];
    var i := 0;
    while i < |ps|
      invariant 0 <= i <= |ps|
      invariant order == Sectors(ps[..i])
      invariant forall s :: s in groups <==> s in order
      invariant forall s :: s in groups ==> groups[s] == InSector(ps[..i], s)
    {
      assert ps[..i + 1][..i] == ps[..i];
      var sector := SectorOf(ps[i]);
      if sector !in groups {
        groups := groups[sector := []];
        order := order + [sector];
        SectorsExactAt(ps[..i], sector);
      }
      groups := groups[sector := groups[sector] + [ps[i]]];
      i := i + 1;
    }
    assert ps[..|ps|] == ps;
  }

  // ---------------------------------------------------------------------
  // Sector risk

  function Value(ps: seq<Position>): real
  {
    if |ps| == 0 then 0.0 else Value(ps[..|ps| - 1]) + ps[|ps| - 1].marketValue
  }

  /** The sector's share of the portfolio value; NaN (`None`) for a zero
    * portfolio value. */
  function Concentration(ps: seq<Position>, s: string): Option<real>
  {
    if Value(ps) == 0.0 then None else Some(Value(InSector(ps, s)) / Value(ps))
  }

  /** `min(n / 10, 1)`. */
  function Diversification(n: nat): (d: real)
    ensures 0.0 <= d <= 1.0
    ensures d == 1.0 <==> n >= 10
  {
    Min(n as real / 10.0, 1.0)
  }

  /** High above 0.4, medium above 0.2; NaN compares false, so low. */
  function ConcentrationLevel(c: Option<real>): (l: RiskLevel)
    ensures l == High <==> c.Some? && c.value > 0.4
    ensures l == Medium <==> c.Some? && 0.2 < c.value <= 0.4
  {
    if c.Some? && c.value > 0.4 then High else if c.Some? && c.value > 0.2 then Medium else Low
  }

  function SectorRiskOf(ps: seq<Position>, s: string): SectorRisk
  {
    var c := Concentration(ps, s);
    SectorRisk(s, c, ConcentrationLevel(c), Diversification(|InSector(ps, s)|))
  }

  function SectorRisksOf(ps: seq<Position>, order: seq<string>): (r: seq<SectorRisk>)
    ensures |r| == |order|
  {
    if |order| == 0 then [] else SectorRisksOf(ps, order[..|order| - 1]) + [SectorRiskOf(ps, order[|order| - 1])]
  }

  /** The entry of one sector, from its group and the portfolio value. */
  method RateSector(ps: seq<Position>, sector: string, group: seq<Position>, portfolioValue: real)
    returns (risk: SectorRisk)
    requires group == InSector(ps, sector) && portfolioValue == Value(ps)
    ensures risk == SectorRiskOf(ps, sector)
  {
    var concentration := if portfolioValue == 0.0 then None else Some(Value(group) / portfolioValue);
    var level := if concentration.Some? && concentration.value > 0.4 then High
                 else if concentration.Some? && concentration.value > 0.2 then Medium
                 else Low;
    risk := SectorRisk(sector, concentration, level, Diversification(|group|));
  }

  /** One entry per sector, in the order the sectors first appear, each
    * rated from its group's share of the portfolio value. */
  method CalculateSectorRisks(ps: seq<Position>) returns (risks: seq<SectorRisk>)
    ensures risks == SectorRisksOf(ps, Sectors(ps))
  {
    var groups, order := GroupBySector(ps);
    risks := RateSectors(ps, groups, order);
  }

  /** The loop over the grouped sectors. */
  method RateSectors(ps: seq<Position>, groups: map<string, seq<Position>>, order: seq<string>)
    returns (risks: seq<SectorRisk>)
    requires forall k :: 0 <= k < |order| ==> order[k] in groups && groups[order[k]] == InSector(ps, order[k])
    ensures risks == SectorRisksOf(ps, order)
  {
    var portfolioValue := Value(ps);
    risks := [];
    var i := 0;
    while i < |order|
      invariant 0 <= i <= |order|
      invariant risks == SectorRisksOf(ps, order[..i])
    {
      assert order[..i + 1][..i] == order[..i];
      var risk := RateSector(ps, order[i], groups[order[i]], portfolioValue);
      risks := risks + [risk];
      i := i + 1;
    }
    assert order[..|order|] == order;
  }

  function SectorValues(ps: seq<Position>, order: seq<string>): (r: seq<real>)
    ensures |r| == |order|
  {
    if |order| == 0 then [] else SectorValues(ps, order[..|order| - 1]) + [Value(InSector(ps, order[|order| - 1]))]
  }

  lemma ValueAppend(ps: seq<Position>, p: Position)
    ensures Value(ps + [p]) == Value(ps) + p.marketValue
  {
    assert (ps + [p])[..|ps|] == ps;
  }

  /** The last position adds its value to its own sector's group only. */
  lemma InSectorValueStep(ps: seq<Position>, k: string)
    requires |ps| > 0
    ensures Value(InSector(ps, k)) ==
      Value(InSector(ps[..|ps| - 1], k)) + (if SectorOf(ps[|ps| - 1]) == k then ps[|ps| - 1].marketValue else 0.0)
  {
    var before := InSector(ps[..|ps| - 1], k);
    if SectorOf(ps[|ps| - 1]) == k {
      ValueAppend(before, ps[|ps| - 1]);
    } else {
      assert InSector(ps, k) == before + [];
      assert before + [] == before;
    }
  }

  /** Over distinct keys, adding one position raises the sum of the sector
    * values by its value iff its sector is one of the keys. */
  lemma {:induction false} SectorValuesStep(ps: seq<Position>, order: seq<string>)
    requires |ps| > 0
    requires forall i, j :: 0 <= i < j < |order| ==> order[i] != order[j]
    ensures Sum(SectorValues(ps, order)) ==
      Sum(SectorValues(ps[..|ps| - 1], order)) + (if SectorOf(ps[|ps| - 1]) in order then ps[|ps| - 1].marketValue else 0.0)
  {
    if |order| > 0 {
      var front := order[..|order| - 1];
      var k := order[|order| - 1];
      var init := ps[..|ps| - 1];
      var s := SectorOf(ps[|ps| - 1]);
      assert forall i, j :: 0 <= i < j < |front| ==> front[i] != front[j];
      SectorValuesStep(ps, front);
      InSectorValueStep(ps, k);
      assert order == front + [k];
      assert s in order <==> s in front || s == k;
      assert s == k ==> s !in front;
      SumAppend(SectorValues(ps, front), Value(InSector(ps, k)));
      SumAppend(SectorValues(init, front), Value(InSector(init, k)));
    }
  }

  /** The sector values add up to the portfolio value: the groups
    * partition the positions. */
  lemma {:induction false} SectorValuesPartition(ps: seq<Position>)
    ensures Sum(SectorValues(ps, Sectors(ps))) == Value(ps)
  {
    if |ps| > 0 {
      var init := ps[..|ps| - 1];
      var s := SectorOf(ps[|ps| - 1]);
      var before := Sectors(init);
      SectorValuesPartition(init);
      SectorsDistinct(ps);
      SectorValuesStep(ps, Sectors(ps));
      if s !in before {
        SectorsExactAt(init, s);
        assert InSector(init, s) == [];
        SumAppend(SectorValues(init, before), 0.0);
      }
    }
  }

  function Concentrations(ps: seq<Position>, order: seq<string>): (r: seq<real>)
    requires Value(ps) != 0.0
    ensures |r| == |order|
  {
    if |order| == 0 then [] else Concentrations(ps, order[..|order| - 1]) + [Concentration(ps, order[|order| - 1]).value]
  }

  lemma AddQuotients(a: real, b: real, t: real)
    requires t != 0.0
    ensures a / t + b / t == (a + b) / t
  {
  }

  lemma {:induction false} ConcentrationsScale(ps: seq<Position>, order: seq<string>)
    requires Value(ps) != 0.0
    ensures Sum(Concentrations(ps, order)) == Sum(SectorValues(ps, order)) / Value(ps)
  {
    if |order| > 0 {
      var front := order[..|order| - 1];
      var t := Value(ps);
      var v := Value(InSector(ps, order[|order| - 1]));
      var cs, vs := Concentrations(ps, front), SectorValues(ps, front);
      assert Concentrations(ps, order) == cs + [v / t];
      assert SectorValues(ps, order) == vs + [v];
      ConcentrationsScale(ps, front);
      SumAppend(cs, v / t);
      SumAppend(vs, v);
      AddQuotients(Sum(vs), v, t);
    }
  }

  /** With a non-zero portfolio value the sector concentrations add up to 1. */
  lemma ConcentrationsSumToOne(ps: seq<Position>)
    requires Value(ps) != 0.0
    ensures Sum(Concentrations(ps, Sectors(ps))) == 1.0
  {
    SectorValuesPartition(ps);
    ConcentrationsScale(ps, Sectors(ps));
    SelfQuotient(Value(ps));
  }

  lemma SelfQuotient(t: real)
    requires t != 0.0
    ensures t / t == 1.0
  {
  }

  // ---------------------------------------------------------------------
  // Stop loss and sizing

  /** The technical support, or 90% of the price when it is missing or
    * zero; the stop never lies below 90% of the price. */
  function StopLossPrice(price: real, support: Option<real>): (s: real)
    ensures s >= price * 0.9
    ensures support.Some? && support.value != 0.0 && support.value >= price * 0.9 ==> s == support.value
  {
    var base := if support.Some? && support.value != 0.0 then support.value else price * 0.9;
    Max(base, price * (1.0 - 0.1))
  }

  /** A floating-point quotient: a finite value, minus infinity, or NaN. */
  datatype Quotient = Finite(value: real) | NegInfinity | NotANumber

  /** `(price − stop) / price`. At a zero price the stop is `max(support, 0)`:
    * a positive support divides a negative number by zero, giving minus
    * infinity; otherwise the quotient is 0/0, NaN. */
  function StopLossRate(price: real, support: Option<real>): (r: Quotient)
    ensures r.Finite? <==> price != 0.0
    ensures r == NegInfinity <==> price == 0.0 && support.Some? && support.value > 0.0
    ensures r.Finite? ==> r.value * price == price - StopLossPrice(price, support)
  {
    if price == 0.0 then
      if StopLossPrice(price, support) > 0.0 then NegInfinity else NotANumber
    else Finite((price - StopLossPrice(price, support)) / price)
  }

  lemma QuotientAtMost(x: real, n: real, hi: real)
    requires n > 0.0 && x <= n * hi
    ensures x / n <= hi
  {
    assert n * hi / n == hi;
  }

  datatype StopReason = LooseStop | StrictStop | StandardStop

  /** Minus infinity compares below 0.05; NaN compares false both ways. */
  function StopLossReasoning(rate: Quotient): StopReason
  {
    if rate.Finite? && rate.value > 0.15 then LooseStop
    else if rate == NegInfinity || (rate.Finite? && rate.value < 0.05) then StrictStop
    else StandardStop
  }

  /** At a positive price the stop-loss rate is at most 10%, so the loose
    * advice (for rates above 15%) is never given. */
  lemma StopLossRateBound(price: real, support: Option<real>)
    requires price > 0.0
    ensures StopLossRate(price, support).value <= 0.1
    ensures StopLossReasoning(StopLossRate(price, support)) != LooseStop
  {
    var s := StopLossPrice(price, support);
    QuotientAtMost(price - s, price, 0.1);
  }

  /** `max(0.05, min(0.2, 0.1 + (0.1·draw − 0.05)))`. */
  function RiskAdjustedWeight(draw: real): (w: real)
    ensures 0.05 <= w <= 0.2
  {
    Max(0.05, Min(0.2, 0.1 + (draw * 0.1 - 0.05)))
  }

  datatype SizingReason = IncreaseWeight | DecreaseWeight | KeepWeight

  function SizingReasoning(w: real): SizingReason
  {
    if w > 0.15 then IncreaseWeight else if w < 0.08 then DecreaseWeight else KeepWeight
  }

  /** For draws in [0, 1) the weight lies in [0.05, 0.15), so the clamp
    * never binds, the increase advice is never given, and the decrease
    * advice is given exactly for draws below 0.3. */
  lemma RiskAdjustedWeightRange(draw: real)
    requires 0.0 <= draw < 1.0
    ensures RiskAdjustedWeight(draw) == 0.05 + draw * 0.1
    ensures SizingReasoning(RiskAdjustedWeight(draw)) != IncreaseWeight
    ensures SizingReasoning(RiskAdjustedWeight(draw)) == DecreaseWeight <==> draw < 0.3
  {
  }

  datatype StopLossSuggestion = StopLossSuggestion(
    stockCode: string, stockName: string, currentPrice: real, stopLossPrice: real, rate: Quotient, reason: StopReason)

  function StopLossFor(p: Position, support: Option<real>): (r: StopLossSuggestion)
    ensures r.stopLossPrice >= 0.9 * p.currentPrice
    ensures r.rate.Finite? <==> p.currentPrice != 0.0
    ensures p.currentPrice == 0.0 && support.Some? && support.value > 0.0 ==> r.rate == NegInfinity && r.reason == StrictStop
    ensures p.currentPrice == 0.0 && !(support.Some? && support.value > 0.0) ==> r.rate == NotANumber && r.reason == StandardStop
  {
    var rate := StopLossRate(p.currentPrice, support);
    StopLossSuggestion(p.stockCode, p.stockName, p.currentPrice, StopLossPrice(p.currentPrice, support), rate, StopLossReasoning(rate))
  }

  /** A held stock with a positive price never gets the loose-stop advice. */
  lemma StopLossForBound(p: Position, support: Option<real>)
    requires p.currentPrice > 0.0
    ensures StopLossFor(p, support).rate.value <= 0.1
    ensures StopLossFor(p, support).reason != LooseStop
  {
    StopLossRateBound(p.currentPrice, support);
  }

  /** One suggestion per position, given each position's technical support. */
  method CalculateStopLoss(positions: seq<Position>, supports: seq<Option<real>>) returns (r: seq<StopLossSuggestion>)
    requires |supports| == |positions|
    ensures |r| == |positions|
    ensures forall i :: 0 <= i < |positions| ==> r[i] == StopLossFor(positions[i], supports[i])
  {
    r := [];
    var i := 0;
    while i < |positions|
      invariant 0 <= i <= |positions|
      invariant |r| == i
      invariant forall k :: 0 <= k < i ==> r[k] == StopLossFor(positions[k], supports[k])
    {
      var p := positions[i];
      var stop := StopLossPrice(p.currentPrice, supports[i]);
      var rate := if p.currentPrice != 0.0 then Finite((p.currentPrice - stop) / p.currentPrice)
                  else if stop > 0.0 then NegInfinity else NotANumber;
      r := r + [StopLossSuggestion(p.stockCode, p.stockName, p.currentPrice, stop, rate, StopLossReasoning(rate))];
      i := i + 1;
    }
  }

  /** Weights in percent; the current weight and the adjustment are NaN
    * (`None`) when the portfolio value is zero. */
  datatype PositionSizing = PositionSizing(
    stockCode: string, stockName: string, currentWeight: Option<real>, recommendedWeight: real,
    adjustment: Option<real>, reason: SizingReason)

  function SizingFor(p: Position, total: real, draw: real): (r: PositionSizing)
    ensures 5.0 <= r.recommendedWeight <= 20.0
    ensures r.currentWeight.Some? <==> total != 0.0
    ensures r.adjustment.Some? <==> total != 0.0
    ensures r.currentWeight.Some? ==> r.adjustment == Some(r.recommendedWeight - r.currentWeight.value)
  {
    var w := RiskAdjustedWeight(draw);
    var current := if total == 0.0 then None else Some(p.marketValue / total);
    PositionSizing(p.stockCode, p.stockName,
      if current.Some? then Some(current.value * 100.0) else None,
      w * 100.0,
      if current.Some? then Some((w - current.value) * 100.0) else None,
      SizingReasoning(w))
  }

  /** One sizing entry per position, weighted against the total market
    * value; `draws` stand in for the random weight adjustments. */
  method CalculatePositionSizing(positions: seq<Position>, draws: seq<real>) returns (r: seq<PositionSizing>)
    requires |draws| == |positions|
    ensures |r| == |positions|
    ensures forall i :: 0 <= i < |positions| ==> r[i] == SizingFor(positions[i], Value(positions), draws[i])
  {
    var totalValue := Value(positions);
    r := [];
    var i := 0;
    while i < |positions|
      invariant 0 <= i <= |positions|
      invariant |r| == i
      invariant forall k :: 0 <= k < i ==> r[k] == SizingFor(positions[k], totalValue, draws[k])
    {
      r := r + [SizingFor(positions[i], totalValue, draws[i])];
      i := i + 1;
    }
  }

  function CurrentWeights(ps: seq<Position>, total: real): (r: seq<real>)
    requires total != 0.0
    ensures |r| == |ps|
  {
    if |ps| == 0 then [] else CurrentWeights(ps[..|ps| - 1], total) + [ps[|ps| - 1].marketValue / total * 100.0]
  }

  lemma {:induction false} CurrentWeightsScale(ps: seq<Position>, total: real)
    requires total != 0.0
    ensures Sum(CurrentWeights(ps, total)) == Value(ps) / total * 100.0
  {
    if |ps| > 0 {
      var init := ps[..|ps| - 1];
      var v := ps[|ps| - 1].marketValue;
      CurrentWeightsScale(init, total);
      SumAppend(CurrentWeights(init, total), v / total * 100.0);
      AddQuotients(Value(init), v, total);
    }
  }

  /** With a non-zero portfolio value the current weights add up to 100%. */
  lemma CurrentWeightsSum(ps: seq<Position>)
    requires Value(ps) != 0.0
    ensures Sum(CurrentWeights(ps, Value(ps))) == 100.0
    ensures forall i :: 0 <= i < |ps| ==> CurrentWeights(ps, Value(ps))[i] == SizingFor(ps[i], Value(ps), 0.0).currentWeight.value
  {
    CurrentWeightsScale(ps, Value(ps));
    SelfQuotient(Value(ps));
    CurrentWeightsAt(ps, Value(ps));
  }

  lemma {:induction false} CurrentWeightsAt(ps: seq<Position>, total: real)
    requires total != 0.0
    ensures forall i :: 0 <= i < |ps| ==> CurrentWeights(ps, total)[i] == ps[i].marketValue / total * 100.0
  {
    if |ps| > 0 {
      CurrentWeightsAt(ps[..|ps| - 1], total);
    }
  }

  /** Fixed systematic risk 0.15, VaR 5% and CVaR 7% at 95% confidence;
    * `totalRisk` (a square root) and the drawdown draw are given. */
  function PortfolioRiskOf(totalRisk: real, drawdownDraw: real): (r: PortfolioRisk)
    ensures r.systematicRisk + r.unsystematicRisk == r.totalRisk
    ensures 0.0 <= drawdownDraw < 1.0 ==> 0.0 <= r.maxDrawdown < 0.3
  {
    PortfolioRisk(totalRisk, 0.15, totalRisk - 0.15, drawdownDraw * 0.3, 0.05 * 0.95, 0.07 * 0.95)
  }

  // ---------------------------------------------------------------------
  // Alerts

  function PositionAlerts(risks: seq<PositionRisk>): seq<Alert>
  {
    if |risks| == 0 then []
    else
      var r := risks[|risks| - 1];
      PositionAlerts(risks[..|risks| - 1]) + (if r.level == High then [Alert(PositionAlert, AlertHigh, Some(r.stockName))] else [])
  }

  function SectorAlerts(risks: seq<SectorRisk>): seq<Alert>
  {
    if |risks| == 0 then []
    else
      var r := risks[|risks| - 1];
      SectorAlerts(risks[..|risks| - 1])
      + (if r.concentration.Some? && r.concentration.value > 0.4 then [Alert(PortfolioAlert, AlertMedium, Some(r.sector))] else [])
  }

  function PortfolioLevelAlerts(p: PortfolioRisk): seq<Alert>
  {
    (if p.totalRisk > 0.3 then [Alert(PortfolioAlert, AlertHigh, None)] else [])
    + (if p.maxDrawdown > 0.2 then [Alert(PortfolioAlert, AlertCritical, None)] else [])
  }

  function MarketAlerts(r: MarketRisk): seq<Alert>
  {
    if r.volatility > 0.25 then [Alert(MarketAlert, AlertHigh, None)] else []
  }

  /** The alert list in push order: portfolio risk above 0.3, drawdown above
    * 0.2 (critical), each high-risk position, each sector above 0.4, and
    * market volatility above 0.25. */
  function AlertsFor(m: RiskMetrics): seq<Alert>
  {
    PortfolioLevelAlerts(m.portfolio) + PositionAlerts(m.positions) + SectorAlerts(m.sectors) + MarketAlerts(m.market)
  }

  function CountHigh(risks: seq<PositionRisk>): (n: nat)
    ensures n <= |risks|
  {
    if |risks| == 0 then 0 else CountHigh(risks[..|risks| - 1]) + (if risks[|risks| - 1].level == High then 1 else 0)
  }

  /** One position alert per high-risk position, none for the others. */
  lemma {:induction false} PositionAlertsCount(risks: seq<PositionRisk>)
    ensures |PositionAlerts(risks)| == CountHigh(risks)
    ensures forall a :: a in PositionAlerts(risks) ==> a.kind == PositionAlert && a.level == AlertHigh
  {
    if |risks| > 0 {
      PositionAlertsCount(risks[..|risks| - 1]);
    }
  }

  /** Only a drawdown above 20% raises a critical alert. */
  lemma CriticalIffDrawdown(m: RiskMetrics)
    ensures (exists i :: 0 <= i < |AlertsFor(m)| && AlertsFor(m)[i].level == AlertCritical) <==> m.portfolio.maxDrawdown > 0.2
  {
    var head := PortfolioLevelAlerts(m.portfolio);
    var tail := MarketAlerts(m.market);
    PositionAlertsCount(m.positions);
    SectorAlertsLevel(m.sectors);
    var all := AlertsFor(m);
    assert all == head + PositionAlerts(m.positions) + SectorAlerts(m.sectors) + tail;
    if m.portfolio.maxDrawdown > 0.2 {
      assert all[|head| - 1].level == AlertCritical;
    }
    forall i | 0 <= i < |all| && all[i].level == AlertCritical
      ensures m.portfolio.maxDrawdown > 0.2
    {
      if i >= |head| {
        assert false;
      } else {
        assert all[i] == head[i];
      }
    }
  }

  lemma {:induction false} SectorAlertsLevel(risks: seq<SectorRisk>)
    ensures forall a :: a in SectorAlerts(risks) ==> a.level == AlertMedium
  {
    if |risks| > 0 {
      SectorAlertsLevel(risks[..|risks| - 1]);
    }
  }

  /** Pushes an alert for each high-risk position, in order. */
  method PushPositionAlerts(alerts: seq<Alert>, positions: seq<PositionRisk>) returns (r: seq<Alert>)
    ensures r == alerts + PositionAlerts(positions)
  {
    r := alerts;
    var i := 0;
    while i < |positions|
      invariant 0 <= i <= |positions|
      invariant r == alerts + PositionAlerts(positions[..i])
    {
      assert positions[..i + 1][..i] == positions[..i];
      if positions[i].level == High {
        r := r + [Alert(PositionAlert, AlertHigh, Some(positions[i].stockName))];
      }
      i := i + 1;
    }
    assert positions[..|positions|] == positions;
  }

  /** Pushes an alert for each sector above 0.4, in order. */
  method PushSectorAlerts(alerts: seq<Alert>, sectors: seq<SectorRisk>) returns (r: seq<Alert>)
    ensures r == alerts + SectorAlerts(sectors)
  {
    r := alerts;
    var j := 0;
    while j < |sectors|
      invariant 0 <= j <= |sectors|
      invariant r == alerts + SectorAlerts(sectors[..j])
    {
      assert sectors[..j + 1][..j] == sectors[..j];
      var s := sectors[j];
      if s.concentration.Some? && s.concentration.value > 0.4 {
        r := r + [Alert(PortfolioAlert, AlertMedium, Some(s.sector))];
      }
      j := j + 1;
    }
    assert sectors[..|sectors|] == sectors;
  }

  method GenerateRiskAlerts(m: RiskMetrics) returns (alerts: seq<Alert>)
    ensures alerts == AlertsFor(m)
  {
    alerts := [];
    if m.portfolio.totalRisk > 0.3 {
      alerts := alerts + [Alert(PortfolioAlert, AlertHigh, None)];
    }
    if m.portfolio.maxDrawdown > 0.2 {
      alerts := alerts + [Alert(PortfolioAlert, AlertCritical, None)];
    }
    assert alerts == PortfolioLevelAlerts(m.portfolio);
    alerts := PushPositionAlerts(alerts, m.positions);
    alerts := PushSectorAlerts(alerts, m.sectors);
    if m.market.volatility > 0.25 {
      alerts := alerts + [Alert(MarketAlert, AlertHigh, None)];
    }
  }
}
