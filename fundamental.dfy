// Fundamental analysis: valuation, profitability, growth and financial
// health ratios derived from one stored fundamental record, then a weighted
// quality score with an A–D rating and lists of strengths and weaknesses.

module FundamentalAnalysis {
  import opened Util

  datatype Rating = A | B | C | D

  /** One stored fundamental row; `None` is a missing (null) column. */
  datatype FundamentalRecord = FundamentalRecord(
    peRatio: Option<real>, pbRatio: Option<real>, roe: Option<real>,
    revenue: Option<real>, netProfit: Option<real>,
    totalAssets: Option<real>, totalLiabilities: Option<real>)

  /** The values the service draws at random instead of computing them.
    * PEG draws its own profit growth, separate from the reported one. */
  datatype RandomDraws = RandomDraws(
    dividendYield: real, grossMargin: real, operatingMargin: real,
    revenueGrowth: real, profitGrowth: real, pegProfitGrowth: real,
    assetGrowth: real, equityGrowth: real,
    currentRatio: real, quickRatio: real, interestCoverage: real)

  datatype Valuation = Valuation(pe: real, pb: real, ps: real, peg: real, dividendYield: real)
  datatype Profitability = Profitability(roe: real, roa: real, grossMargin: real, netMargin: real, operatingMargin: real)
  datatype Growth = Growth(revenueGrowth: real, profitGrowth: real, assetGrowth: real, equityGrowth: real)
  datatype Financial = Financial(debtRatio: real, currentRatio: real, quickRatio: real, interestCoverage: real)
  datatype Metrics = Metrics(valuation: Valuation, profitability: Profitability, growth: Growth, financial: Financial)
  datatype Quality = Quality(score: int, rating: Rating, strengths: seq<Remark>, weaknesses: seq<Remark>)
  datatype FundamentalReport = FundamentalReport(
    valuation: Valuation, profitability: Profitability, growth: Growth,
    financial: Financial, quality: Quality)

  const AssumedMarketCap: real := 10000000000.0

  /** The strengths and weaknesses the quality assessment can report. */
  datatype Remark =
    | FairValuation | HighValuation | ExcellentRoe | LowRoe
    | StrongRevenueGrowth | FallingRevenue | LowDebt | HighDebt

  /** The text the service reports for each remark. */
  function RemarkText(r: Remark): string
  {
    match r
    case FairValuation => "估值合理"
    case HighValuation => "估值偏高"
    case ExcellentRoe => "ROE优秀"
    case LowRoe => "ROE偏低"
    case StrongRevenueGrowth => "营收增长强劲"
    case FallingRevenue => "营收下滑"
    case LowDebt => "负债率较低"
    case HighDebt => "负债率较高"
  }

  /** JavaScript `value || 0`. */
  function OrZero(v: Option<real>): (r: real)
    ensures v.None? ==> r == 0.0
    ensures v.Some? ==> r == v.value
  {
    if v.Some? then v.value else 0.0
  }

  // ---------------------------------------------------------------------
  // Guarded ratio helpers

  /** Price-to-sales against an assumed market cap of 1e10; 0 without revenue. */
  function PriceToSales(f: FundamentalRecord): (ps: real)
    ensures OrZero(f.revenue) <= 0.0 ==> ps == 0.0
    ensures OrZero(f.revenue) > 0.0 ==> ps > 0.0 && ps * OrZero(f.revenue) == AssumedMarketCap
  {
    var revenue := OrZero(f.revenue);
    if revenue > 0.0 then AssumedMarketCap / revenue else 0.0
  }

  /** PE over profit growth; 0 unless profit growth is positive. */
  function PriceEarningsToGrowth(f: FundamentalRecord, profitGrowth: real): (peg: real)
    ensures profitGrowth <= 0.0 ==> peg == 0.0
    ensures profitGrowth > 0.0 ==> peg * profitGrowth == OrZero(f.peRatio)
  {
    var pe := OrZero(f.peRatio);
    if profitGrowth > 0.0 then pe / profitGrowth else 0.0
  }

  /** Net profit as a percentage of total assets; 0 without assets. */
  function ReturnOnAssets(f: FundamentalRecord): (roa: real)
    ensures OrZero(f.totalAssets) <= 0.0 ==> roa == 0.0
    ensures OrZero(f.totalAssets) > 0.0 ==> roa * OrZero(f.totalAssets) == OrZero(f.netProfit) * 100.0
  {
    var assets := OrZero(f.totalAssets);
    if assets > 0.0 then OrZero(f.netProfit) / assets * 100.0 else 0.0
  }

  /** Net profit as a percentage of revenue; 0 without revenue. */
  function NetMargin(f: FundamentalRecord): (margin: real)
    ensures OrZero(f.revenue) <= 0.0 ==> margin == 0.0
    ensures OrZero(f.revenue) > 0.0 ==> margin * OrZero(f.revenue) == OrZero(f.netProfit) * 100.0
  {
    var revenue := OrZero(f.revenue);
    if revenue > 0.0 then OrZero(f.netProfit) / revenue * 100.0 else 0.0
  }

  /** Liabilities as a percentage of assets; 0 without assets. */
  function DebtRatio(f: FundamentalRecord): (ratio: real)
    ensures OrZero(f.totalAssets) <= 0.0 ==> ratio == 0.0
    ensures OrZero(f.totalAssets) > 0.0 ==> ratio * OrZero(f.totalAssets) == OrZero(f.totalLiabilities) * 100.0
  {
    var assets := OrZero(f.totalAssets);
    if assets > 0.0 then OrZero(f.totalLiabilities) / assets * 100.0 else 0.0
  }

  /** All four metric groups of one record. */
  function CalculateMetrics(f: FundamentalRecord, draws: RandomDraws): (m: Metrics)
    ensures m.valuation.pe == OrZero(f.peRatio) && m.valuation.pb == OrZero(f.pbRatio)
    ensures m.valuation.ps == PriceToSales(f) && m.valuation.peg == PriceEarningsToGrowth(f, draws.pegProfitGrowth)
    ensures m.profitability.roe == OrZero(f.roe) && m.profitability.roa == ReturnOnAssets(f)
    ensures m.profitability.netMargin == NetMargin(f) && m.financial.debtRatio == DebtRatio(f)
    ensures m.growth == Growth(draws.revenueGrowth, draws.profitGrowth, draws.assetGrowth, draws.equityGrowth)
  {
    Metrics(
      Valuation(OrZero(f.peRatio), OrZero(f.pbRatio), PriceToSales(f),
                PriceEarningsToGrowth(f, draws.pegProfitGrowth), draws.dividendYield),
      Profitability(OrZero(f.roe), ReturnOnAssets(f), draws.grossMargin, NetMargin(f), draws.operatingMargin),
      Growth(draws.revenueGrowth, draws.profitGrowth, draws.assetGrowth, draws.equityGrowth),
      Financial(DebtRatio(f), draws.currentRatio, draws.quickRatio, draws.interestCoverage))
  }

  // ---------------------------------------------------------------------
  // Step scores

  predicate IsStep(s: real)
  {
    s == 100.0 || s == 90.0 || s == 80.0 || s == 60.0 || s == 40.0
  }

  function ScorePE(pe: real): (s: real)
    ensures pe <= 0.0 <==> s == 0.0
    ensures pe > 0.0 ==> IsStep(s)
  {
    if pe <= 0.0 then 0.0
    else if pe <= 10.0 then 100.0
    else if pe <= 15.0 then 90.0
    else if pe <= 20.0 then 80.0
    else if pe <= 30.0 then 60.0
    else 40.0
  }

  function ScorePB(pb: real): (s: real)
    ensures pb <= 0.0 <==> s == 0.0
    ensures pb > 0.0 ==> IsStep(s)
  {
    if pb <= 0.0 then 0.0
    else if pb <= 1.0 then 100.0
    else if pb <= 2.0 then 90.0
    else if pb <= 3.0 then 80.0
    else if pb <= 5.0 then 60.0
    else 40.0
  }

  function ScoreROE(roe: real): (s: real)
    ensures IsStep(s)
    ensures s == 100.0 <==> roe >= 20.0
    ensures s == 40.0 <==> roe < 5.0
  {
    if roe >= 20.0 then 100.0
    else if roe >= 15.0 then 90.0
    else if roe >= 10.0 then 80.0
    else if roe >= 5.0 then 60.0
    else 40.0
  }

  function ScoreMargin(margin: real): (s: real)
    ensures IsStep(s)
    ensures s == 100.0 <==> margin >= 20.0
    ensures s == 40.0 <==> margin < 5.0
  {
    if margin >= 20.0 then 100.0
    else if margin >= 15.0 then 90.0
    else if margin >= 10.0 then 80.0
    else if margin >= 5.0 then 60.0
    else 40.0
  }

  /** Scores the mean of revenue and profit growth. */
  function ScoreGrowth(revenueGrowth: real, profitGrowth: real): (s: real)
    ensures IsStep(s)
    ensures s == 100.0 <==> revenueGrowth + profitGrowth >= 60.0
    ensures s == 40.0 <==> revenueGrowth + profitGrowth < 0.0
  {
    var avgGrowth := (revenueGrowth + profitGrowth) / 2.0;
    if avgGrowth >= 30.0 then 100.0
    else if avgGrowth >= 20.0 then 90.0
    else if avgGrowth >= 10.0 then 80.0
    else if avgGrowth >= 0.0 then 60.0
    else 40.0
  }

  function ScoreDebt(debtRatio: real): (s: real)
    ensures IsStep(s)
    ensures s == 100.0 <==> debtRatio <= 20.0
    ensures s == 40.0 <==> debtRatio > 80.0
  {
    if debtRatio <= 20.0 then 100.0
    else if debtRatio <= 40.0 then 90.0
    else if debtRatio <= 60.0 then 80.0
    else if debtRatio <= 80.0 then 60.0
    else 40.0
  }

  function ScoreLiquidity(currentRatio: real): (s: real)
    ensures IsStep(s)
    ensures s == 100.0 <==> currentRatio >= 3.0
    ensures s == 40.0 <==> currentRatio < 1.0
  {
    if currentRatio >= 3.0 then 100.0
    else if currentRatio >= 2.0 then 90.0
    else if currentRatio >= 1.5 then 80.0
    else if currentRatio >= 1.0 then 60.0
    else 40.0
  }

  /** Cheaper valuations never score lower; the higher ratio wins no points. */
  lemma ValuationScoresNonIncreasing(x: real, y: real)
    requires 0.0 < x <= y
    ensures ScorePE(y) <= ScorePE(x) && ScorePB(y) <= ScorePB(x)
  {
  }

  /** Better returns, growth and liquidity never score lower; more debt never
    * scores higher. */
  lemma StepScoresMonotone(x: real, y: real)
    requires x <= y
    ensures ScoreROE(x) <= ScoreROE(y) && ScoreMargin(x) <= ScoreMargin(y)
    ensures ScoreLiquidity(x) <= ScoreLiquidity(y)
    ensures ScoreDebt(y) <= ScoreDebt(x)
    ensures forall p :: ScoreGrowth(x, p) <= ScoreGrowth(y, p)
  {
  }

  // ---------------------------------------------------------------------
  // Quality score and rating

  /** The unrounded weighted composite of the seven step scores. */
  function RawQualityScore(m: Metrics): real
  {
    (ScorePE(m.valuation.pe) + ScorePB(m.valuation.pb)) * 0.25
    + (ScoreROE(m.profitability.roe) + ScoreMargin(m.profitability.netMargin)) * 0.30
    + ScoreGrowth(m.growth.revenueGrowth, m.growth.profitGrowth) * 0.25
    + (ScoreDebt(m.financial.debtRatio) + ScoreLiquidity(m.financial.currentRatio)) * 0.20
  }

  /** The composite is not clamped: it lies in [50, 175] and reaches 175 on
    * the best value of every step score. */
  lemma RawQualityScoreRange(m: Metrics)
    ensures 50.0 <= RawQualityScore(m) <= 175.0
    ensures RawQualityScore(m) == 175.0 <==>
      0.0 < m.valuation.pe <= 10.0 && 0.0 < m.valuation.pb <= 1.0 &&
      m.profitability.roe >= 20.0 && m.profitability.netMargin >= 20.0 &&
      m.growth.revenueGrowth + m.growth.profitGrowth >= 60.0 &&
      m.financial.debtRatio <= 20.0 && m.financial.currentRatio >= 3.0
  {
  }

  /** The reported, rounded score lies in [50, 175]. */
  lemma QualityScoreRange(m: Metrics)
    ensures 50 <= Round(RawQualityScore(m)) <= 175
  {
    RawQualityScoreRange(m);
    RoundWithin(RawQualityScore(m), 50, 175);
  }

  function RatingFor(score: real): Rating
  {
    if score >= 80.0 then A
    else if score >= 60.0 then B
    else if score >= 40.0 then C
    else D
  }

  function RatingRank(r: Rating): nat
  {
    match r
    case A => 3
    case B => 2
    case C => 1
    case D => 0
  }

  /** A higher score never gets a worse rating. */
  lemma RatingMonotone(s: real, t: real)
    requires s <= t
    ensures RatingRank(RatingFor(s)) <= RatingRank(RatingFor(t))
  {
  }

  /** Because every composite is at least 50, no stock is ever rated D. */
  lemma NeverRatedD(m: Metrics)
    ensures RatingFor(RawQualityScore(m)) != D
  {
    RawQualityScoreRange(m);
  }

  function If(c: bool, r: Remark): seq<Remark> { if c then [r] else [] }

  /** The strengths of the four checked metrics, in the order checked. */
  function Strengths(m: Metrics): seq<Remark>
  {
    If(0.0 < m.valuation.pe < 15.0, FairValuation) + If(m.profitability.roe > 15.0, ExcellentRoe)
    + If(m.growth.revenueGrowth > 20.0, StrongRevenueGrowth) + If(m.financial.debtRatio < 30.0, LowDebt)
  }

  /** The weaknesses, each checked only when its metric earned no strength. */
  function Weaknesses(m: Metrics): seq<Remark>
  {
    If(!(0.0 < m.valuation.pe < 15.0) && m.valuation.pe > 30.0, HighValuation)
    + If(!(m.profitability.roe > 15.0) && m.profitability.roe < 5.0, LowRoe)
    + If(!(m.growth.revenueGrowth > 20.0) && m.growth.revenueGrowth < 0.0, FallingRevenue)
    + If(!(m.financial.debtRatio < 30.0) && m.financial.debtRatio > 70.0, HighDebt)
  }

  /** Each strength is reported exactly when its threshold is crossed. */
  lemma StrengthsExact(m: Metrics)
    ensures FairValuation in Strengths(m) <==> 0.0 < m.valuation.pe < 15.0
    ensures ExcellentRoe in Strengths(m) <==> m.profitability.roe > 15.0
    ensures StrongRevenueGrowth in Strengths(m) <==> m.growth.revenueGrowth > 20.0
    ensures LowDebt in Strengths(m) <==> m.financial.debtRatio < 30.0
  {
  }

  /** Each weakness is reported exactly when its threshold is crossed, and a
    * metric never yields both a strength and a weakness. */
  lemma WeaknessesExact(m: Metrics)
    ensures HighValuation in Weaknesses(m) <==> m.valuation.pe > 30.0
    ensures LowRoe in Weaknesses(m) <==> m.profitability.roe < 5.0
    ensures FallingRevenue in Weaknesses(m) <==> m.growth.revenueGrowth < 0.0
    ensures HighDebt in Weaknesses(m) <==> m.financial.debtRatio > 70.0
    ensures |Strengths(m)| + |Weaknesses(m)| <= 4
  {
  }

  /** One metric's remark: the strength when `strong`, else the weakness
    * when `weak`. */
  method Note(strong: bool, weak: bool, good: Remark, bad: Remark, strengths: seq<Remark>, weaknesses: seq<Remark>)
    returns (s: seq<Remark>, w: seq<Remark>)
    ensures s == strengths + If(strong, good) && w == weaknesses + If(!strong && weak, bad)
  {
    s, w := strengths, weaknesses;
    if strong {
      s := s + [good];
    } else if weak {
      w := w + [bad];
    }
  }

  /** The remarks for PE, ROE, revenue growth and debt ratio, at most one
    * per metric, in that order. */
  method Remarks(m: Metrics) returns (strengths: seq<Remark>, weaknesses: seq<Remark>)
    ensures strengths == Strengths(m) && weaknesses == Weaknesses(m)
  {
    strengths, weaknesses := Note(m.valuation.pe > 0.0 && m.valuation.pe < 15.0, m.valuation.pe > 30.0,
                                  FairValuation, HighValuation, [], []);
    assert strengths == If(0.0 < m.valuation.pe < 15.0, FairValuation);
    strengths, weaknesses := Note(m.profitability.roe > 15.0, m.profitability.roe < 5.0,
                                  ExcellentRoe, LowRoe, strengths, weaknesses);
    strengths, weaknesses := Note(m.growth.revenueGrowth > 20.0, m.growth.revenueGrowth < 0.0,
                                  StrongRevenueGrowth, FallingRevenue, strengths, weaknesses);
    strengths, weaknesses := Note(m.financial.debtRatio < 30.0, m.financial.debtRatio > 70.0,
                                  LowDebt, HighDebt, strengths, weaknesses);
  }

  /** Accumulates the score over the four groups, and collects a strength
    * or a weakness for PE, ROE, revenue growth and debt ratio. */
  method CalculateQualityScore(m: Metrics) returns (q: Quality)
    ensures q.score == Round(RawQualityScore(m)) && q.rating == RatingFor(RawQualityScore(m))
    ensures q.strengths == Strengths(m) && q.weaknesses == Weaknesses(m)
  {
    var score := 0.0;
    var peScore := ScorePE(m.valuation.pe);
    var pbScore := ScorePB(m.valuation.pb);
    score := score + (peScore + pbScore) * 0.25;
    var roeScore := ScoreROE(m.profitability.roe);
    var marginScore := ScoreMargin(m.profitability.netMargin);
    score := score + (roeScore + marginScore) * 0.30;
    var growthScore := ScoreGrowth(m.growth.revenueGrowth, m.growth.profitGrowth);
    score := score + growthScore * 0.25;
    var debtScore := ScoreDebt(m.financial.debtRatio);
    var liquidityScore := ScoreLiquidity(m.financial.currentRatio);
    score := score + (debtScore + liquidityScore) * 0.20;
    var strengths, weaknesses := Remarks(m);
    assert score == RawQualityScore(m);
    var rating: Rating;
    if score >= 80.0 {
      rating := A;
    } else if score >= 60.0 {
      rating := B;
    } else if score >= 40.0 {
      rating := C;
    } else {
      rating := D;
    }
    q := Quality(Round(score), rating, strengths, weaknesses);
  }

  /** Fails when no fundamental record exists; otherwise the metrics of the
    * record and their quality assessment. */
  method GetFundamentalAnalysis(record: Option<FundamentalRecord>, draws: RandomDraws)
    returns (r: Result<FundamentalReport>)
    ensures r.Failure? <==> record.None?
    ensures r.Success? ==>
      var m := CalculateMetrics(record.value, draws);
      r.value.valuation == m.valuation && r.value.profitability == m.profitability &&
      r.value.growth == m.growth && r.value.financial == m.financial &&
      r.value.quality.score == Round(RawQualityScore(m)) &&
      r.value.quality.rating == RatingFor(RawQualityScore(m)) &&
      r.value.quality.strengths == Strengths(m) && r.value.quality.weaknesses == Weaknesses(m)
  {
    if record.None? {
      return Failure("基本面数据不足");
    }
    var m := CalculateMetrics(record.value, draws);
    var quality := CalculateQualityScore(m);
    r := Success(FundamentalReport(m.valuation, m.profitability, m.growth, m.financial, quality));
  }
}
