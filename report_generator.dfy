// Report building blocks: the portfolio overview and real-time P&L, the
// capped news list, intraday alerts, the daily performance summary (which
// sorts the positions in place), the portfolio diagnosis and the operation
// advice.

module ReportGenerator {
  import opened Util
  import Sorting

  /** A stored position row. */
  datatype Holding = Holding(stockCode: string, stockName: string, marketValue: real, profitLoss: real, profitLossRate: real)

  datatype PositionLine = PositionLine(code: string, name: string, marketValue: real, profitLoss: real, profitLossRate: real)
  datatype Overview = Overview(count: nat, totalMarketValue: real, totalProfitLoss: real, totalProfitLossRate: real, positions: seq<PositionLine>)
  /** A line of the real-time P&L: the overview line without the market value. */
  datatype PnlLine = PnlLine(code: string, name: string, profitLoss: real, profitLossRate: real)
  datatype Pnl = Pnl(totalProfitLoss: real, totalProfitLossRate: real, positions: seq<PnlLine>)

  function MarketValues(ps: seq<Holding>): (r: seq<real>)
    ensures |r| == |ps|
  {
    if |ps| == 0 then [] else MarketValues(ps[..|ps| - 1]) + [ps[|ps| - 1].marketValue]
  }

  function ProfitLosses(ps: seq<Holding>): (r: seq<real>)
    ensures |r| == |ps|
  {
    if |ps| == 0 then [] else ProfitLosses(ps[..|ps| - 1]) + [ps[|ps| - 1].profitLoss]
  }

  function Line(p: Holding): PositionLine
  {
    PositionLine(p.stockCode, p.stockName, p.marketValue, p.profitLoss, p.profitLossRate)
  }

  function Lines(ps: seq<Holding>): (r: seq<PositionLine>)
    ensures |r| == |ps|
  {
    if |ps| == 0 then [] else Lines(ps[..|ps| - 1]) + [Line(ps[|ps| - 1])]
  }

  /** P/L as a percentage of the market value, 0 unless the value is positive. */
  function ProfitRate(profitLoss: real, marketValue: real): (r: real)
    ensures marketValue > 0.0 ==> r * marketValue == profitLoss * 100.0
    ensures marketValue <= 0.0 ==> r == 0.0
    ensures marketValue > 0.0 ==> (r > 0.0 <==> profitLoss > 0.0)
  {
    if marketValue > 0.0 then profitLoss / marketValue * 100.0 else 0.0
  }

  function PortfolioOverview(ps: seq<Holding>): (o: Overview)
    ensures o.count == |ps| && |o.positions| == |ps|
    ensures o.totalMarketValue == Sum(MarketValues(ps)) && o.totalProfitLoss == Sum(ProfitLosses(ps))
    ensures o.totalProfitLossRate == ProfitRate(o.totalProfitLoss, o.totalMarketValue)
  {
    var value := Sum(MarketValues(ps));
    var pl := Sum(ProfitLosses(ps));
    Overview(|ps|, value, pl, if value > 0.0 then pl / value * 100.0 else 0.0, Lines(ps))
  }

  /** The lines follow the positions one to one, in order. */
  lemma {:induction false} LinesAt(ps: seq<Holding>)
    ensures forall i :: 0 <= i < |ps| ==> Lines(ps)[i] == Line(ps[i])
  {
    if |ps| > 0 {
      LinesAt(ps[..|ps| - 1]);
    }
  }

  /** Totals add up over a split of the position list. */
  lemma {:induction false} TotalsAppend(ps: seq<Holding>, p: Holding)
    ensures Sum(MarketValues(ps + [p])) == Sum(MarketValues(ps)) + p.marketValue
    ensures Sum(ProfitLosses(ps + [p])) == Sum(ProfitLosses(ps)) + p.profitLoss
  {
    assert (ps + [p])[..|ps|] == ps;
    SumAppend(MarketValues(ps), p.marketValue);
    SumAppend(ProfitLosses(ps), p.profitLoss);
  }

  /** The P&L lines, one per position, carrying its code, name, P/L and rate. */
  function PnlLines(ps: seq<Holding>): (r: seq<PnlLine>)
    ensures |r| == |ps|
    ensures forall i :: 0 <= i < |ps| ==>
      r[i] == PnlLine(ps[i].stockCode, ps[i].stockName, ps[i].profitLoss, ps[i].profitLossRate)
  {
    if |ps| == 0 then []
    else
      var p := ps[|ps| - 1];
      PnlLines(ps[..|ps| - 1]) + [PnlLine(p.stockCode, p.stockName, p.profitLoss, p.profitLossRate)]
  }

  function RealtimePnl(ps: seq<Holding>): (r: Pnl)
    ensures |r.positions| == |ps|
    ensures r.totalProfitLoss == Sum(ProfitLosses(ps))
    ensures r.totalProfitLossRate == ProfitRate(r.totalProfitLoss, Sum(MarketValues(ps)))
    ensures forall i :: 0 <= i < |ps| ==>
      r.positions[i] == PnlLine(ps[i].stockCode, ps[i].stockName, ps[i].profitLoss, ps[i].profitLossRate)
  {
    var pl := Sum(ProfitLosses(ps));
    var value := Sum(MarketValues(ps));
    Pnl(pl, if value > 0.0 then pl / value * 100.0 else 0.0, PnlLines(ps))
  }

  /** An overview line with its market value dropped. */
  function WithoutValue(l: PositionLine): PnlLine
  {
    PnlLine(l.code, l.name, l.profitLoss, l.profitLossRate)
  }

  /** The real-time P&L reports the overview's totals and rate, and each of
    * its lines is the overview's line for the same position without the
    * market value. */
  lemma PnlAgreesWithOverview(ps: seq<Holding>)
    ensures RealtimePnl(ps).totalProfitLoss == PortfolioOverview(ps).totalProfitLoss
    ensures RealtimePnl(ps).totalProfitLossRate == PortfolioOverview(ps).totalProfitLossRate
    ensures |RealtimePnl(ps).positions| == |PortfolioOverview(ps).positions|
    ensures forall i :: 0 <= i < |ps| ==>
      RealtimePnl(ps).positions[i] == WithoutValue(PortfolioOverview(ps).positions[i])
  {
    LinesAt(ps);
  }

  // ---------------------------------------------------------------------
  // News

  datatype NewsItem = NewsItem(title: string, content: string)

  predicate AboutHolding(n: NewsItem, p: Holding)
  {
    Includes(n.title, p.stockName) || Includes(n.content, p.stockCode)
  }

  function NewsAbout(feed: seq<NewsItem>, p: Holding): (r: seq<NewsItem>)
    ensures |r| <= |feed|
  {
    if |feed| == 0 then []
    else NewsAbout(feed[..|feed| - 1], p) + (if AboutHolding(feed[|feed| - 1], p) then [feed[|feed| - 1]] else [])
  }

  /** Every position's matching news from its own fetch of the feed, then
    * the policy news, in that order. */
  function CollectedNews(ps: seq<Holding>, feeds: seq<seq<NewsItem>>): seq<NewsItem>
    requires |feeds| == |ps|
  {
    if |ps| == 0 then [] else CollectedNews(ps[..|ps| - 1], feeds[..|ps| - 1]) + NewsAbout(feeds[|ps| - 1], ps[|ps| - 1])
  }

  /** `feeds[i]` is the news feed fetched for position `i`. */
  method GetImportantNews(ps: seq<Holding>, feeds: seq<seq<NewsItem>>, policy: seq<NewsItem>) returns (news: seq<NewsItem>)
    requires |feeds| == |ps|
    ensures news == Take(CollectedNews(ps, feeds) + policy, 10)
    ensures |news| <= 10
  {
    var all: seq<NewsItem> := [];
    var i := 0;
    while i < |ps|
      invariant 0 <= i <= |ps|
      invariant all == CollectedNews(ps[..i], feeds[..i])
    {
      assert ps[..i + 1][..i] == ps[..i] && feeds[..i + 1][..i] == feeds[..i];
      all := all + NewsAbout(feeds[i], ps[i]);
      i := i + 1;
    }
    assert ps[..|ps|] == ps && feeds[..|feeds|] == feeds;
    all := all + policy;
    news := if |all| <= 10 then all else all[..10];
  }

  /** With at least ten items collected the list is exactly the first ten;
    * otherwise nothing is dropped. */
  lemma ImportantNewsCap(collected: seq<NewsItem>)
    ensures |collected| >= 10 ==> |Take(collected, 10)| == 10
    ensures |collected| < 10 ==> Take(collected, 10) == collected
    ensures forall i :: 0 <= i < |Take(collected, 10)| ==> Take(collected, 10)[i] == collected[i]
  {
  }

  // ---------------------------------------------------------------------
  // Intraday alerts

  datatype AlertType = PriceChange | TechnicalSignal
  datatype IntradayAlert = IntradayAlert(kind: AlertType, stockCode: string, stockName: string, message: Option<string>)

  /** A price alert when the P/L rate moves more than 3% either way, then a
    * signal alert carrying the first technical signal's description. */
  function AlertsForHolding(p: Holding, signals: seq<string>): (r: seq<IntradayAlert>)
    ensures |r| <= 2
    ensures (exists a :: a in r && a.kind == PriceChange) <==> Abs(p.profitLossRate) > 3.0
    ensures (exists a :: a in r && a.kind == TechnicalSignal) <==> |signals| > 0
  {
    var price := if Abs(p.profitLossRate) > 3.0 then [IntradayAlert(PriceChange, p.stockCode, p.stockName, None)] else [];
    var signal := if |signals| > 0 then [IntradayAlert(TechnicalSignal, p.stockCode, p.stockName, Some(signals[0]))] else [];
    assert price + signal == [] || (price + signal)[0] in price + signal;
    price + signal
  }

  function IntradayAlertsFor(ps: seq<Holding>, signals: seq<seq<string>>): (r: seq<IntradayAlert>)
    requires |signals| == |ps|
    ensures |r| <= 2 * |ps|
  {
    if |ps| == 0 then []
    else IntradayAlertsFor(ps[..|ps| - 1], signals[..|ps| - 1]) + AlertsForHolding(ps[|ps| - 1], signals[|ps| - 1])
  }

  /** `signals[i]` lists the descriptions of position `i`'s technical signals. */
  method GetIntradayAlerts(ps: seq<Holding>, signals: seq<seq<string>>) returns (alerts: seq<IntradayAlert>)
    requires |signals| == |ps|
    ensures alerts == IntradayAlertsFor(ps, signals)
    ensures |alerts| <= 2 * |ps|
  {
    alerts := [];
    var i := 0;
    while i < |ps|
      invariant 0 <= i <= |ps|
      invariant alerts == IntradayAlertsFor(ps[..i], signals[..i])
    {
      assert ps[..i + 1][..i] == ps[..i] && signals[..i + 1][..i] == signals[..i];
      var p := ps[i];
      if Abs(p.profitLossRate) > 3.0 {
        alerts := alerts + [IntradayAlert(PriceChange, p.stockCode, p.stockName, None)];
      }
      if |signals[i]| > 0 {
        alerts := alerts + [IntradayAlert(TechnicalSignal, p.stockCode, p.stockName, Some(signals[i][0]))];
      }
      i := i + 1;
    }
    assert ps[..|ps|] == ps && signals[..|signals|] == signals;
  }

  // ---------------------------------------------------------------------
  // Daily performance

  /** Best and worst are `undefined` and the averages NaN (`None`) when
    * there are no positions. */
  datatype Performance = Performance(best: Option<Holding>, worst: Option<Holding>, totalReturn: Option<real>, winRate: Option<real>)

  function Rate(p: Holding): real { p.profitLossRate }

  function Rates(ps: seq<Holding>): (r: seq<real>)
    ensures |r| == |ps|
  {
    if |ps| == 0 then [] else Rates(ps[..|ps| - 1]) + [ps[|ps| - 1].profitLossRate]
  }

  function CountWinners(ps: seq<Holding>): (n: nat)
    ensures n <= |ps|
  {
    if |ps| == 0 then 0 else CountWinners(ps[..|ps| - 1]) + (if ps[|ps| - 1].profitLoss > 0.0 then 1 else 0)
  }

  /** Sorts the positions in place by P/L rate, best first, and reports the
    * first and last, the mean rate and the share of winners in percent. */
  method GetDailyPerformance(positions: array<Holding>) returns (perf: Performance)
    modifies positions
    ensures Sorting.SortedDesc(positions[..], Rate)
    ensures multiset(positions[..]) == multiset(old(positions[..]))
    ensures positions.Length == 0 ==> perf == Performance(None, None, None, None)
    ensures positions.Length > 0 ==>
      perf.best == Some(positions[0]) && perf.worst == Some(positions[positions.Length - 1])
      && perf.totalReturn == Some(Sum(Rates(positions[..])) / positions.Length as real)
      && perf.winRate == Some(CountWinners(positions[..]) as real / positions.Length as real * 100.0)
  {
    Sorting.SortByKeyDesc(positions, Rate);
    if positions.Length == 0 {
      perf := Performance(None, None, None, None);
    } else {
      var n := positions.Length as real;
      perf := Performance(
        Some(positions[0]), Some(positions[positions.Length - 1]),
        Some(Sum(Rates(positions[..])) / n),
        Some(CountWinners(positions[..]) as real / n * 100.0));
    }
  }

  /** The best performer's rate is at least every rate and the worst one's
    * at most. */
  lemma PerformanceExtremes(sorted: seq<Holding>)
    requires |sorted| > 0 && Sorting.SortedDesc(sorted, Rate)
    ensures forall i :: 0 <= i < |sorted| ==> Rate(sorted[|sorted| - 1]) <= Rate(sorted[i]) <= Rate(sorted[0])
  {
  }

  /** The win rate is a percentage. */
  lemma WinRateRange(ps: seq<Holding>)
    requires |ps| > 0
    ensures 0.0 <= CountWinners(ps) as real / |ps| as real * 100.0 <= 100.0
  {
    PercentRange(CountWinners(ps), |ps|);
  }

  lemma PercentRange(k: nat, n: nat)
    requires 0 < n && k <= n
    ensures 0.0 <= k as real / n as real * 100.0 <= 100.0
  {
    DivideBounds(k as real, n as real, 0.0, 1.0);
    var q := k as real / n as real;
    assert 0.0 <= q * 100.0 <= 100.0;
  }

  // ---------------------------------------------------------------------
  // Diagnosis

  datatype Risk = LowRisk | MediumRisk | HighRisk

  /** Low from 80, medium from 60, high otherwise; a NaN average (no
    * positions) compares false and is high. */
  function DiagnosisRisk(avg: Option<real>): (r: Risk)
    ensures r == LowRisk <==> avg.Some? && avg.value >= 80.0
    ensures r == MediumRisk <==> avg.Some? && 60.0 <= avg.value < 80.0
  {
    if avg.Some? && avg.value >= 80.0 then LowRisk
    else if avg.Some? && avg.value >= 60.0 then MediumRisk
    else HighRisk
  }

  datatype PositionDiagnosis = PositionDiagnosis(code: string, name: string, score: Option<real>, risk: Risk)
  datatype Diagnosis = Diagnosis(overallScore: Option<real>, risk: Risk, positions: seq<PositionDiagnosis>)

  function PositionDiagnoses(ps: seq<Holding>, avg: Option<real>): (r: seq<PositionDiagnosis>)
    ensures |r| == |ps|
    ensures forall i :: 0 <= i < |r| ==> r[i].score == avg && r[i].risk == DiagnosisRisk(avg)
  {
    if |ps| == 0 then []
    else PositionDiagnoses(ps[..|ps| - 1], avg) + [PositionDiagnosis(ps[|ps| - 1].stockCode, ps[|ps| - 1].stockName, avg, DiagnosisRisk(avg))]
  }

  /** `scores[i]` is position `i`'s overall classification score. The
    * average is the running total divided by the count, NaN for none. */
  method GetPortfolioDiagnosis(ps: seq<Holding>, scores: seq<real>) returns (d: Diagnosis)
    requires |scores| == |ps|
    ensures d.overallScore == (if |ps| == 0 then None else Some(Sum(scores) / |ps| as real))
    ensures d.risk == DiagnosisRisk(d.overallScore)
    ensures d.positions == PositionDiagnoses(ps, d.overallScore)
  {
    var totalScore := 0.0;
    var i := 0;
    while i < |ps|
      invariant 0 <= i <= |ps|
      invariant totalScore == Sum(scores[..i])
    {
      assert scores[..i + 1][..i] == scores[..i];
      totalScore := totalScore + scores[i];
      i := i + 1;
    }
    assert scores[..|scores|] == scores;
    var avg := if |ps| == 0 then None else Some(totalScore / |ps| as real);
    d := Diagnosis(avg, DiagnosisRisk(avg), PositionDiagnoses(ps, avg));
  }

  /** Higher scores never raise the diagnosed risk. */
  lemma DiagnosisRiskMonotone(a: real, b: real)
    requires a <= b
    ensures DiagnosisRisk(Some(b)) == HighRisk ==> DiagnosisRisk(Some(a)) == HighRisk
    ensures DiagnosisRisk(Some(a)) == LowRisk ==> DiagnosisRisk(Some(b)) == LowRisk
  {
  }

  // ---------------------------------------------------------------------
  // Operation advice

  datatype Advice = Advice(stockCode: string, stockName: string, recommendations: seq<string>)

  function AdviceFor(ps: seq<Holding>, recs: seq<seq<string>>): (r: seq<Advice>)
    requires |recs| == |ps|
    ensures |r| <= |ps|
    ensures forall a :: a in r ==> |a.recommendations| > 0
  {
    if |ps| == 0 then []
    else
      var p := ps[|ps| - 1];
      AdviceFor(ps[..|ps| - 1], recs[..|ps| - 1])
      + (if |recs[|ps| - 1]| > 0 then [Advice(p.stockCode, p.stockName, recs[|ps| - 1])] else [])
  }

  /** A position with at least one recommendation always gets advice. */
  lemma {:induction false} AdviceComplete(ps: seq<Holding>, recs: seq<seq<string>>, i: int)
    requires |recs| == |ps| && 0 <= i < |ps| && |recs[i]| > 0
    ensures Advice(ps[i].stockCode, ps[i].stockName, recs[i]) in AdviceFor(ps, recs)
  {
    if i < |ps| - 1 {
      AdviceComplete(ps[..|ps| - 1], recs[..|ps| - 1], i);
    }
  }

  /** `recs[i]` are the classification's recommendations for position `i`. */
  method GetOperationAdvice(ps: seq<Holding>, recs: seq<seq<string>>) returns (advice: seq<Advice>)
    requires |recs| == |ps|
    ensures advice == AdviceFor(ps, recs)
  {
    advice := [];
    var i := 0;
    while i < |ps|
      invariant 0 <= i <= |ps|
      invariant advice == AdviceFor(ps[..i], recs[..i])
    {
      assert ps[..i + 1][..i] == ps[..i] && recs[..i + 1][..i] == recs[..i];
      if |recs[i]| > 0 {
        advice := advice + [Advice(ps[i].stockCode, ps[i].stockName, recs[i])];
      }
      i := i + 1;
    }
    assert ps[..|ps|] == ps && recs[..|recs|] == recs;
  }
}
