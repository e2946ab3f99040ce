// Sector analysis: the trend label of a sector, the in-place strength
// ranking, hot-sector and rotation filters, and the policy-news impact per
// sector.

module SectorAnalysis {
  import opened Util
  import Sorting

  datatype Trend = Up | Down | Sideways
  datatype NewsImpact = Positive | Negative | Neutral

  /** Industry figures as fetched; `strength` and the other market figures
    * stand for random draws. */
  datatype Sector = Sector(
    name: string, code: string, change: real, changeRate: real,
    pe: real, pb: real, strength: real, trend: Trend)

  datatype PolicyNews = PolicyNews(title: string, impact: NewsImpact, sectors: seq<string>, relevance: real)

  /** `reasons` holds the titles of the relevant news items, in news order. */
  datatype PolicyImpact = PolicyImpact(sector: string, impact: real, reasons: seq<string>)

  /** Up above +2%, down below −2%, sideways otherwise. */
  function TrendOf(changeRate: real): (t: Trend)
    ensures t == Up <==> changeRate > 2.0
    ensures t == Down <==> changeRate < -2.0
    ensures t == Sideways <==> -2.0 <= changeRate <= 2.0
  {
    if changeRate > 2.0 then Up else if changeRate < -2.0 then Down else Sideways
  }

  /** A sector record built from an industry's name, code and change; the
    * trend is derived from the change rate. */
  function SectorFromIndustry(name: string, code: string, change: real, changeRate: real,
                              peDraw: real, pbDraw: real, strengthDraw: real): (s: Sector)
    ensures s.trend == TrendOf(changeRate)
    ensures 0.0 <= strengthDraw < 1.0 ==> 0.0 <= s.strength < 100.0
  {
    Sector(name, code, change, changeRate, peDraw * 50.0 + 10.0, pbDraw * 5.0 + 1.0, strengthDraw * 100.0, TrendOf(changeRate))
  }

  function Strength(s: Sector): real { s.strength }

  /** Sorts the sectors in place, strongest first. */
  method AnalyzeSectorStrength(sectors: array<Sector>)
    modifies sectors
    ensures Sorting.SortedDesc(sectors[..], Strength)
    ensures multiset(sectors[..]) == multiset(old(sectors[..]))
  {
    Sorting.SortByKeyDesc(sectors, Strength);
  }

  // ---------------------------------------------------------------------
  // Filters

  predicate IsHot(s: Sector)
  {
    s.changeRate > 3.0 || s.strength > 80.0 || s.trend == Up
  }

  /** The hot sectors, in input order. */
  function HotSectors(sectors: seq<Sector>): (r: seq<Sector>)
    ensures |r| <= |sectors|
  {
    if |sectors| == 0 then []
    else HotSectors(sectors[..|sectors| - 1]) + (if IsHot(sectors[|sectors| - 1]) then [sectors[|sectors| - 1]] else [])
  }

  /** A sector is kept iff it is in the input and is hot. */
  lemma {:induction false} HotSectorsExact(sectors: seq<Sector>)
    ensures forall s :: s in HotSectors(sectors) <==> s in sectors && IsHot(s)
  {
    if |sectors| > 0 {
      var init := sectors[..|sectors| - 1];
      HotSectorsExact(init);
      assert sectors == init + [sectors[|sectors| - 1]];
    }
  }

  /** Filtering twice keeps the same sectors. */
  lemma {:induction false} HotSectorsIdempotent(sectors: seq<Sector>)
    ensures HotSectors(HotSectors(sectors)) == HotSectors(sectors)
  {
    if |sectors| > 0 {
      var init := sectors[..|sectors| - 1];
      var last := sectors[|sectors| - 1];
      HotSectorsIdempotent(init);
      if IsHot(last) {
        var r := HotSectors(init) + [last];
        assert r[..|r| - 1] == HotSectors(init);
        assert HotSectors(r) == HotSectors(HotSectors(init)) + [last];
      } else {
        assert HotSectors(sectors) == HotSectors(init);
      }
    }
  }

  /** The sectors with the given trend, in input order. */
  function WithTrend(sectors: seq<Sector>, t: Trend): (r: seq<Sector>)
    ensures |r| <= |sectors|
  {
    if |sectors| == 0 then []
    else WithTrend(sectors[..|sectors| - 1], t) + (if sectors[|sectors| - 1].trend == t then [sectors[|sectors| - 1]] else [])
  }

  datatype Rotation = Rotation(rising: seq<Sector>, falling: seq<Sector>, stable: seq<Sector>)

  function AnalyzeSectorRotation(sectors: seq<Sector>): (r: Rotation)
    ensures forall s :: s in r.rising ==> s.trend == Up
    ensures forall s :: s in r.falling ==> s.trend == Down
    ensures forall s :: s in r.stable ==> s.trend == Sideways
  {
    WithTrendOnly(sectors, Up);
    WithTrendOnly(sectors, Down);
    WithTrendOnly(sectors, Sideways);
    Rotation(WithTrend(sectors, Up), WithTrend(sectors, Down), WithTrend(sectors, Sideways))
  }

  lemma {:induction false} WithTrendOnly(sectors: seq<Sector>, t: Trend)
    ensures forall s :: s in WithTrend(sectors, t) ==> s.trend == t
  {
    if |sectors| > 0 {
      WithTrendOnly(sectors[..|sectors| - 1], t);
    }
  }

  lemma WithTrendStep(sectors: seq<Sector>, t: Trend)
    requires |sectors| > 0
    ensures sectors[|sectors| - 1].trend == t ==>
      multiset(WithTrend(sectors, t)) == multiset(WithTrend(sectors[..|sectors| - 1], t)) + multiset{sectors[|sectors| - 1]}
    ensures sectors[|sectors| - 1].trend != t ==>
      WithTrend(sectors, t) == WithTrend(sectors[..|sectors| - 1], t)
  {
  }

  function TrendCounts(sectors: seq<Sector>): multiset<Sector>
  {
    multiset(WithTrend(sectors, Up)) + multiset(WithTrend(sectors, Down)) + multiset(WithTrend(sectors, Sideways))
  }

  lemma TrendCountsStep(sectors: seq<Sector>)
    requires |sectors| > 0
    ensures TrendCounts(sectors) == TrendCounts(sectors[..|sectors| - 1]) + multiset{sectors[|sectors| - 1]}
  {
    WithTrendStep(sectors, Up);
    WithTrendStep(sectors, Down);
    WithTrendStep(sectors, Sideways);
  }

  /** The three lists are disjoint (by trend) and together hold every
    * input sector exactly as often as the input does. */
  lemma {:induction false} RotationPartition(sectors: seq<Sector>)
    ensures TrendCounts(sectors) == multiset(sectors)
  {
    if |sectors| > 0 {
      var init := sectors[..|sectors| - 1];
      var last := sectors[|sectors| - 1];
      calc {
        TrendCounts(sectors);
        { TrendCountsStep(sectors); }
        TrendCounts(init) + multiset{last};
        { RotationPartition(init); }
        multiset(init) + multiset{last};
        { MultisetAppend(init, last); assert init + [last] == sectors; }
        multiset(sectors);
      }
    }
  }

  lemma MultisetAppend(s: seq<Sector>, x: Sector)
    ensures multiset(s + [x]) == multiset(s) + multiset{x}
  {
  }

  // ---------------------------------------------------------------------
  // Policy impact

  /** `names.some(s => s.includes(needle))`. */
  predicate AnyContains(names: seq<string>, needle: string)
  {
    |names| > 0 && (Includes(names[0], needle) || AnyContains(names[1..], needle))
  }

  /** A news item concerns a sector when it names it, or names something
    * that contains the sector's name. */
  predicate Relevant(n: PolicyNews, sectorName: string)
  {
    sectorName in n.sectors || AnyContains(n.sectors, sectorName)
  }

  function RelevantNews(news: seq<PolicyNews>, sectorName: string): (r: seq<PolicyNews>)
    ensures |r| <= |news|
  {
    if |news| == 0 then []
    else RelevantNews(news[..|news| - 1], sectorName)
         + (if Relevant(news[|news| - 1], sectorName) then [news[|news| - 1]] else [])
  }

  /** +1, −1 or 0 by the news' sign, weighted by relevance in percent. */
  function Score(n: PolicyNews): (r: real)
    ensures 0.0 <= n.relevance <= 100.0 ==> -1.0 <= r <= 1.0
  {
    var sign := match n.impact
      case Positive => 1.0
      case Negative => -1.0
      case Neutral => 0.0;
    sign * n.relevance / 100.0
  }

  function Scores(news: seq<PolicyNews>): (r: seq<real>)
    ensures |r| == |news|
  {
    if |news| == 0 then [] else Scores(news[..|news| - 1]) + [Score(news[|news| - 1])]
  }

  function Titles(news: seq<PolicyNews>): (r: seq<string>)
    ensures |r| == |news|
  {
    if |news| == 0 then [] else Titles(news[..|news| - 1]) + [news[|news| - 1].title]
  }

  /** The entry for one sector, present iff some news item is relevant. */
  function ImpactFor(news: seq<PolicyNews>, s: Sector): (r: Option<PolicyImpact>)
    ensures r.Some? <==> |RelevantNews(news, s.name)| > 0
  {
    var relevant := RelevantNews(news, s.name);
    if |relevant| == 0 then None
    else Some(PolicyImpact(s.name, Sum(Scores(relevant)) / |relevant| as real, Titles(relevant)))
  }

  /** The entries before sorting, in sector order. */
  function ImpactsFor(news: seq<PolicyNews>, sectors: seq<Sector>): seq<PolicyImpact>
  {
    if |sectors| == 0 then []
    else
      var e := ImpactFor(news, sectors[|sectors| - 1]);
      ImpactsFor(news, sectors[..|sectors| - 1]) + (if e.Some? then [e.value] else [])
  }

  predicate RelevanceInRange(news: seq<PolicyNews>)
  {
    forall i :: 0 <= i < |news| ==> 0.0 <= news[i].relevance <= 100.0
  }

  lemma {:induction false} ScoresInRange(news: seq<PolicyNews>)
    requires RelevanceInRange(news)
    ensures forall i :: 0 <= i < |news| ==> -1.0 <= Scores(news)[i] <= 1.0
  {
    if |news| > 0 {
      ScoresInRange(news[..|news| - 1]);
    }
  }

  lemma {:induction false} RelevantNewsInRange(news: seq<PolicyNews>, name: string)
    requires RelevanceInRange(news)
    ensures RelevanceInRange(RelevantNews(news, name))
  {
    if |news| > 0 {
      RelevantNewsInRange(news[..|news| - 1], name);
    }
  }

  /** With relevances in [0, 100], every impact lies in [−1, 1]. */
  lemma ImpactInRange(news: seq<PolicyNews>, s: Sector)
    requires RelevanceInRange(news)
    requires ImpactFor(news, s).Some?
    ensures -1.0 <= ImpactFor(news, s).value.impact <= 1.0
  {
    var relevant := RelevantNews(news, s.name);
    RelevantNewsInRange(news, s.name);
    ScoresInRange(relevant);
    MeanBounds(Scores(relevant), -1.0, 1.0);
  }

  /** A sector named in a news item always gets an entry. */
  lemma {:induction false} NamedSectorHasImpact(news: seq<PolicyNews>, s: Sector, i: int)
    requires 0 <= i < |news| && s.name in news[i].sectors
    ensures ImpactFor(news, s).Some?
  {
    if i < |news| - 1 {
      NamedSectorHasImpact(news[..|news| - 1], s, i);
    }
  }

  function AbsImpact(p: PolicyImpact): real { Abs(p.impact) }

  /** Collects one entry per sector with relevant news, then sorts them in
    * place by the size of the impact, largest first. */
  method AnalyzePolicyImpact(news: seq<PolicyNews>, sectors: seq<Sector>) returns (impacts: seq<PolicyImpact>)
    ensures multiset(impacts) == multiset(ImpactsFor(news, sectors))
    ensures Sorting.SortedDesc(impacts, AbsImpact)
  {
    var collected: seq<PolicyImpact> := [];
    var i := 0;
    while i < |sectors|
      invariant 0 <= i <= |sectors|
      invariant collected == ImpactsFor(news, sectors[..i])
    {
      assert sectors[..i + 1][..i] == sectors[..i];
      var relevant := RelevantNews(news, sectors[i].name);
      if |relevant| > 0 {
        var avg := Sum(Scores(relevant)) / |relevant| as real;
        collected := collected + [PolicyImpact(sectors[i].name, avg, Titles(relevant))];
      }
      i := i + 1;
    }
    assert sectors[..|sectors|] == sectors;
    var a := new PolicyImpact[|collected|](j requires 0 <= j < |collected| => collected[j]);
    assert a[..] == collected;
    Sorting.SortByKeyDesc(a, AbsImpact);
    impacts := a[..];
  }
}
