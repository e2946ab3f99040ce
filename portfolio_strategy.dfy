// Theme-based portfolio composition: the predefined theme table, theme
// selection, the left/right/mainline member lists of each theme, the data
// support score, the per-theme risk, the allocation by theme type and the
// overall risk control.

module PortfolioStrategy {
  import opened Util
  import SP = SmartPositionRecommendation

  datatype ThemeKind = Offensive | Defensive | Tech | Policy | Trend
  datatype RiskLevel = Low | Medium | High

  /** The ids of the predefined themes. */
  datatype ThemeId = TechAi | Semiconductor | Robotics | NewEnergy | ConsumptionDefensive | Pharmaceutical

  datatype Theme = Theme(id: ThemeId, kind: ThemeKind, riskLevel: RiskLevel, proportion: int)

  /** One stock of a theme list: its share of the list, the recommender's
    * reasoning and the entry condition. */
  datatype Member = Member(stockCode: string, proportion: real, reason: seq<string>, entryPoint: string)
  datatype Allocation = Allocation(leftTotal: int, rightTotal: int, mainlineTotal: int)
  datatype StrategyRisk = StrategyRisk(maxLoss: int, diversification: int, correlation: real, hedging: seq<string>)
  datatype DataSupport = DataSupport(policySupport: seq<string>, trendSupport: seq<string>, dataSupport: seq<string>, score: int)

  datatype ThemeStrategy = ThemeStrategy(
    theme: Theme, left: seq<Member>, right: seq<Member>, mainline: seq<Member>,
    allocation: Allocation, risk: StrategyRisk, support: DataSupport)

  datatype Buckets = Buckets(offensive: int, defensive: int, tech: int, policy: int, trend: int)
  datatype RiskControl = RiskControl(totalRisk: RiskLevel, maxDrawdown: int, adjustments: seq<string>)
  datatype Composition = Composition(
    themes: seq<Theme>, allocation: Buckets, strategies: seq<ThemeStrategy>, riskControl: RiskControl)

  datatype MarketCondition = Bull | Bear | Volatile | Recovery | OtherCondition

  // ---------------------------------------------------------------------
  // Themes

  const Themes: seq<Theme> := [
    Theme(TechAi, Tech, High, 25),
    Theme(Semiconductor, Tech, High, 20),
    Theme(Robotics, Tech, Medium, 15),
    Theme(NewEnergy, Policy, Medium, 20),
    Theme(ConsumptionDefensive, Defensive, Low, 10),
    Theme(Pharmaceutical, Defensive, Medium, 10)
  ]

  function Proportions(themes: seq<Theme>): int
  {
    if |themes| == 0 then 0 else Proportions(themes[..|themes| - 1]) + themes[|themes| - 1].proportion
  }

  /** The six predefined proportions add up to 100 and the ids are distinct. */
  lemma ThemeTable()
    ensures Proportions(Themes) == 100
    ensures forall i, j :: 0 <= i < j < |Themes| ==> Themes[i].id != Themes[j].id
  {
    ProportionsStep(Themes, 0);
    ProportionsStep(Themes, 1);
    ProportionsStep(Themes, 2);
    ProportionsStep(Themes, 3);
    ProportionsStep(Themes, 4);
    ProportionsStep(Themes, 5);
    assert Themes[..6] == Themes;
  }

  lemma ProportionsStep(themes: seq<Theme>, k: nat)
    requires k < |themes|
    ensures Proportions(themes[..k + 1]) == Proportions(themes[..k]) + themes[k].proportion
  {
    assert themes[..k + 1][..k] == themes[..k];
  }

  function FilterThemes(themes: seq<Theme>, ids: seq<ThemeId>): (r: seq<Theme>)
    ensures |r| <= |themes|
  {
    if |themes| == 0 then []
    else FilterThemes(themes[..|themes| - 1], ids)
         + (if themes[|themes| - 1].id in ids then [themes[|themes| - 1]] else [])
  }

  lemma {:induction false} FilterThemesMembers(themes: seq<Theme>, ids: seq<ThemeId>)
    ensures forall t :: t in FilterThemes(themes, ids) <==> t in themes && t.id in ids
  {
    if |themes| > 0 {
      FilterThemesMembers(themes[..|themes| - 1], ids);
      assert themes == themes[..|themes| - 1] + [themes[|themes| - 1]];
    }
  }

  /** Without ids every theme; otherwise the table entries whose id was
    * asked for, in table order (an empty id list selects nothing). */
  function SelectThemes(ids: Option<seq<ThemeId>>): (r: seq<Theme>)
    ensures ids.None? ==> r == Themes
    ensures |r| <= |Themes|
  {
    if ids.None? then Themes else FilterThemes(Themes, ids.value)
  }

  /** A theme is selected iff it is in the table and was asked for. */
  lemma SelectThemesMembers(ids: Option<seq<ThemeId>>)
    ensures forall t :: t in SelectThemes(ids) <==> t in Themes && (ids.None? || t.id in ids.value)
  {
    if ids.Some? {
      FilterThemesMembers(Themes, ids.value);
    }
  }

  /** The market-condition presets. */
  function OptimalThemeIds(c: MarketCondition): seq<ThemeId>
  {
    match c
    case Bull => [TechAi, Semiconductor, Robotics, NewEnergy]
    case Bear => [ConsumptionDefensive, Pharmaceutical]
    case Volatile => [TechAi, ConsumptionDefensive, Pharmaceutical]
    case Recovery => [NewEnergy, TechAi, Pharmaceutical]
    case OtherCondition => [TechAi, Semiconductor, Robotics, NewEnergy, ConsumptionDefensive, Pharmaceutical]
  }

  /** Every preset names table themes only, so each selects as many themes
    * as it names; the selection keeps table order, not preset order. */
  lemma OptimalSelection()
    ensures SelectThemes(Some(OptimalThemeIds(Bull))) == Themes[..4]
    ensures SelectThemes(Some(OptimalThemeIds(Bear))) == Themes[4..]
    ensures SelectThemes(Some(OptimalThemeIds(Recovery))) == [Themes[0], Themes[3], Themes[5]]
  {
    BullSelection();
    BearSelection();
    RecoverySelection();
  }

  lemma FilterStep(themes: seq<Theme>, ids: seq<ThemeId>, k: nat)
    requires k < |themes|
    ensures FilterThemes(themes[..k + 1], ids) == FilterThemes(themes[..k], ids) + Kept(themes[k], ids)
  {
    assert themes[..k + 1][..k] == themes[..k];
  }

  /** The theme as a one-element list when its id was asked for. */
  function Kept(t: Theme, ids: seq<ThemeId>): seq<Theme>
  {
    if t.id in ids then [t] else []
  }

  /** Filtering a six-theme table theme by theme. */
  lemma FilterSix(themes: seq<Theme>, ids: seq<ThemeId>)
    requires |themes| == 6
    ensures FilterThemes(themes, ids)
         == Kept(themes[0], ids) + Kept(themes[1], ids) + Kept(themes[2], ids)
          + Kept(themes[3], ids) + Kept(themes[4], ids) + Kept(themes[5], ids)
  {
    var k0, k1, k2 := Kept(themes[0], ids), Kept(themes[1], ids), Kept(themes[2], ids);
    var k3, k4, k5 := Kept(themes[3], ids), Kept(themes[4], ids), Kept(themes[5], ids);
    FilterStep(themes, ids, 0);
    assert themes[..0] == [];
    assert FilterThemes(themes[..1], ids) == k0;
    FilterStep(themes, ids, 1);
    assert FilterThemes(themes[..2], ids) == k0 + k1;
    FilterStep(themes, ids, 2);
    assert FilterThemes(themes[..3], ids) == k0 + k1 + k2;
    FilterStep(themes, ids, 3);
    assert FilterThemes(themes[..4], ids) == k0 + k1 + k2 + k3;
    FilterStep(themes, ids, 4);
    assert FilterThemes(themes[..5], ids) == k0 + k1 + k2 + k3 + k4;
    FilterStep(themes, ids, 5);
    assert themes[..6] == themes;
  }

  lemma BullSelection()
    ensures SelectThemes(Some(OptimalThemeIds(Bull))) == Themes[..4]
  {
    FilterSix(Themes, OptimalThemeIds(Bull));
  }

  lemma BearSelection()
    ensures SelectThemes(Some(OptimalThemeIds(Bear))) == Themes[4..]
  {
    FilterSix(Themes, OptimalThemeIds(Bear));
  }

  lemma RecoverySelection()
    ensures SelectThemes(Some(OptimalThemeIds(Recovery))) == [Themes[0], Themes[3], Themes[5]]
  {
    FilterSix(Themes, OptimalThemeIds(Recovery));
  }

  // ---------------------------------------------------------------------
  // Stock pools and per-theme lists

  function StockPool(id: ThemeId): seq<string>
  {
    match id
    case TechAi => ["000001", "000002", "600000", "600036", "000858"]
    case Semiconductor => ["600519", "600036", "000858", "002142", "300015"]
    case Robotics => ["000858", "002142", "300015", "000001", "000002"]
    case NewEnergy => ["600519", "600000", "000858", "002142", "300015"]
    case ConsumptionDefensive => ["600519", "000858", "600036", "000001", "000002"]
    case Pharmaceutical => ["002142", "300015", "600519", "000001", "600036"]
  }

  /** The recommendations that succeeded, in pool order; `recommend`
    * stands for the per-stock recommender, `None` for a failed call. */
  function Recommended(pool: seq<string>, recommend: string -> Option<SP.PositionRecommendation>): (r: seq<SP.PositionRecommendation>)
    ensures |r| <= |pool|
  {
    if |pool| == 0 then []
    else
      var last := recommend(pool[|pool| - 1]);
      Recommended(pool[..|pool| - 1], recommend) + (if last.Some? then [last.value] else [])
  }

  method GenerateRecommendationsForPool(pool: seq<string>, recommend: string -> Option<SP.PositionRecommendation>)
    returns (recs: seq<SP.PositionRecommendation>)
    ensures recs == Recommended(pool, recommend)
  {
    recs := [];
    var i := 0;
    while i < |pool|
      invariant 0 <= i <= |pool|
      invariant recs == Recommended(pool[..i], recommend)
    {
      assert pool[..i + 1][..i] == pool[..i];
      var r := recommend(pool[i]);
      if r.Some? {
        recs := recs + [r.value];
      }
      i := i + 1;
    }
    assert pool[..|pool|] == pool;
  }

  function WithPosition(recs: seq<SP.PositionRecommendation>, p: SP.Position): (r: seq<SP.PositionRecommendation>)
    ensures |r| <= |recs|
  {
    if |recs| == 0 then []
    else WithPosition(recs[..|recs| - 1], p)
         + (if recs[|recs| - 1].strategy.position == p then [recs[|recs| - 1]] else [])
  }

  /** The first node's condition of the list that leads to `p`, or the
    * list's fallback text when there is none (or it is empty). */
  function EntryPoint(r: SP.PositionRecommendation, p: SP.Position): string
  {
    var nodes := if p == SP.Left then r.timeNodes.buildLeft
                 else if p == SP.Right then r.timeNodes.upgradeToRight
                 else r.timeNodes.upgradeToMainline;
    var fallback := if p == SP.Left then "当前价位" else if p == SP.Right then "突破确认" else "趋势延续";
    if |nodes| > 0 && nodes[0].condition != "" then nodes[0].condition else fallback
  }

  /** `(1 / n) · 100`, the equal share of one of n members. */
  function Share(n: nat): real
    requires n > 0
  {
    1.0 / n as real * 100.0
  }

  function ToMembers(recs: seq<SP.PositionRecommendation>, n: nat, p: SP.Position): (r: seq<Member>)
    requires n > 0
    ensures |r| == |recs|
    ensures forall i :: 0 <= i < |r| ==> r[i].stockCode == recs[i].stockCode && r[i].proportion == Share(n)
  {
    if |recs| == 0 then []
    else
      var x := recs[|recs| - 1];
      ToMembers(recs[..|recs| - 1], n, p) + [Member(x.stockCode, Share(n), x.strategy.reasoning, EntryPoint(x, p))]
  }

  /** Every recommendation for position `p`, each with an equal share. */
  function Members(recs: seq<SP.PositionRecommendation>, p: SP.Position): seq<Member>
  {
    var f := WithPosition(recs, p);
    if |f| == 0 then [] else ToMembers(f, |f|, p)
  }

  function MemberShares(ms: seq<Member>): (r: seq<real>)
    ensures |r| == |ms| && forall i :: 0 <= i < |ms| ==> r[i] == ms[i].proportion
  {
    if |ms| == 0 then [] else MemberShares(ms[..|ms| - 1]) + [ms[|ms| - 1].proportion]
  }

  lemma {:induction false} WithPositionMembers(recs: seq<SP.PositionRecommendation>, p: SP.Position)
    ensures forall x :: x in WithPosition(recs, p) <==> x in recs && x.strategy.position == p
  {
    if |recs| > 0 {
      WithPositionMembers(recs[..|recs| - 1], p);
      assert recs == recs[..|recs| - 1] + [recs[|recs| - 1]];
    }
  }

  /** One member per matching recommendation, and the shares of a
    * non-empty list add up to 100. */
  lemma MembersShareEqually(recs: seq<SP.PositionRecommendation>, p: SP.Position)
    ensures |Members(recs, p)| == |WithPosition(recs, p)|
    ensures |Members(recs, p)| > 0 ==> Sum(MemberShares(Members(recs, p))) == 100.0
  {
    var f := WithPosition(recs, p);
    if |f| > 0 {
      ToMembersShares(f, |f|, p);
    }
  }

  lemma ToMembersShares(f: seq<SP.PositionRecommendation>, n: nat, p: SP.Position)
    requires n == |f| > 0
    ensures Sum(MemberShares(ToMembers(f, n, p))) == 100.0
  {
    var ms := ToMembers(f, n, p);
    EqualSharesTotal(n);
    SharesConstant(ms, Share(n));
    SumOfShares(ms, Share(n));
  }

  lemma SharesConstant(ms: seq<Member>, c: real)
    requires forall i :: 0 <= i < |ms| ==> ms[i].proportion == c
    ensures forall i :: 0 <= i < |MemberShares(ms)| ==> MemberShares(ms)[i] == c
  {
  }

  lemma SumOfShares(ms: seq<Member>, c: real)
    requires |ms| as real * c == 100.0
    requires forall i :: 0 <= i < |MemberShares(ms)| ==> MemberShares(ms)[i] == c
    ensures Sum(MemberShares(ms)) == 100.0
  {
    var s := MemberShares(ms);
    assert |s| == |ms|;
    SumConstant(s, c);
    assert Sum(s) == |ms| as real * c;
  }

  lemma EqualSharesTotal(n: nat)
    requires n > 0
    ensures n as real * Share(n) == 100.0
  {
    assert n as real * (1.0 / n as real) == 1.0;
  }

  function Truncate<T>(s: seq<T>, k: nat): (r: seq<T>)
    ensures |r| == if |s| <= k then |s| else k
    ensures r == s[..|r|]
  {
    if |s| <= k then s else s[..k]
  }

  /** Zero for every list when no stock was placed, otherwise the fixed
    * 35/45/20 split. */
  function PortfolioAllocation(leftCount: nat, rightCount: nat, mainlineCount: nat): (a: Allocation)
    ensures a == Allocation(0, 0, 0) <==> leftCount + rightCount + mainlineCount == 0
    ensures a.leftTotal + a.rightTotal + a.mainlineTotal == if leftCount + rightCount + mainlineCount == 0 then 0 else 100
  {
    if leftCount + rightCount + mainlineCount == 0 then Allocation(0, 0, 0) else Allocation(35, 45, 20)
  }

  // ---------------------------------------------------------------------
  // Data support and risk

  /** The three themes with two support points of each kind. */
  predicate Flagship(id: ThemeId)
  {
    id == TechAi || id == Semiconductor || id == Robotics
  }

  /** The policy, trend and data support points of a theme. */
  function SupportPoints(id: ThemeId): (seq<string>, seq<string>, seq<string>)
  {
    if id == TechAi then
      (["国家AI战略规划支持", "新质生产力政策导向"], ["全球AI技术加速突破", "AI应用场景不断扩展"], ["AI行业增速30%+", "相关公司业绩持续增长"])
    else if id == Semiconductor then
      (["半导体产业政策支持", "国产替代加速推进"], ["技术能力持续提升", "市场需求旺盛"], ["国产化率不断提升", "龙头企业业绩亮眼"])
    else if id == Robotics then
      (["智能制造政策支持", "机器人产业发展规划"], ["人口红利消失推动需求", "技术成本持续下降"], ["工业机器人销量增长", "国产机器人份额提升"])
    else
      (["政策整体支持"], ["行业发展趋势良好"], ["相关数据支撑"])
  }

  /** The support points of a theme with their score: 67 for the three
    * themes with two points of each kind, 33 for every other theme. */
  function DataSupportFor(id: ThemeId): DataSupport
  {
    var (policy, trend, data) := SupportPoints(id);
    DataSupport(policy, trend, data, if Flagship(id) then 67 else 33)
  }

  /** The weighted count of support points, rounded, is the tabulated score. */
  lemma SupportScores(id: ThemeId)
    ensures var (policy, trend, data) := SupportPoints(id);
      Round((|policy| as real * 0.4 + |trend| as real * 0.35 + |data| as real * 0.25) / 3.0 * 100.0)
      == if Flagship(id) then 67 else 33
  {
  }

  /** Pushes the theme's support points and scores them by
    * round((0.4·policy + 0.35·trend + 0.25·data) / 3 · 100), which gives
    * the tabulated score. */
  method GenerateDataSupport(id: ThemeId) returns (d: DataSupport)
    ensures d == DataSupportFor(id)
  {
    var policy: seq<string> := [];
    var trend: seq<string> := [];
    var data: seq<string> := [];
    if id == TechAi {
      policy := policy + ["国家AI战略规划支持"];
      policy := policy + ["新质生产力政策导向"];
      trend := trend + ["全球AI技术加速突破"];
      trend := trend + ["AI应用场景不断扩展"];
      data := data + ["AI行业增速30%+"];
      data := data + ["相关公司业绩持续增长"];
      assert policy == SupportPoints(id).0 && trend == SupportPoints(id).1 && data == SupportPoints(id).2;
    } else if id == Semiconductor {
      policy := policy + ["半导体产业政策支持"];
      policy := policy + ["国产替代加速推进"];
      trend := trend + ["技术能力持续提升"];
      trend := trend + ["市场需求旺盛"];
      data := data + ["国产化率不断提升"];
      data := data + ["龙头企业业绩亮眼"];
      assert policy == SupportPoints(id).0 && trend == SupportPoints(id).1 && data == SupportPoints(id).2;
    } else if id == Robotics {
      policy := policy + ["智能制造政策支持"];
      policy := policy + ["机器人产业发展规划"];
      trend := trend + ["人口红利消失推动需求"];
      trend := trend + ["技术成本持续下降"];
      data := data + ["工业机器人销量增长"];
      data := data + ["国产机器人份额提升"];
      assert policy == SupportPoints(id).0 && trend == SupportPoints(id).1 && data == SupportPoints(id).2;
    } else {
      policy := policy + ["政策整体支持"];
      trend := trend + ["行业发展趋势良好"];
      data := data + ["相关数据支撑"];
      assert policy == SupportPoints(id).0 && trend == SupportPoints(id).1 && data == SupportPoints(id).2;
    }
    var score := (|policy| as real * 0.4 + |trend| as real * 0.35 + |data| as real * 0.25) / 3.0 * 100.0;
    SupportScores(id);
    d := DataSupport(policy, trend, data, Round(score));
  }

  /** Diversification 80 from three recommendations on, else 25 each;
    * maximum loss 20/15/10 by theme risk; hedging advice only for
    * high-risk themes. */
  function RiskForStrategy(count: nat, level: RiskLevel): (r: StrategyRisk)
    ensures 0 <= r.diversification <= 80
    ensures r.maxLoss > 15 <==> level == High
    ensures |r.hedging| > 0 <==> level == High
  {
    StrategyRisk(
      if level == High then 20 else if level == Medium then 15 else 10,
      if count >= 3 then 80 else count * 25,
      0.6,
      if level == High then ["建议配置10-15%的防御性资产", "考虑配置反向ETF进行对冲"] else [])
  }

  lemma DiversificationMonotone(m: nat, n: nat, level: RiskLevel)
    requires m <= n
    ensures RiskForStrategy(m, level).diversification <= RiskForStrategy(n, level).diversification
  {
  }

  /** The shape of a strategy built for `theme` from its successful
    * recommendations. */
  function StrategyFor(theme: Theme, recs: seq<SP.PositionRecommendation>): ThemeStrategy
  {
    var left := Members(recs, SP.Left);
    var right := Members(recs, SP.Right);
    var mainline := Members(recs, SP.Mainline);
    ThemeStrategy(theme, Truncate(left, 5), Truncate(right, 5), Truncate(mainline, 3),
                  PortfolioAllocation(|left|, |right|, |mainline|),
                  RiskForStrategy(|recs|, theme.riskLevel), DataSupportFor(theme.id))
  }

  /** A strategy keeps at most 5 left, 5 right and 3 mainline members, in
    * recommendation order, and carries the 35/45/20 split iff some stock
    * was placed in one of the three lists. */
  lemma StrategyShape(theme: Theme, recs: seq<SP.PositionRecommendation>)
    ensures |StrategyFor(theme, recs).left| <= 5 && |StrategyFor(theme, recs).right| <= 5
    ensures |StrategyFor(theme, recs).mainline| <= 3
    ensures StrategyFor(theme, recs).left == Members(recs, SP.Left)[..|StrategyFor(theme, recs).left|]
    ensures StrategyFor(theme, recs).allocation == Allocation(35, 45, 20) <==>
      |StrategyFor(theme, recs).left| + |StrategyFor(theme, recs).right| + |StrategyFor(theme, recs).mainline| > 0
  {
  }

  method GenerateStrategyForTheme(theme: Theme, recommend: string -> Option<SP.PositionRecommendation>)
    returns (s: ThemeStrategy)
    ensures s == StrategyFor(theme, Recommended(StockPool(theme.id), recommend))
  {
    var recs := GenerateRecommendationsForPool(StockPool(theme.id), recommend);
    var left := Members(recs, SP.Left);
    var right := Members(recs, SP.Right);
    var mainline := Members(recs, SP.Mainline);
    var support := GenerateDataSupport(theme.id);
    s := ThemeStrategy(theme, Truncate(left, 5), Truncate(right, 5), Truncate(mainline, 3),
                       PortfolioAllocation(|left|, |right|, |mainline|),
                       RiskForStrategy(|recs|, theme.riskLevel), support);
  }

  // ---------------------------------------------------------------------
  // Composition

  function Add(b: Buckets, kind: ThemeKind, x: int): Buckets
  {
    match kind
    case Offensive => b.(offensive := b.offensive + x)
    case Defensive => b.(defensive := b.defensive + x)
    case Tech => b.(tech := b.tech + x)
    case Policy => b.(policy := b.policy + x)
    case Trend => b.(trend := b.trend + x)
  }

  function BucketsOf(strategies: seq<ThemeStrategy>): Buckets
  {
    if |strategies| == 0 then Buckets(0, 0, 0, 0, 0)
    else
      var s := strategies[|strategies| - 1];
      Add(BucketsOf(strategies[..|strategies| - 1]), s.theme.kind, s.theme.proportion)
  }

  function ThemesOf(strategies: seq<ThemeStrategy>): (r: seq<Theme>)
    ensures |r| == |strategies| && forall i :: 0 <= i < |r| ==> r[i] == strategies[i].theme
  {
    if |strategies| == 0 then [] else ThemesOf(strategies[..|strategies| - 1]) + [strategies[|strategies| - 1].theme]
  }

  function Total(b: Buckets): int { b.offensive + b.defensive + b.tech + b.policy + b.trend }

  /** Every proportion lands in exactly one bucket. */
  lemma {:induction false} BucketsAddUp(strategies: seq<ThemeStrategy>)
    ensures Total(BucketsOf(strategies)) == Proportions(ThemesOf(strategies))
  {
    if |strategies| > 0 {
      var prefix := strategies[..|strategies| - 1];
      var s := strategies[|strategies| - 1];
      BucketsAddUp(prefix);
      assert ThemesOf(strategies) == ThemesOf(prefix) + [s.theme];
      assert ThemesOf(strategies)[..|strategies| - 1] == ThemesOf(prefix);
      TotalAdd(BucketsOf(prefix), s.theme.kind, s.theme.proportion);
    }
  }

  lemma TotalAdd(b: Buckets, kind: ThemeKind, x: int)
    ensures Total(Add(b, kind, x)) == Total(b) + x
  {
  }

  /** Adds each strategy's proportion to the bucket of its theme type. */
  method CalculateTotalAllocation(strategies: seq<ThemeStrategy>) returns (b: Buckets)
    ensures b == BucketsOf(strategies)
  {
    b := Buckets(0, 0, 0, 0, 0);
    var i := 0;
    while i < |strategies|
      invariant 0 <= i <= |strategies|
      invariant b == BucketsOf(strategies[..i])
    {
      assert strategies[..i + 1][..i] == strategies[..i];
      var s := strategies[i];
      var kind := s.theme.kind;
      if kind == Offensive {
        b := b.(offensive := b.offensive + s.theme.proportion);
      } else if kind == Defensive {
        b := b.(defensive := b.defensive + s.theme.proportion);
      } else if kind == Tech {
        b := b.(tech := b.tech + s.theme.proportion);
      } else if kind == Policy {
        b := b.(policy := b.policy + s.theme.proportion);
      } else {
        b := b.(trend := b.trend + s.theme.proportion);
      }
      i := i + 1;
    }
    assert strategies[..|strategies|] == strategies;
  }

  function RiskPoints(level: RiskLevel): int
  {
    if level == High then 3 else if level == Medium then 2 else 1
  }

  function RiskPointSum(strategies: seq<ThemeStrategy>): (r: int)
    ensures |strategies| <= r <= 3 * |strategies|
  {
    if |strategies| == 0 then 0
    else RiskPointSum(strategies[..|strategies| - 1]) + RiskPoints(strategies[|strategies| - 1].theme.riskLevel)
  }

  function MaxLoss(strategies: seq<ThemeStrategy>): (r: int)
    ensures r >= 0
  {
    if |strategies| == 0 then 0
    else
      var m := MaxLoss(strategies[..|strategies| - 1]);
      if strategies[|strategies| - 1].risk.maxLoss > m then strategies[|strategies| - 1].risk.maxLoss else m
  }

  /** The drawdown bounds every maximum loss and is one of them (or 0). */
  lemma {:induction false} MaxLossIsMaximum(strategies: seq<ThemeStrategy>)
    ensures forall i :: 0 <= i < |strategies| ==> strategies[i].risk.maxLoss <= MaxLoss(strategies)
    ensures MaxLoss(strategies) == 0 || exists i :: 0 <= i < |strategies| && strategies[i].risk.maxLoss == MaxLoss(strategies)
  {
    if |strategies| > 0 {
      var prefix := strategies[..|strategies| - 1];
      MaxLossIsMaximum(prefix);
      assert forall i :: 0 <= i < |prefix| ==> prefix[i] == strategies[i];
    }
  }

  /** The mean of the 3/2/1 risk points decides the total risk (an empty
    * composition averages to NaN, which is low); the largest maximum loss
    * is the drawdown; high risk and a drawdown over 15 add advice. */
  function OverallRiskControl(strategies: seq<ThemeStrategy>): RiskControl
  {
    var n := |strategies|;
    var avg := if n == 0 then None else Some(RiskPointSum(strategies) as real / n as real);
    var total := if avg.Some? && avg.value >= 2.5 then High
                 else if avg.Some? && avg.value >= 1.5 then Medium
                 else Low;
    var drawdown := MaxLoss(strategies);
    RiskControl(total, drawdown,
      (if total == High then ["风险较高，建议降低高风险主题配置", "增加防御性主题配置至30%+"] else [])
      + (if drawdown > 15 then ["最大回撤超过15%，建议增加对冲"] else []))
  }

  /** For strategies built by the theme builder, the drawdown advice
    * appears iff some theme is high-risk, and a high total risk implies
    * it. */
  lemma DrawdownAdviceIffHighTheme(strategies: seq<ThemeStrategy>, recs: seq<seq<SP.PositionRecommendation>>)
    requires |recs| == |strategies|
    requires forall i :: 0 <= i < |strategies| ==> strategies[i] == StrategyFor(strategies[i].theme, recs[i])
    ensures OverallRiskControl(strategies).maxDrawdown > 15 <==> exists i :: 0 <= i < |strategies| && strategies[i].theme.riskLevel == High
    ensures OverallRiskControl(strategies).totalRisk == High ==> |OverallRiskControl(strategies).adjustments| == 3
  {
    forall i | 0 <= i < |strategies|
      ensures strategies[i].risk.maxLoss > 15 <==> strategies[i].theme.riskLevel == High
    {
      BuiltLoss(strategies[i], recs[i]);
    }
    DrawdownIffHigh(strategies);
    if OverallRiskControl(strategies).totalRisk == High {
      HighAverageHasHighTheme(strategies);
    }
  }

  /** When each loss is over 15 exactly for high-risk themes, so is the largest. */
  lemma DrawdownIffHigh(strategies: seq<ThemeStrategy>)
    requires forall i :: 0 <= i < |strategies| ==> (strategies[i].risk.maxLoss > 15 <==> strategies[i].theme.riskLevel == High)
    ensures MaxLoss(strategies) > 15 <==> exists i :: 0 <= i < |strategies| && strategies[i].theme.riskLevel == High
  {
    MaxLossIsMaximum(strategies);
    if MaxLoss(strategies) > 15 {
      var i :| 0 <= i < |strategies| && strategies[i].risk.maxLoss == MaxLoss(strategies);
    }
  }

  /** A built strategy's maximum loss is over 15 iff its theme is high-risk. */
  lemma BuiltLoss(s: ThemeStrategy, recs: seq<SP.PositionRecommendation>)
    requires s == StrategyFor(s.theme, recs)
    ensures s.risk.maxLoss > 15 <==> s.theme.riskLevel == High
  {
    assert s.risk == RiskForStrategy(|recs|, s.theme.riskLevel);
  }

  /** A mean of at least 2.5 needs some 3. */
  lemma {:induction false} HighAverageHasHighTheme(strategies: seq<ThemeStrategy>)
    requires |strategies| > 0 && RiskPointSum(strategies) as real / |strategies| as real >= 2.5
    ensures exists i :: 0 <= i < |strategies| && strategies[i].theme.riskLevel == High
  {
    if forall i :: 0 <= i < |strategies| ==> strategies[i].theme.riskLevel != High {
      NoHighThemeSum(strategies);
      var n := |strategies| as real;
      assert RiskPointSum(strategies) as real <= 2.0 * n;
      DivideBounds(RiskPointSum(strategies) as real, n, 0.0, 2.0);
      assert false;
    }
  }

  lemma {:induction false} NoHighThemeSum(strategies: seq<ThemeStrategy>)
    requires forall i :: 0 <= i < |strategies| ==> strategies[i].theme.riskLevel != High
    ensures RiskPointSum(strategies) <= 2 * |strategies|
  {
    if |strategies| > 0 {
      NoHighThemeSum(strategies[..|strategies| - 1]);
    }
  }

  /** One strategy per theme, in the given order. */
  function StrategiesFor(themes: seq<Theme>, recommend: string -> Option<SP.PositionRecommendation>): (r: seq<ThemeStrategy>)
    ensures |r| == |themes|
  {
    if |themes| == 0 then []
    else
      var t := themes[|themes| - 1];
      StrategiesFor(themes[..|themes| - 1], recommend) + [StrategyFor(t, Recommended(StockPool(t.id), recommend))]
  }

  /** The i-th strategy is built for the i-th theme from that theme's pool. */
  lemma {:induction false} StrategiesForEach(themes: seq<Theme>, recommend: string -> Option<SP.PositionRecommendation>, i: nat)
    requires i < |themes|
    ensures StrategiesFor(themes, recommend)[i].theme == themes[i]
    ensures StrategiesFor(themes, recommend)[i] == StrategyFor(themes[i], Recommended(StockPool(themes[i].id), recommend))
  {
    if i < |themes| - 1 {
      StrategiesForEach(themes[..|themes| - 1], recommend, i);
    }
  }

  lemma StrategiesForExtend(themes: seq<Theme>, recommend: string -> Option<SP.PositionRecommendation>, i: nat)
    requires i < |themes|
    ensures StrategiesFor(themes[..i + 1], recommend)
            == StrategiesFor(themes[..i], recommend) + [StrategyFor(themes[i], Recommended(StockPool(themes[i].id), recommend))]
  {
    assert themes[..i + 1][..i] == themes[..i];
  }

  method GenerateStrategies(themes: seq<Theme>, recommend: string -> Option<SP.PositionRecommendation>)
    returns (strategies: seq<ThemeStrategy>)
    ensures strategies == StrategiesFor(themes, recommend)
  {
    strategies := [];
    var i := 0;
    while i < |themes|
      invariant 0 <= i <= |themes|
      invariant strategies == StrategiesFor(themes[..i], recommend)
    {
      var s := GenerateStrategyForTheme(themes[i], recommend);
      StrategiesForExtend(themes, recommend, i);
      strategies := strategies + [s];
      i := i + 1;
    }
    assert themes[..|themes|] == themes;
  }

  /** Builds one strategy per selected theme, in table order, then the
    * allocation by type and the overall risk control. */
  method GeneratePortfolioStrategy(ids: Option<seq<ThemeId>>, recommend: string -> Option<SP.PositionRecommendation>)
    returns (c: Composition)
    ensures c.themes == SelectThemes(ids)
    ensures c.strategies == StrategiesFor(c.themes, recommend)
    ensures c.allocation == BucketsOf(c.strategies)
    ensures c.riskControl == OverallRiskControl(c.strategies)
  {
    var themes := SelectThemes(ids);
    var strategies := GenerateStrategies(themes, recommend);
    var allocation := CalculateTotalAllocation(strategies);
    c := Composition(themes, allocation, strategies, OverallRiskControl(strategies));
  }

  /** The preset for the market condition, then the usual composition. */
  method RecommendOptimalPortfolio(condition: MarketCondition, recommend: string -> Option<SP.PositionRecommendation>)
    returns (c: Composition)
    ensures c.themes == SelectThemes(Some(OptimalThemeIds(condition)))
    ensures c.strategies == StrategiesFor(c.themes, recommend)
    ensures |c.strategies| == |c.themes|
    ensures c.allocation == BucketsOf(c.strategies)
    ensures c.riskControl == OverallRiskControl(c.strategies)
  {
    c := GeneratePortfolioStrategy(Some(OptimalThemeIds(condition)), recommend);
  }

  /** All six themes put 60 in tech, 20 in policy and 20 in defensive. */
  lemma AllThemesAllocation(strategies: seq<ThemeStrategy>)
    requires ThemesOf(strategies) == Themes
    ensures BucketsOf(strategies) == Buckets(0, 20, 60, 20, 0)
  {
    var t := ThemesOf(strategies);
    assert t[0] == strategies[0].theme && t[1] == strategies[1].theme && t[2] == strategies[2].theme;
    assert t[3] == strategies[3].theme && t[4] == strategies[4].theme && t[5] == strategies[5].theme;
    BucketsSix(strategies);
  }

  /** The buckets of six strategies, strategy by strategy. */
  lemma BucketsSix(strategies: seq<ThemeStrategy>)
    requires |strategies| == 6
    ensures BucketsOf(strategies)
         == Added(Added(Added(Added(Added(Added(Buckets(0, 0, 0, 0, 0),
              strategies[0]), strategies[1]), strategies[2]), strategies[3]), strategies[4]), strategies[5])
  {
    var b0 := Added(Buckets(0, 0, 0, 0, 0), strategies[0]);
    var b1 := Added(b0, strategies[1]);
    var b2 := Added(b1, strategies[2]);
    var b3 := Added(b2, strategies[3]);
    var b4 := Added(b3, strategies[4]);
    assert strategies[..0] == [];
    BucketsStep(strategies, 0);
    assert BucketsOf(strategies[..1]) == b0;
    BucketsStep(strategies, 1);
    assert BucketsOf(strategies[..2]) == b1;
    BucketsStep(strategies, 2);
    assert BucketsOf(strategies[..3]) == b2;
    BucketsStep(strategies, 3);
    assert BucketsOf(strategies[..4]) == b3;
    BucketsStep(strategies, 4);
    assert BucketsOf(strategies[..5]) == b4;
    BucketsStep(strategies, 5);
    assert strategies[..6] == strategies;
  }

  /** The buckets with one more strategy's theme counted. */
  function Added(b: Buckets, s: ThemeStrategy): Buckets
  {
    Add(b, s.theme.kind, s.theme.proportion)
  }

  lemma BucketsStep(strategies: seq<ThemeStrategy>, k: nat)
    requires k < |strategies|
    ensures BucketsOf(strategies[..k + 1]) == Add(BucketsOf(strategies[..k]), strategies[k].theme.kind, strategies[k].theme.proportion)
  {
    assert strategies[..k + 1][..k] == strategies[..k];
  }
}
