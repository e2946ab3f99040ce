// The portfolio-strategy routes: the choice between the market-condition
// preset and the requested themes, and the theme lists chosen by risk
// tolerance.

module StrategyRoutes {
  import opened Util
  import opened PortfolioStrategy
  import SP = SmartPositionRecommendation

  /** A reply: the composition, or the HTTP error status. */
  datatype Reply<T> = Ok(value: T) | Error(status: int)

  const Unauthorized := 401

  /** The signed-in user, when there is one with a non-empty id. */
  predicate SignedIn(userId: Option<string>)
  {
    userId.Some? && userId.value != ""
  }

  /** `/generate`: a market condition, when given, decides the themes;
    * otherwise the requested theme ids do (`None` when absent). */
  method Generate(userId: Option<string>, themeIds: Option<seq<ThemeId>>, marketCondition: Option<MarketCondition>,
                  recommend: string -> Option<SP.PositionRecommendation>)
    returns (r: Reply<Composition>)
    ensures r.Error? <==> !SignedIn(userId)
    ensures r.Error? ==> r.status == Unauthorized
    ensures r.Ok? && marketCondition.Some? ==> r.value.themes == SelectThemes(Some(OptimalThemeIds(marketCondition.value)))
    ensures r.Ok? && marketCondition.None? ==> r.value.themes == SelectThemes(themeIds)
    ensures r.Ok? ==> r.value.allocation == BucketsOf(r.value.strategies)
  {
    if !SignedIn(userId) {
      return Error(Unauthorized);
    }
    var c;
    if marketCondition.Some? {
      c := RecommendOptimalPortfolio(marketCondition.value, recommend);
    } else {
      c := GeneratePortfolioStrategy(themeIds, recommend);
    }
    r := Ok(c);
  }

  /** The themes for a risk tolerance: the defensive pair for "low", the
    * growth four for "high", the balanced four for anything else. */
  function ToleranceThemeIds(tolerance: string): seq<ThemeId>
  {
    if tolerance == "low" then [ConsumptionDefensive, Pharmaceutical]
    else if tolerance == "high" then [TechAi, Semiconductor, Robotics, NewEnergy]
    else [TechAi, ConsumptionDefensive, Pharmaceutical, NewEnergy]
  }

  /** The tolerance read from the body, "medium" when absent. */
  function ToleranceOf(riskTolerance: Option<string>): (t: string)
    ensures riskTolerance.None? ==> t == "medium"
    ensures riskTolerance.Some? ==> t == riskTolerance.value
  {
    if riskTolerance.None? then "medium" else riskTolerance.value
  }

  /** `/recommend`. */
  method Recommend(userId: Option<string>, riskTolerance: Option<string>,
                   recommend: string -> Option<SP.PositionRecommendation>)
    returns (r: Reply<Composition>)
    ensures r.Error? <==> !SignedIn(userId)
    ensures r.Error? ==> r.status == Unauthorized
    ensures r.Ok? ==> r.value.themes == SelectThemes(Some(ToleranceThemeIds(ToleranceOf(riskTolerance))))
    ensures r.Ok? ==> r.value.allocation == BucketsOf(r.value.strategies)
  {
    if !SignedIn(userId) {
      return Error(Unauthorized);
    }
    var tolerance := if riskTolerance.None? then "medium" else riskTolerance.value;
    var selected: seq<ThemeId>;
    if tolerance == "low" {
      selected := [ConsumptionDefensive, Pharmaceutical];
    } else if tolerance == "high" {
      selected := [TechAi, Semiconductor, Robotics, NewEnergy];
    } else {
      selected := [TechAi, ConsumptionDefensive, Pharmaceutical, NewEnergy];
    }
    var c := GeneratePortfolioStrategy(Some(selected), recommend);
    r := Ok(c);
  }

  /** Low tolerance gets only the defensive themes, high tolerance none of
    * them, and the default the table's tech-AI, new-energy and both
    * defensive themes. */
  lemma ToleranceSelection()
    ensures SelectThemes(Some(ToleranceThemeIds("low"))) == Themes[4..]
    ensures SelectThemes(Some(ToleranceThemeIds("high"))) == Themes[..4]
    ensures SelectThemes(Some(ToleranceThemeIds(ToleranceOf(None)))) == [Themes[0], Themes[3], Themes[4], Themes[5]]
    ensures forall t :: t in SelectThemes(Some(ToleranceThemeIds("low"))) ==> t.kind == Defensive
    ensures forall t :: t in SelectThemes(Some(ToleranceThemeIds("high"))) ==> t.kind != Defensive
  {
    assert ToleranceThemeIds("low") == OptimalThemeIds(Bear);
    assert ToleranceThemeIds("high") == OptimalThemeIds(Bull);
    OptimalSelection();
    BalancedSelection();
  }

  lemma BalancedSelection()
    ensures SelectThemes(Some(ToleranceThemeIds("medium"))) == [Themes[0], Themes[3], Themes[4], Themes[5]]
  {
    FilterSix(Themes, ToleranceThemeIds("medium"));
  }
}
