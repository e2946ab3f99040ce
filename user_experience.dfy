// User-experience service: session aggregates, per-feature usage totals,
// the shallow settings merge, behaviour tracking, feedback escalation and
// the UX report recommendations.

module UserExperience {
  import opened Util

  // ---------------------------------------------------------------------
  // Sessions
  // ---------------------------------------------------------------------

  /** One stored session row. A missing (or falsy) duration or page-view
    * count is `None`; the feature usage is the parsed JSON object, absent
    * when the column is empty. */
  datatype Session = Session(duration: Option<real>, pageViews: Option<real>, featureUsage: Option<map<string, real>>)

  /** `value || 0` */
  function OrZero(x: Option<real>): real
  {
    if x.Some? then x.value else 0.0
  }

  function Durations(sessions: seq<Session>): (r: seq<real>)
    ensures |r| == |sessions|
    ensures forall i :: 0 <= i < |sessions| ==> r[i] == OrZero(sessions[i].duration)
  {
    if |sessions| == 0 then [] else Durations(sessions[..|sessions| - 1]) + [OrZero(sessions[|sessions| - 1].duration)]
  }

  function PageViews(sessions: seq<Session>): (r: seq<real>)
    ensures |r| == |sessions|
    ensures forall i :: 0 <= i < |sessions| ==> r[i] == OrZero(sessions[i].pageViews)
  {
    if |sessions| == 0 then [] else PageViews(sessions[..|sessions| - 1]) + [OrZero(sessions[|sessions| - 1].pageViews)]
  }

  /** Zero without sessions, otherwise the mean duration with a missing
    * duration counted as zero. */
  function AverageSessionDuration(sessions: seq<Session>): real
  {
    if |sessions| == 0 then 0.0 else Sum(Durations(sessions)) / |sessions| as real
  }

  function TotalPageViews(sessions: seq<Session>): real
  {
    Sum(PageViews(sessions))
  }

  /** The average lies between any bounds of the durations counted. */
  lemma AverageSessionDurationBounds(sessions: seq<Session>, lo: real, hi: real)
    requires |sessions| > 0
    requires forall i :: 0 <= i < |sessions| ==> lo <= OrZero(sessions[i].duration) <= hi
    ensures lo <= AverageSessionDuration(sessions) <= hi
  {
    MeanBounds(Durations(sessions), lo, hi);
  }

  /** Sessions that all last the same time average to that time. */
  lemma AverageSessionDurationConstant(sessions: seq<Session>, d: real)
    requires |sessions| > 0
    requires forall i :: 0 <= i < |sessions| ==> OrZero(sessions[i].duration) == d
    ensures AverageSessionDuration(sessions) == d
  {
    AverageSessionDurationBounds(sessions, d, d);
  }

  /** One more session adds its page views (zero when missing) to the
    * total. */
  lemma {:induction false} TotalPageViewsAppend(sessions: seq<Session>, s: Session)
    ensures TotalPageViews(sessions + [s]) == TotalPageViews(sessions) + OrZero(s.pageViews)
  {
    assert (sessions + [s])[..|sessions|] == sessions;
    SumAppend(PageViews(sessions), OrZero(s.pageViews));
  }

  /** Page views are never negative when no stored count is. */
  lemma TotalPageViewsNonNegative(sessions: seq<Session>)
    requires forall i :: 0 <= i < |sessions| ==> OrZero(sessions[i].pageViews) >= 0.0
    ensures TotalPageViews(sessions) >= 0.0
  {
    SumBounds(PageViews(sessions), 0.0, TotalPageViewsCeiling(sessions));
  }

  /** A bound above every page-view count, for the range argument. */
  function TotalPageViewsCeiling(sessions: seq<Session>): (c: real)
    ensures forall i :: 0 <= i < |sessions| ==> OrZero(sessions[i].pageViews) <= c
  {
    if |sessions| == 0 then 0.0
    else Max(TotalPageViewsCeiling(sessions[..|sessions| - 1]), OrZero(sessions[|sessions| - 1].pageViews))
  }

  // ---------------------------------------------------------------------
  // Feature usage
  // ---------------------------------------------------------------------

  function Lookup(m: map<string, real>, k: string): real
  {
    if k in m then m[k] else 0.0
  }

  /** Adds every count of `counts` onto `usage`, key by key. */
  function AddCounts(usage: map<string, real>, counts: map<string, real>): (r: map<string, real>)
    ensures r.Keys == usage.Keys + counts.Keys
    ensures forall k :: k in r ==> r[k] == Lookup(usage, k) + Lookup(counts, k)
  {
    map k | k in usage.Keys + counts.Keys :: Lookup(usage, k) + Lookup(counts, k)
  }

  function CountsOf(s: Session): map<string, real>
  {
    if s.featureUsage.Some? then s.featureUsage.value else map[]
  }

  /** The usage totals after the sessions, in order. */
  function FeatureUsage(sessions: seq<Session>): map<string, real>
  {
    if |sessions| == 0 then map[]
    else AddCounts(FeatureUsage(sessions[..|sessions| - 1]), CountsOf(sessions[|sessions| - 1]))
  }

  /** The sum of one feature's counts over the sessions; a session without
    * usage data, or without that feature, contributes nothing. */
  function FeatureTotal(sessions: seq<Session>, f: string): real
  {
    if |sessions| == 0 then 0.0
    else FeatureTotal(sessions[..|sessions| - 1], f) + Lookup(CountsOf(sessions[|sessions| - 1]), f)
  }

  /** Some session reports the feature. */
  predicate Reported(sessions: seq<Session>, f: string)
  {
    exists i :: 0 <= i < |sessions| && f in CountsOf(sessions[i])
  }

  /** The usage map holds exactly the reported features, each with the sum
    * of its counts across all sessions. */
  lemma {:induction false} FeatureUsageTotals(sessions: seq<Session>, f: string)
    ensures f in FeatureUsage(sessions) <==> Reported(sessions, f)
    ensures f in FeatureUsage(sessions) ==> FeatureUsage(sessions)[f] == FeatureTotal(sessions, f)
  {
    if |sessions| > 0 {
      var init := sessions[..|sessions| - 1];
      FeatureUsageTotals(init, f);
      if Reported(sessions, f) && !Reported(init, f) {
        assert f in CountsOf(sessions[|sessions| - 1]);
      }
      if Reported(init, f) {
        var i :| 0 <= i < |init| && f in CountsOf(init[i]);
        assert sessions[i] == init[i];
      }
      if f !in FeatureUsage(init) {
        assert Lookup(FeatureUsage(init), f) == FeatureTotal(init, f) by {
          FeatureTotalUnreported(init, f);
        }
      }
    }
  }

  lemma {:induction false} FeatureTotalUnreported(sessions: seq<Session>, f: string)
    requires !Reported(sessions, f)
    ensures FeatureTotal(sessions, f) == 0.0
  {
    if |sessions| > 0 {
      var init := sessions[..|sessions| - 1];
      assert !Reported(init, f) by {
        forall i | 0 <= i < |init|
          ensures f !in CountsOf(init[i])
        {
          assert init[i] == sessions[i];
        }
      }
      FeatureTotalUnreported(init, f);
    }
  }

  /** `usage[feature] = (usage[feature] || 0) + count` for every entry of
    * every session that carries usage data. */
  method CalculateFeatureUsage(sessions: seq<Session>) returns (usage: map<string, real>)
    ensures usage == FeatureUsage(sessions)
  {
    usage := map[];
    var i := 0;
    while i < |sessions|
      invariant 0 <= i <= |sessions|
      invariant usage == FeatureUsage(sessions[..i])
    {
      assert sessions[..i + 1][..i] == sessions[..i];
      if sessions[i].featureUsage.Some? {
        usage := AddSessionCounts(usage, sessions[i].featureUsage.value);
      } else {
        assert AddCounts(usage, map[]) == usage;
      }
      i := i + 1;
    }
    assert sessions[..|sessions|] == sessions;
  }

  /** The inner loop over one session's entries. */
  method AddSessionCounts(usage0: map<string, real>, counts: map<string, real>) returns (usage: map<string, real>)
    ensures usage == AddCounts(usage0, counts)
  {
    usage := usage0;
    var todo := counts.Keys;
    ghost var done: set<string> := {};
    RestrictEnds(usage0, counts);
    while todo != {}
      invariant todo <= counts.Keys && done == counts.Keys - todo
      invariant usage == AddCounts(usage0, Restrict(counts, done))
      decreases todo
    {
      var feature :| feature in todo;
      AddCountsStep(usage0, counts, done, feature);
      usage := usage[feature := Lookup(usage, feature) + counts[feature]];
      todo := todo - {feature};
      done := done + {feature};
    }
    assert done == counts.Keys;
  }

  /** Restricting to no keys adds nothing; restricting to all keys is the
    * whole map. */
  lemma RestrictEnds(usage0: map<string, real>, counts: map<string, real>)
    ensures AddCounts(usage0, Restrict(counts, {})) == usage0
    ensures Restrict(counts, counts.Keys) == counts
  {
  }

  /** Taking one more key of `counts` updates that key alone. */
  lemma AddCountsStep(usage0: map<string, real>, counts: map<string, real>, done: set<string>, k: string)
    requires k in counts && k !in done
    ensures AddCounts(usage0, Restrict(counts, done + {k}))
      == AddCounts(usage0, Restrict(counts, done))[k := Lookup(AddCounts(usage0, Restrict(counts, done)), k) + counts[k]]
  {
    var before := AddCounts(usage0, Restrict(counts, done));
    var after := AddCounts(usage0, Restrict(counts, done + {k}));
    var expected := before[k := Lookup(before, k) + counts[k]];
    assert after.Keys == expected.Keys;
    forall j | j in after
      ensures after[j] == expected[j]
    {
      if j != k {
        assert Lookup(Restrict(counts, done + {k}), j) == Lookup(Restrict(counts, done), j);
      }
    }
  }

  function Restrict(m: map<string, real>, keys: set<string>): (r: map<string, real>)
    ensures r.Keys == m.Keys * keys
  {
    map k | k in m.Keys * keys :: m[k]
  }

  // ---------------------------------------------------------------------
  // Personalisation settings
  // ---------------------------------------------------------------------

  datatype Theme = Light | Dark | Auto
  datatype Language = ZhCN | EnUS
  datatype Notifications = Notifications(email: bool, sms: bool, push: bool, riskAlerts: bool, marketUpdates: bool, reportReminders: bool)
  datatype Layout = Compact | Comfortable | Spacious
  datatype View = OverviewView | PositionsView | AnalysisView | ReportsView
  datatype Dashboard = Dashboard(layout: Layout, widgets: seq<string>, defaultView: View)
  datatype Tolerance = LowTolerance | MediumTolerance | HighTolerance
  datatype Style = Conservative | Balanced | Aggressive
  datatype Horizon = ShortHorizon | MediumHorizon | LongHorizon
  datatype Preferences = Preferences(riskTolerance: Tolerance, investmentStyle: Style, timeHorizon: Horizon, focusAreas: seq<string>)

  datatype Settings = Settings(userId: string, theme: Theme, language: Language, notifications: Notifications, dashboard: Dashboard, preferences: Preferences)

  /** A partial update: each top-level key may be given or absent; a given
    * nested object replaces the stored one wholesale. */
  datatype SettingsUpdate = SettingsUpdate(
    userId: Option<string>, theme: Option<Theme>, language: Option<Language>,
    notifications: Option<Notifications>, dashboard: Option<Dashboard>, preferences: Option<Preferences>)

  function DefaultSettings(userId: string): (s: Settings)
    ensures s.userId == userId && s.theme == Light && s.language == ZhCN
  {
    Settings(userId, Light, ZhCN,
      Notifications(true, false, true, true, true, true),
      Dashboard(Comfortable, ["portfolio", "market", "analysis", "reports"], OverviewView),
      Preferences(MediumTolerance, Balanced, MediumHorizon, ["技术分析", "基本面分析", "风险管理"]))
  }

  /** The stored settings, or the defaults when there are none. */
  function CurrentSettings(stored: Option<Settings>, userId: string): (s: Settings)
    ensures stored.Some? ==> s == stored.value
    ensures stored.None? ==> s == DefaultSettings(userId)
  {
    if stored.Some? then stored.value else DefaultSettings(userId)
  }

  function Pick<T>(given: Option<T>, current: T): T
  {
    if given.Some? then given.value else current
  }

  /** `{ ...current, ...update }` */
  function MergeSettings(current: Settings, update: SettingsUpdate): Settings
  {
    Settings(
      Pick(update.userId, current.userId), Pick(update.theme, current.theme),
      Pick(update.language, current.language), Pick(update.notifications, current.notifications),
      Pick(update.dashboard, current.dashboard), Pick(update.preferences, current.preferences))
  }

  const NoUpdate := SettingsUpdate(None, None, None, None, None, None)

  /** Given keys win, every other key keeps its current value. */
  lemma MergeSettingsFields(current: Settings, update: SettingsUpdate)
    ensures MergeSettings(current, update).theme == (if update.theme.Some? then update.theme.value else current.theme)
    ensures MergeSettings(current, update).notifications == (if update.notifications.Some? then update.notifications.value else current.notifications)
    ensures MergeSettings(current, update).dashboard == (if update.dashboard.Some? then update.dashboard.value else current.dashboard)
    ensures MergeSettings(current, update).preferences == (if update.preferences.Some? then update.preferences.value else current.preferences)
    ensures MergeSettings(current, update).userId == (if update.userId.Some? then update.userId.value else current.userId)
    ensures MergeSettings(current, update).language == (if update.language.Some? then update.language.value else current.language)
  {
  }

  /** An empty update changes nothing, and applying the same update twice
    * is the same as applying it once. */
  lemma MergeSettingsLaws(current: Settings, update: SettingsUpdate)
    ensures MergeSettings(current, NoUpdate) == current
    ensures MergeSettings(MergeSettings(current, update), update) == MergeSettings(current, update)
  {
  }

  /** The settings saved by an update: the merge onto the stored settings,
    * or onto the defaults for a user without any. */
  function UpdatedSettings(stored: Option<Settings>, userId: string, update: SettingsUpdate): (s: Settings)
    ensures update.theme.None? ==> s.theme == CurrentSettings(stored, userId).theme
    ensures update.theme.Some? ==> s.theme == update.theme.value
    ensures stored.None? && update == NoUpdate ==> s == DefaultSettings(userId)
  {
    MergeSettings(CurrentSettings(stored, userId), update)
  }

  // ---------------------------------------------------------------------
  // Behaviour tracking and feedback
  // ---------------------------------------------------------------------

  const FeaturePrefix := "feature_"

  /** The feature-usage entry recorded for an action: the action without its
    * `feature_` prefix, or nothing for other actions. */
  function FeatureNameOf(action: string): (r: Option<string>)
    ensures r.Some? <==> FeaturePrefix <= action
    ensures r.Some? ==> action == FeaturePrefix + r.value
  {
    if FeaturePrefix <= action then Some(action[|FeaturePrefix|..]) else None
  }

  /** Prefixing a name and tracking it records that very name. */
  lemma FeatureNameRoundTrip(name: string)
    ensures FeatureNameOf(FeaturePrefix + name) == Some(name)
  {
    assert FeaturePrefix <= FeaturePrefix + name;
    assert (FeaturePrefix + name)[|FeaturePrefix|..] == name;
  }

  datatype FeedbackPriority = LowFeedback | MediumFeedback | HighFeedback | CriticalFeedback

  function PriorityRank(p: FeedbackPriority): nat
  {
    match p
    case LowFeedback => 0
    case MediumFeedback => 1
    case HighFeedback => 2
    case CriticalFeedback => 3
  }

  /** Admins are notified for critical and high feedback. */
  predicate NotifiesAdmins(p: FeedbackPriority)
  {
    p == CriticalFeedback || p == HighFeedback
  }

  /** Escalation is a threshold on the priority order: exactly the
    * priorities ranked high or above, so raising a priority never stops
    * the notification. */
  lemma NotifiesAdminsThreshold(p: FeedbackPriority, q: FeedbackPriority)
    ensures NotifiesAdmins(p) <==> PriorityRank(p) >= 2
    ensures NotifiesAdmins(p) && PriorityRank(p) <= PriorityRank(q) ==> NotifiesAdmins(q)
  {
  }

  // ---------------------------------------------------------------------
  // UX report recommendations
  // ---------------------------------------------------------------------

  /** The recommendation texts; the last one names the top issue. */
  datatype UxAdvice = ImproveCoreExperience | SpeedUpPages | AddStickiness | FocusOnIssue(title: string)

  /** The statistics the rules read. A field read off something that does
    * not carry it is `undefined`, here `None`, and every comparison with it
    * is false. */
  datatype UxStats = UxStats(avgRating: Option<real>, avgDuration: Option<real>, activeUsers: Option<nat>, totalUsers: Option<nat>)

  /** `active / total` as a number that compares: `None` for an undefined
    * operand and for a zero total, where the quotient is NaN or +Infinity
    * and `< 0.3` is false. */
  function ActiveRatio(stats: UxStats): (r: Option<real>)
    ensures r.Some? <==> stats.activeUsers.Some? && stats.totalUsers.Some? && stats.totalUsers.value > 0
  {
    if stats.activeUsers.Some? && stats.totalUsers.Some? && stats.totalUsers.value > 0
    then Some(stats.activeUsers.value as real / stats.totalUsers.value as real)
    else None
  }

  predicate Below(x: Option<real>, bound: real)
  {
    x.Some? && x.value < bound
  }

  function UxRecommendationsFor(stats: UxStats, topIssues: seq<string>): seq<UxAdvice>
  {
    If(Below(stats.avgRating, 3.0), ImproveCoreExperience)
    + If(Below(stats.avgDuration, 300.0), SpeedUpPages)
    + If(Below(ActiveRatio(stats), 0.3), AddStickiness)
    + (if |topIssues| > 0 then [FocusOnIssue(topIssues[0])] else [])
  }

  /** One entry per rule that fires, in rule order. */
  method GenerateUxRecommendations(stats: UxStats, topIssues: seq<string>) returns (recommendations: seq<UxAdvice>)
    ensures recommendations == UxRecommendationsFor(stats, topIssues)
  {
    recommendations := [];
    if Below(stats.avgRating, 3.0) {
      recommendations := recommendations + [ImproveCoreExperience];
    }
    ghost var r1 := recommendations;
    assert r1 == If(Below(stats.avgRating, 3.0), ImproveCoreExperience);
    if Below(stats.avgDuration, 300.0) {
      recommendations := recommendations + [SpeedUpPages];
    }
    ghost var r2 := recommendations;
    assert r2 == r1 + If(Below(stats.avgDuration, 300.0), SpeedUpPages);
    var activeRatio := ActiveRatio(stats);
    if Below(activeRatio, 0.3) {
      recommendations := recommendations + [AddStickiness];
    }
    ghost var r3 := recommendations;
    assert r3 == r2 + If(Below(ActiveRatio(stats), 0.3), AddStickiness);
    if |topIssues| > 0 {
      recommendations := recommendations + [FocusOnIssue(topIssues[0])];
    }
  }

  /** Each rule contributes its entry exactly when it fires. */
  lemma UxRecommendationsRules(stats: UxStats, topIssues: seq<string>)
    ensures ImproveCoreExperience in UxRecommendationsFor(stats, topIssues) <==> Below(stats.avgRating, 3.0)
    ensures SpeedUpPages in UxRecommendationsFor(stats, topIssues) <==> Below(stats.avgDuration, 300.0)
    ensures AddStickiness in UxRecommendationsFor(stats, topIssues) <==> Below(ActiveRatio(stats), 0.3)
    ensures |UxRecommendationsFor(stats, topIssues)| <= 4
    ensures (exists a :: a in UxRecommendationsFor(stats, topIssues) && a.FocusOnIssue?) <==> |topIssues| > 0
    ensures |topIssues| > 0 ==> UxRecommendationsFor(stats, topIssues)[|UxRecommendationsFor(stats, topIssues)| - 1] == FocusOnIssue(topIssues[0])
  {
    var r := UxRecommendationsFor(stats, topIssues);
    var a := If(Below(stats.avgRating, 3.0), ImproveCoreExperience);
    var b := If(Below(stats.avgDuration, 300.0), SpeedUpPages);
    var c := If(Below(ActiveRatio(stats), 0.3), AddStickiness);
    var d := if |topIssues| > 0 then [FocusOnIssue(topIssues[0])] else [];
    assert r == a + b + c + d;
    assert ImproveCoreExperience in r <==> ImproveCoreExperience in a;
    assert SpeedUpPages in r <==> SpeedUpPages in b;
    assert AddStickiness in r <==> AddStickiness in c;
    if |topIssues| > 0 {
      assert r[|r| - 1] in r;
    }
  }

  /** The report hands the rules whole result-row lists, which carry none
    * of the fields read: only the top-issue rule can fire there. */
  lemma ReportOnlyFlagsTopIssue(topIssues: seq<string>)
    ensures UxRecommendationsFor(UxStats(None, None, None, None), topIssues)
      == (if |topIssues| > 0 then [FocusOnIssue(topIssues[0])] else [])
  {
  }
}
