// System health monitoring: the issues found in a metrics snapshot, the
// status they imply, the optimisation suggestions and the dispatch of an
// optimisation request.

module SystemOptimization {
  import opened Util

  /** The metrics the rules read; the source samples most of them at
    * random, so here they are given. */
  datatype Metrics = Metrics(responseTime: real, errorRate: real, queryTime: real, cacheHitRate: real, memoryUsage: real, cpuUsage: real)

  /** The issue texts of the health check. Each text contains the marker
    * the status rule searches for exactly when it is one of the three
    * critical issues, so the texts are modelled by name. */
  datatype Issue = SlowResponse | HighErrorRate | HighMemory | HighCpu | SlowQueries | MonitorFailed

  /** The recommendation pushed together with each issue. */
  datatype Remedy = TuneQueriesAndCache | FixErrors | ReduceMemory | AddCpu | AddIndexes | CheckMonitor

  datatype Status = Healthy | Warning | Critical

  datatype Health = Health(status: Status, issues: seq<Issue>, recommendations: seq<Remedy>)

  function RemedyFor(i: Issue): Remedy
  {
    match i
    case SlowResponse => TuneQueriesAndCache
    case HighErrorRate => FixErrors
    case HighMemory => ReduceMemory
    case HighCpu => AddCpu
    case SlowQueries => AddIndexes
    case MonitorFailed => CheckMonitor
  }

  /** The issues whose text matches one of the critical markers. */
  predicate IsCritical(i: Issue)
  {
    i == HighErrorRate || i == HighMemory || i == HighCpu
  }

  /** Checked in order: response time, error rate, memory, CPU, queries. */
  function IssuesFor(m: Metrics): (r: seq<Issue>)
    ensures |r| <= 5
  {
    If(m.responseTime > 1000.0, SlowResponse)
    + If(m.errorRate > 0.05, HighErrorRate)
    + If(m.memoryUsage > 0.8, HighMemory)
    + If(m.cpuUsage > 0.8, HighCpu)
    + If(m.queryTime > 500.0, SlowQueries)
  }

  function RemediesFor(issues: seq<Issue>): (r: seq<Remedy>)
    ensures |r| == |issues|
  {
    if |issues| == 0 then [] else RemediesFor(issues[..|issues| - 1]) + [RemedyFor(issues[|issues| - 1])]
  }

  /** Healthy without issues; critical when an issue is critical; otherwise
    * a warning. */
  function StatusOf(issues: seq<Issue>): (s: Status)
    ensures s == Healthy <==> |issues| == 0
    ensures s == Critical <==> exists i :: 0 <= i < |issues| && IsCritical(issues[i])
  {
    if |issues| == 0 then Healthy
    else if exists i :: 0 <= i < |issues| && IsCritical(issues[i]) then Critical
    else Warning
  }

  /** `None` stands for a failure to collect the metrics; that path
    * reports critical directly, although its issue text carries none of
    * the critical markers. */
  method MonitorSystemHealth(metrics: Option<Metrics>) returns (h: Health)
    ensures metrics.None? ==> h == Health(Critical, [MonitorFailed], [CheckMonitor])
    ensures metrics.Some? ==> h.issues == IssuesFor(metrics.value)
    ensures h.recommendations == RemediesFor(h.issues)
    ensures metrics.Some? ==> h.status == StatusOf(h.issues)
  {
    if metrics.None? {
      assert [MonitorFailed][..0] == [];
      return Health(Critical, [MonitorFailed], [CheckMonitor]);
    }
    var issues, recommendations := CheckMetrics(metrics.value);
    h := Health(StatusOf(issues), issues, recommendations);
  }

  /** The threshold checks of the health monitor, each pushing an issue
    * and its recommendation. */
  method CheckMetrics(m: Metrics) returns (issues: seq<Issue>, recommendations: seq<Remedy>)
    ensures issues == IssuesFor(m)
    ensures recommendations == RemediesFor(issues)
  {
    issues := [];
    recommendations := [];
    ghost var before := issues;
    if m.responseTime > 1000.0 {
      RemediesAppend(issues, SlowResponse);
      issues := issues + [SlowResponse];
      recommendations := recommendations + [TuneQueriesAndCache];
    }
    PushedIf(before, issues, m.responseTime > 1000.0, SlowResponse);
    before := issues;
    if m.errorRate > 0.05 {
      RemediesAppend(issues, HighErrorRate);
      issues := issues + [HighErrorRate];
      recommendations := recommendations + [FixErrors];
    }
    PushedIf(before, issues, m.errorRate > 0.05, HighErrorRate);
    before := issues;
    if m.memoryUsage > 0.8 {
      RemediesAppend(issues, HighMemory);
      issues := issues + [HighMemory];
      recommendations := recommendations + [ReduceMemory];
    }
    PushedIf(before, issues, m.memoryUsage > 0.8, HighMemory);
    before := issues;
    if m.cpuUsage > 0.8 {
      RemediesAppend(issues, HighCpu);
      issues := issues + [HighCpu];
      recommendations := recommendations + [AddCpu];
    }
    PushedIf(before, issues, m.cpuUsage > 0.8, HighCpu);
    before := issues;
    if m.queryTime > 500.0 {
      RemediesAppend(issues, SlowQueries);
      issues := issues + [SlowQueries];
      recommendations := recommendations + [AddIndexes];
    }
    PushedIf(before, issues, m.queryTime > 500.0, SlowQueries);
    assert [] + If(m.responseTime > 1000.0, SlowResponse) == If(m.responseTime > 1000.0, SlowResponse);
  }

  lemma RemediesAppend(issues: seq<Issue>, i: Issue)
    ensures RemediesFor(issues + [i]) == RemediesFor(issues) + [RemedyFor(i)]
  {
    assert (issues + [i])[..|issues|] == issues;
  }

  /** Healthy metrics produce no issue; the status is critical exactly when
    * the error rate, memory or CPU is over its threshold. */
  lemma HealthStatusRules(m: Metrics)
    ensures StatusOf(IssuesFor(m)) == Healthy <==>
      m.responseTime <= 1000.0 && m.errorRate <= 0.05 && m.memoryUsage <= 0.8 && m.cpuUsage <= 0.8 && m.queryTime <= 500.0
    ensures StatusOf(IssuesFor(m)) == Critical <==> m.errorRate > 0.05 || m.memoryUsage > 0.8 || m.cpuUsage > 0.8
  {
    var issues := IssuesFor(m);
    if m.errorRate > 0.05 || m.memoryUsage > 0.8 || m.cpuUsage > 0.8 {
      var k := if m.responseTime > 1000.0 then 1 else 0;
      if m.errorRate > 0.05 {
        assert issues[k] == HighErrorRate;
      } else if m.memoryUsage > 0.8 {
        assert issues[k] == HighMemory;
      } else {
        assert issues[k] == HighCpu;
      }
    } else {
      assert forall i :: 0 <= i < |issues| ==> issues[i] == SlowResponse || issues[i] == SlowQueries;
    }
  }

  // ---------------------------------------------------------------------
  // Suggestions

  datatype Category = PerformanceCategory | DatabaseCategory | MemoryCategory | SecurityCategory | ScalabilityCategory
  datatype Priority = LowPriority | MediumPriority | HighPriority | CriticalPriority
  datatype Effort = LowEffort | MediumEffort | HighEffort
  datatype Topic = ResponseTime | ErrorRate | QueryTime | CacheHitRate | MemoryUsage | CpuUsage | SecurityAudit | Scalability

  datatype Suggestion = Suggestion(category: Category, priority: Priority, topic: Topic, effort: Effort)

  const SecuritySuggestion := Suggestion(SecurityCategory, MediumPriority, SecurityAudit, MediumEffort)
  const ScalabilitySuggestion := Suggestion(ScalabilityCategory, LowPriority, Scalability, HighEffort)

  /** One suggestion per exceeded threshold, then always the security audit
    * and the scalability plan. */
  function SuggestionsFor(m: Metrics): seq<Suggestion>
  {
    ThresholdSuggestions(m) + [SecuritySuggestion, ScalabilitySuggestion]
  }

  function ThresholdSuggestions(m: Metrics): (r: seq<Suggestion>)
    ensures |r| <= 6
  {
    If(m.responseTime > 1000.0, Suggestion(PerformanceCategory, HighPriority, ResponseTime, MediumEffort))
    + If(m.errorRate > 0.05, ErrorRateSuggestion)
    + If(m.queryTime > 500.0, Suggestion(DatabaseCategory, MediumPriority, QueryTime, MediumEffort))
    + If(m.cacheHitRate < 0.8, Suggestion(DatabaseCategory, MediumPriority, CacheHitRate, LowEffort))
    + If(m.memoryUsage > 0.8, Suggestion(MemoryCategory, HighPriority, MemoryUsage, MediumEffort))
    + If(m.cpuUsage > 0.8, Suggestion(PerformanceCategory, HighPriority, CpuUsage, HighEffort))
  }

  /** Between two and eight suggestions, ending with security then
    * scalability; a critical one appears iff the error rate is too high. */
  lemma SuggestionsShape(m: Metrics)
    ensures 2 <= |SuggestionsFor(m)| <= 8
    ensures SuggestionsFor(m)[|SuggestionsFor(m)| - 2] == SecuritySuggestion
    ensures SuggestionsFor(m)[|SuggestionsFor(m)| - 1] == ScalabilitySuggestion
    ensures (exists i :: 0 <= i < |SuggestionsFor(m)| && SuggestionsFor(m)[i].priority == CriticalPriority) <==> m.errorRate > 0.05
  {
    var t := ThresholdSuggestions(m);
    var s := SuggestionsFor(m);
    assert s == t + [SecuritySuggestion, ScalabilitySuggestion];
    OnlyErrorRateCritical(m);
    Calm(t, [SecuritySuggestion, ScalabilitySuggestion]);
    if exists i :: 0 <= i < |s| && s[i].priority == CriticalPriority {
      var i :| 0 <= i < |s| && s[i].priority == CriticalPriority;
      assert s[i] in s;
    }
    if ErrorRateSuggestion in s {
      var i :| 0 <= i < |s| && s[i] == ErrorRateSuggestion;
    }
  }

  const ErrorRateSuggestion := Suggestion(PerformanceCategory, CriticalPriority, ErrorRate, HighEffort)

  /** Among the threshold suggestions only the error-rate one is
    * critical, and it is there iff the error rate is too high. */
  lemma OnlyErrorRateCritical(m: Metrics)
    ensures forall x :: x in ThresholdSuggestions(m) ==> (x.priority == CriticalPriority <==> x == ErrorRateSuggestion)
    ensures ErrorRateSuggestion in ThresholdSuggestions(m) <==> m.errorRate > 0.05
  {
    var a := If(m.responseTime > 1000.0, Suggestion(PerformanceCategory, HighPriority, ResponseTime, MediumEffort));
    var b := If(m.errorRate > 0.05, ErrorRateSuggestion);
    var c := If(m.queryTime > 500.0, Suggestion(DatabaseCategory, MediumPriority, QueryTime, MediumEffort));
    var d := If(m.cacheHitRate < 0.8, Suggestion(DatabaseCategory, MediumPriority, CacheHitRate, LowEffort));
    var e := If(m.memoryUsage > 0.8, Suggestion(MemoryCategory, HighPriority, MemoryUsage, MediumEffort));
    var f := If(m.cpuUsage > 0.8, Suggestion(PerformanceCategory, HighPriority, CpuUsage, HighEffort));
    assert ThresholdSuggestions(m) == a + b + c + d + e + f;
    var ab := a + b;
    assert forall x: Suggestion :: x in ab ==> (x.priority == CriticalPriority <==> x == ErrorRateSuggestion);
    assert ErrorRateSuggestion in ab <==> m.errorRate > 0.05;
    Calm(ab, c);
    Calm(ab + c, d);
    Calm(ab + c + d, e);
    Calm(ab + c + d + e, f);
  }

  /** Appending suggestions that are neither critical nor the error-rate
    * one keeps both facts above. */
  lemma Calm(s: seq<Suggestion>, t: seq<Suggestion>)
    requires forall x :: x in s ==> (x.priority == CriticalPriority <==> x == ErrorRateSuggestion)
    requires forall x :: x in t ==> x.priority != CriticalPriority
    ensures forall x :: x in s + t ==> (x.priority == CriticalPriority <==> x == ErrorRateSuggestion)
    ensures ErrorRateSuggestion in s + t <==> ErrorRateSuggestion in s
  {
  }

  /** The threshold suggestions, then security and scalability. */
  method GenerateOptimizationSuggestions(m: Metrics) returns (suggestions: seq<Suggestion>)
    ensures suggestions == SuggestionsFor(m)
  {
    suggestions := ThresholdChecks(m);
    suggestions := suggestions + [SecuritySuggestion];
    suggestions := suggestions + [ScalabilitySuggestion];
    assert suggestions == ThresholdSuggestions(m) + [SecuritySuggestion, ScalabilitySuggestion];
  }

  /** One push per exceeded threshold, in rule order. */
  method ThresholdChecks(m: Metrics) returns (suggestions: seq<Suggestion>)
    ensures suggestions == ThresholdSuggestions(m)
  {
    suggestions := [];
    ghost var before := suggestions;
    if m.responseTime > 1000.0 {
      suggestions := suggestions + [Suggestion(PerformanceCategory, HighPriority, ResponseTime, MediumEffort)];
    }
    PushedIf(before, suggestions, m.responseTime > 1000.0, Suggestion(PerformanceCategory, HighPriority, ResponseTime, MediumEffort));
    before := suggestions;
    if m.errorRate > 0.05 {
      suggestions := suggestions + [ErrorRateSuggestion];
    }
    PushedIf(before, suggestions, m.errorRate > 0.05, ErrorRateSuggestion);
    before := suggestions;
    if m.queryTime > 500.0 {
      suggestions := suggestions + [Suggestion(DatabaseCategory, MediumPriority, QueryTime, MediumEffort)];
    }
    PushedIf(before, suggestions, m.queryTime > 500.0, Suggestion(DatabaseCategory, MediumPriority, QueryTime, MediumEffort));
    before := suggestions;
    if m.cacheHitRate < 0.8 {
      suggestions := suggestions + [Suggestion(DatabaseCategory, MediumPriority, CacheHitRate, LowEffort)];
    }
    PushedIf(before, suggestions, m.cacheHitRate < 0.8, Suggestion(DatabaseCategory, MediumPriority, CacheHitRate, LowEffort));
    before := suggestions;
    if m.memoryUsage > 0.8 {
      suggestions := suggestions + [Suggestion(MemoryCategory, HighPriority, MemoryUsage, MediumEffort)];
    }
    PushedIf(before, suggestions, m.memoryUsage > 0.8, Suggestion(MemoryCategory, HighPriority, MemoryUsage, MediumEffort));
    before := suggestions;
    if m.cpuUsage > 0.8 {
      suggestions := suggestions + [Suggestion(PerformanceCategory, HighPriority, CpuUsage, HighEffort)];
    }
    PushedIf(before, suggestions, m.cpuUsage > 0.8, Suggestion(PerformanceCategory, HighPriority, CpuUsage, HighEffort));
    assert [] + If(m.responseTime > 1000.0, Suggestion(PerformanceCategory, HighPriority, ResponseTime, MediumEffort))
      == If(m.responseTime > 1000.0, Suggestion(PerformanceCategory, HighPriority, ResponseTime, MediumEffort));
  }

  // ---------------------------------------------------------------------
  // Optimisation dispatch

  /** True exactly for the four known optimisation ids; anything else is
    * refused. */
  function ExecuteOptimization(id: string): (ok: bool)
    ensures ok <==> id in {"clear_cache", "optimize_database", "restart_services", "update_config"}
  {
    if id == "clear_cache" then true
    else if id == "optimize_database" then true
    else if id == "restart_services" then true
    else id == "update_config"
  }
}
