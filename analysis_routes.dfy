// The portfolio-analysis helpers of the analysis routes: the overall score,
// the risk level, the diversification figure, and the portfolio advice,
// all over the per-position classification results.

module AnalysisRoutes {
  import opened Util

  /** One analysed position: its category and its overall score. */
  datatype Scored = Scored(category: string, score: real)

  datatype RiskLevel = LowRisk | MediumRisk | HighRisk

  /** The advice entries: buy right-side positions (high priority), buy
    * defensive positions (medium priority). */
  datatype Advice = AddRightSide | AddDefensive

  function Scores(ps: seq<Scored>): (r: seq<real>)
    ensures |r| == |ps| && forall i :: 0 <= i < |r| ==> r[i] == ps[i].score
  {
    seq(|ps|, i requires 0 <= i < |ps| => ps[i].score)
  }

  /** The mean score; `None` (NaN) for no positions. */
  function OverallScore(ps: seq<Scored>): Option<real>
  {
    if |ps| == 0 then None else Some(Sum(Scores(ps)) / |ps| as real)
  }

  /** Mean ≥ 80 is low risk, ≥ 60 medium, anything else (NaN included)
    * high. */
  function RiskLevelOf(ps: seq<Scored>): RiskLevel
  {
    var avg := OverallScore(ps);
    if avg.Some? && avg.value >= 80.0 then LowRisk
    else if avg.Some? && avg.value >= 60.0 then MediumRisk
    else HighRisk
  }

  /** The mean of scores in a range lies in it. */
  lemma OverallScoreBounds(ps: seq<Scored>, lo: real, hi: real)
    requires forall i :: 0 <= i < |ps| ==> lo <= ps[i].score <= hi
    ensures OverallScore(ps).None? <==> |ps| == 0
    ensures |ps| > 0 ==> lo <= OverallScore(ps).value <= hi
  {
    if |ps| > 0 {
      MeanBounds(Scores(ps), lo, hi);
    }
  }

  /** The three levels partition the mean's range, and no positions at all
    * counts as high risk. */
  lemma RiskLevelRules(ps: seq<Scored>)
    ensures RiskLevelOf(ps) == LowRisk <==> |ps| > 0 && OverallScore(ps).value >= 80.0
    ensures RiskLevelOf(ps) == MediumRisk <==> |ps| > 0 && 60.0 <= OverallScore(ps).value < 80.0
    ensures RiskLevelOf(ps) == HighRisk <==> |ps| == 0 || OverallScore(ps).value < 60.0
  {
  }

  /** Scores all at least 80 mean low risk; all below 60 mean high. */
  lemma RiskLevelFromScores(ps: seq<Scored>)
    requires |ps| > 0
    ensures (forall i :: 0 <= i < |ps| ==> ps[i].score >= 80.0) ==> RiskLevelOf(ps) == LowRisk
    ensures (forall i :: 0 <= i < |ps| ==> ps[i].score < 60.0) ==> RiskLevelOf(ps) == HighRisk
  {
    if forall i :: 0 <= i < |ps| ==> ps[i].score >= 80.0 {
      MeanAtLeast(Scores(ps), 80.0);
    }
    if forall i :: 0 <= i < |ps| ==> ps[i].score < 60.0 {
      MeanBelow(Scores(ps), 60.0);
    }
  }

  /** A mean of values each at least `lo` is at least `lo`: the values lie
    * between `lo` and their maximum. */
  lemma MeanAtLeast(s: seq<real>, lo: real)
    requires |s| > 0
    requires forall i :: 0 <= i < |s| ==> s[i] >= lo
    ensures Sum(s) / |s| as real >= lo
  {
    SeqMinMaxBound(s);
    MeanBounds(s, lo, SeqMax(s));
  }

  /** A mean of values each below `hi` is below `hi`: it is at most their
    * maximum, which is one of them. */
  lemma MeanBelow(s: seq<real>, hi: real)
    requires |s| > 0
    requires forall i :: 0 <= i < |s| ==> s[i] < hi
    ensures Sum(s) / |s| as real < hi
  {
    SeqMinMaxBound(s);
    SeqMinMaxMember(s);
    MeanBounds(s, SeqMin(s), SeqMax(s));
  }

  // ---------------------------------------------------------------------
  // Category counts
  // ---------------------------------------------------------------------

  /** The `reduce` accumulator: an object from category to count, whose
    * keys keep the order in which categories first appear. */
  type Tally = seq<(string, nat)>

  function Lookup(t: Tally, c: string): Option<nat>
  {
    if |t| == 0 then None
    else if t[0].0 == c then Some(t[0].1)
    else Lookup(t[1..], c)
  }

  /** `acc[c] = (acc[c] || 0) + 1`. */
  function Bump(t: Tally, c: string): (r: Tally)
    ensures |r| == |t| || |r| == |t| + 1
  {
    if |t| == 0 then [(c, 1)]
    else if t[0].0 == c then [(c, t[0].1 + 1)] + t[1..]
    else [t[0]] + Bump(t[1..], c)
  }

  function TallyOf(ps: seq<Scored>): Tally
  {
    if |ps| == 0 then [] else Bump(TallyOf(ps[..|ps| - 1]), ps[|ps| - 1].category)
  }

  /** How many positions have category `c`. */
  function CountOf(ps: seq<Scored>, c: string): nat
  {
    if |ps| == 0 then 0 else CountOf(ps[..|ps| - 1], c) + (if ps[|ps| - 1].category == c then 1 else 0)
  }

  function Total(t: Tally): nat
  {
    if |t| == 0 then 0 else t[0].1 + Total(t[1..])
  }

  ghost predicate Positive(t: Tally)
  {
    forall i :: 0 <= i < |t| ==> t[i].1 >= 1
  }

  lemma {:induction false} BumpMeaning(t: Tally, c: string)
    requires Positive(t)
    ensures Positive(Bump(t, c))
    ensures Total(Bump(t, c)) == Total(t) + 1
    ensures Lookup(Bump(t, c), c) == Some(if Lookup(t, c).Some? then Lookup(t, c).value + 1 else 1)
    ensures forall k :: k != c ==> Lookup(Bump(t, c), k) == Lookup(t, k)
  {
    if |t| > 0 && t[0].0 != c {
      BumpMeaning(t[1..], c);
      assert Bump(t, c)[1..] == Bump(t[1..], c);
    }
  }

  /** The tally holds each category once, with its count: absent exactly
    * when no position has it, and the counts add up to the positions. */
  lemma {:induction false} TallyMeaning(ps: seq<Scored>)
    ensures Positive(TallyOf(ps))
    ensures Total(TallyOf(ps)) == |ps|
    ensures forall c :: Lookup(TallyOf(ps), c) == if CountOf(ps, c) == 0 then None else Some(CountOf(ps, c))
  {
    if |ps| > 0 {
      TallyMeaning(ps[..|ps| - 1]);
      BumpMeaning(TallyOf(ps[..|ps| - 1]), ps[|ps| - 1].category);
    }
  }

  /** The counts of a positive tally each lie between 1 and the total, and
    * there are at most as many categories as the total. */
  lemma {:induction false} TotalBounds(t: Tally)
    requires Positive(t)
    ensures |t| <= Total(t)
    ensures forall i :: 0 <= i < |t| ==> 1 <= t[i].1 <= Total(t)
  {
    if |t| > 0 {
      TotalBounds(t[1..]);
      assert forall i :: 1 <= i < |t| ==> t[i] == t[1..][i - 1];
    }
  }

  /** The reduce over the positions. */
  method CountCategories(ps: seq<Scored>) returns (t: Tally)
    ensures t == TallyOf(ps)
  {
    t := [];
    var i := 0;
    while i < |ps|
      invariant 0 <= i <= |ps|
      invariant t == TallyOf(ps[..i])
    {
      assert ps[..i + 1][..i] == ps[..i];
      t := Bump(t, ps[i].category);
      i := i + 1;
    }
    assert ps[..|ps|] == ps;
  }

  // ---------------------------------------------------------------------
  // Diversification
  // ---------------------------------------------------------------------

  /** `Math.max(...counts)` on a non-empty tally. */
  function MaxCount(t: Tally): (r: nat)
    requires |t| > 0
    ensures exists i :: 0 <= i < |t| && r == t[i].1
    ensures forall i :: 0 <= i < |t| ==> t[i].1 <= r
  {
    if |t| == 1 then t[0].1
    else
      var rest := MaxCount(t[1..]);
      assert forall i :: 1 <= i < |t| ==> t[i] == t[1..][i - 1];
      if t[0].1 >= rest then t[0].1 else rest
  }

  /** (categories / n) · 100 − (largest category / n) · 50; `None` (NaN)
    * for no positions. */
  function Diversification(ps: seq<Scored>): Option<real>
  {
    var t := TallyOf(ps);
    if |ps| == 0 then None
    else
      assert |t| > 0 by { TallyMeaning(ps); }
      var n := |ps| as real;
      Some((|t| as real / n) * 100.0 - (MaxCount(t) as real / n) * 50.0)
  }

  lemma DiversificationShape(k: real, m: real, n: real)
    requires 1.0 <= k <= n && 1.0 <= m <= n
    ensures -50.0 < (k / n) * 100.0 - (m / n) * 50.0 < 100.0
  {
    FractionBounds(k, n);
    FractionBounds(m, n);
  }

  lemma FractionBounds(a: real, n: real)
    requires 1.0 <= a <= n
    ensures 0.0 < 1.0 / n <= a / n <= 1.0
  {
    var f := a / n;
    assert f * n == a;
    var g := 1.0 / n;
    assert g * n == 1.0;
  }

  /** Diversification stays strictly between −50 (one category holds
    * everything) and 100 (every position in its own category). */
  lemma DiversificationBounds(ps: seq<Scored>)
    ensures Diversification(ps).None? <==> |ps| == 0
    ensures |ps| > 0 ==> -50.0 < Diversification(ps).value < 100.0
  {
    if |ps| > 0 {
      var t := TallyOf(ps);
      TallyMeaning(ps);
      TotalBounds(t);
      var m := MaxCount(t);
      DiversificationShape(|t| as real, m as real, |ps| as real);
    }
  }

  /** With every position in one category the figure is 100/n − 50. */
  lemma DiversificationOneCategory(ps: seq<Scored>, c: string)
    requires |ps| > 0 && forall i :: 0 <= i < |ps| ==> ps[i].category == c
    ensures Diversification(ps) == Some(100.0 / |ps| as real - 50.0)
  {
    OneCategoryTally(ps, c);
    var t := TallyOf(ps);
    assert MaxCount(t) == |ps|;
    var n := |ps| as real;
    assert (1.0 / n) * 100.0 == 100.0 / n;
    assert (n / n) * 50.0 == 50.0;
  }

  lemma {:induction false} OneCategoryTally(ps: seq<Scored>, c: string)
    requires |ps| > 0 && forall i :: 0 <= i < |ps| ==> ps[i].category == c
    ensures TallyOf(ps) == [(c, |ps|)]
  {
    if |ps| > 1 {
      OneCategoryTally(ps[..|ps| - 1], c);
    }
  }

  // ---------------------------------------------------------------------
  // Advice
  // ---------------------------------------------------------------------

  /** `count < k` on an entry that may be missing (then false). */
  predicate Below(count: Option<nat>, k: nat)
  {
    count.Some? && count.value < k
  }

  function AdviceFor(ps: seq<Scored>): seq<Advice>
  {
    var t := TallyOf(ps);
    If(Below(Lookup(t, "right"), 2), AddRightSide) + If(Below(Lookup(t, "defensive"), 1), AddDefensive)
  }

  method GeneratePortfolioRecommendations(ps: seq<Scored>) returns (advice: seq<Advice>)
    ensures advice == AdviceFor(ps)
  {
    var t := CountCategories(ps);
    advice := [];
    if Below(Lookup(t, "right"), 2) {
      advice := advice + [AddRightSide];
    }
    ghost var before := advice;
    assert before == If(Below(Lookup(t, "right"), 2), AddRightSide);
    if Below(Lookup(t, "defensive"), 1) {
      advice := advice + [AddDefensive];
    }
    PushedIf(before, advice, Below(Lookup(t, "defensive"), 1), AddDefensive);
  }

  /** A missing count compares false, and a present one is at least 1: the
    * right-side advice is given only when exactly one position is on the
    * right, never when there are none, and the defensive advice never. */
  lemma AdviceQuirk(ps: seq<Scored>)
    ensures AddRightSide in AdviceFor(ps) <==> CountOf(ps, "right") == 1
    ensures AddDefensive !in AdviceFor(ps)
    ensures AdviceFor(ps) == If(CountOf(ps, "right") == 1, AddRightSide)
  {
    var t := TallyOf(ps);
    TallyMeaning(ps);
    var right, defensive := Lookup(t, "right"), Lookup(t, "defensive");
    assert right == if CountOf(ps, "right") == 0 then None else Some(CountOf(ps, "right"));
    assert defensive == if CountOf(ps, "defensive") == 0 then None else Some(CountOf(ps, "defensive"));
    assert Below(right, 2) <==> CountOf(ps, "right") == 1;
    assert !Below(defensive, 1);
    var r := If(Below(right, 2), AddRightSide);
    assert AdviceFor(ps) == r + [];
    assert r + [] == r;
  }
}
