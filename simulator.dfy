/** The bookkeeping of the prediction simulator (app/simulate_prediction.py):
    per-source attempt and success counters, the quality score of one
    prediction, the summary over all timeframes, and the readable summary
    of a sentiment analysis. The simulator reads a prediction result
    through `.get` chains with defaults; `View` holds what those chains
    find. */
module Simulator {
  import opened Common
  import opened SentimentAnalyzer
  import AiService
  import AiPredictionService
  import PredictionService

  // ---------------------------------------------------------------------
  // What the simulator reads from a prediction result
  // ---------------------------------------------------------------------

  /** `success`, `prediction.confidence`, `supporting_data.sources_used`,
      `supporting_data.total_posts_analyzed` and
      `supporting_data.historical_data_points` of a result; `None` where
      the key is absent. */
  datatype View = View(
    success: Option<bool>,
    confidence: Option<real>,
    sourcesUsed: Option<seq<string>>,
    totalPosts: Option<int>,
    historicalPoints: Option<int>)

  function SourcesOf(v: View): seq<string> { GetOr(v.sourcesUsed, []) }

  /** A result of the prediction service the simulator instantiates
      (app/prediction/ai_prediction_service.py): it carries no `success`
      key, its `prediction` mapping has no `confidence`, and its
      `supporting_data` has the post count but neither the sources nor the
      history length. */
  function ViewOfAiPrediction(r: AiPredictionService.PredictionResult): View
  {
    View(None, None, None, Some(r.totalPostsAnalyzed as int), None)
  }

  /** A report of the four-source prediction service
      (app/prediction_service.py), which has every key the simulator reads. */
  function ViewOfReport(r: PredictionService.Report): View
  {
    View(Some(r.success), Some(r.prediction.confidence), Some(r.sourcesUsed),
         Some(r.totalPostsAnalyzed as int), Some(r.historicalDataPoints as int))
  }

  // ---------------------------------------------------------------------
  // Source performance
  // ---------------------------------------------------------------------

  datatype Counts = Counts(attempts: nat, successes: nat)

  const AllSources: seq<string> :=
    [PredictionService.HistoricalSource, PredictionService.TwitterSource,
     PredictionService.RedditSource, PredictionService.AiSource]

  /** Every source the update touches has its counters. */
  predicate Tracked(perf: map<string, Counts>)
  {
    forall s :: s in AllSources ==> s in perf
  }

  /** Counters never claim more successes than attempts. */
  predicate Consistent(perf: map<string, Counts>)
  {
    forall s :: s in perf ==> perf[s].successes <= perf[s].attempts
  }

  /** The counters before the first prediction. */
  const Initial: map<string, Counts> := map s | s in AllSources :: Counts(0, 0)

  /** One more attempt, and one more success when it succeeded. */
  function Bump(c: Counts, succeeded: bool): Counts
  {
    Counts(c.attempts + 1, c.successes + (if succeeded then 1 else 0))
  }

  /** The counters after one prediction that used `used`. */
  function Updated(perf: map<string, Counts>, used: seq<string>): (r: map<string, Counts>)
    requires Tracked(perf)
    ensures r.Keys == perf.Keys && Tracked(r)
    ensures Consistent(perf) ==> Consistent(r)
  {
    map s | s in perf :: if s in AllSources then Bump(perf[s], s in used) else perf[s]
  }

  /** The counters after a series of predictions, each given by the
      sources it used. */
  function Replay(runs: seq<seq<string>>): (r: map<string, Counts>)
    ensures Tracked(r) && r.Keys == Initial.Keys
  {
    if |runs| == 0 then Initial else Updated(Replay(runs[..|runs| - 1]), runs[|runs| - 1])
  }

  /** In how many runs the source was used. */
  function UsedCount(runs: seq<seq<string>>, s: string): (n: nat)
    ensures n <= |runs|
  {
    if |runs| == 0 then 0
    else UsedCount(runs[..|runs| - 1], s) + (if s in runs[|runs| - 1] then 1 else 0)
  }

  /** After any series of predictions every source was attempted once per
      prediction and succeeded once per prediction that used it. */
  lemma {:induction false} ReplayCounts(runs: seq<seq<string>>, s: string)
    requires s in AllSources
    ensures Replay(runs)[s] == Counts(|runs|, UsedCount(runs, s))
  {
    if |runs| > 0 {
      ReplayCounts(runs[..|runs| - 1], s);
    }
  }

  /** The performance mapping the simulation keeps for one ticker. */
  class PerformanceTracker {
    var performance: map<string, Counts>

    ghost predicate Valid()
      reads this
    {
      Tracked(performance) && Consistent(performance)
    }

    /** Every source starts at zero attempts and zero successes. */
    constructor()
      ensures performance == Initial && Valid()
    {
      performance := Initial;
    }

    /** `_update_source_performance(prediction_result, performance_tracker)`. */
    method UpdateSourcePerformance(v: View)
      requires Valid()
      modifies this
      ensures performance == Updated(old(performance), SourcesOf(v))
      ensures Valid()
    {
      var used := SourcesOf(v);
      ghost var target := Updated(performance, used);
      for k := 0 to |AllSources|
        invariant performance.Keys == target.Keys
        invariant forall s :: s in performance ==>
          performance[s] == if s in AllSources[..k] then target[s] else old(performance)[s]
      {
        var source := AllSources[k];
        performance := performance[source := Bump(performance[source], source in used)];
      }
      assert AllSources[..|AllSources|] == AllSources;
    }
  }

  // ---------------------------------------------------------------------
  // Quality of one prediction
  // ---------------------------------------------------------------------

  /** One entry of the `strengths` or `issues` list: which criterion, the
      leading word of the message, and the numbers it shows. */
  datatype Note =
    | ProcessFailed
    | ConfidenceNote(level: string, confidence: real)
    | CoverageNote(level: string, count: nat)
    | VolumeNote(level: string, posts: int, historical: int)

  predicate IsIssue(n: Note)
  {
    n.ProcessFailed? || n.level == "Low" || n.level == "Limited"
  }

  datatype Quality = Quality(
    status: string,
    score: int,
    issues: seq<Note>,
    strengths: seq<Note>,
    overall: Option<string>)

  function ConfidencePoints(c: real): int
  {
    if c >= 0.7 then 30 else if c >= 0.5 then 20 else 10
  }

  function ConfidenceVerdict(c: real): (n: Note)
    ensures n.ConfidenceNote? && n.confidence == c
    ensures IsIssue(n) <==> c < 0.5
  {
    ConfidenceNote(if c >= 0.7 then "High" else if c >= 0.5 then "Moderate" else "Low", c)
  }

  function CoveragePoints(count: nat): int
  {
    if count >= 4 then 30 else if count >= 3 then 20 else if count >= 2 then 15 else 5
  }

  function CoverageVerdict(count: nat): (n: Note)
    ensures n.CoverageNote? && n.count == count
    ensures IsIssue(n) <==> count < 2
  {
    CoverageNote(if count >= 4 then "Excellent" else if count >= 3 then "Good"
                 else if count >= 2 then "Moderate" else "Limited", count)
  }

  function VolumePoints(posts: int, historical: int): int
  {
    if posts >= 20 || historical >= 20 then 20 else if posts >= 10 || historical >= 10 then 15 else 5
  }

  function VolumeVerdict(posts: int, historical: int): (n: Note)
    ensures n.VolumeNote? && n.posts == posts && n.historical == historical
    ensures IsIssue(n) <==> posts < 10 && historical < 10
  {
    VolumeNote(if posts >= 20 || historical >= 20 then "Good"
               else if posts >= 10 || historical >= 10 then "Moderate" else "Limited", posts, historical)
  }

  /** The overall grade of a quality score. */
  function Grade(score: int): (g: string)
    ensures g == "high" <==> score >= 70
    ensures g == "moderate" <==> 50 <= score < 70
    ensures g == "low" <==> score < 50
  {
    if score >= 70 then "high" else if score >= 50 then "moderate" else "low"
  }

  /** What `_analyze_prediction_quality` answers for a result. */
  function QualityOf(v: View): (q: Quality)
    ensures q.status == "failed" <==> !GetOr(v.success, false)
    ensures q.status == "failed" ==>
      q.score == 0 && q.issues == [ProcessFailed] && q.strengths == [] && q.overall.None?
    ensures q.status != "failed" ==>
      && q.status == "success"
      && 20 <= q.score <= 80
      && q.overall == Some(Grade(q.score))
      && |q.issues| + |q.strengths| == 3
      && (forall n :: n in q.issues ==> IsIssue(n))
      && (forall n :: n in q.strengths ==> !IsIssue(n))
  {
    if !GetOr(v.success, false) then Quality("failed", 0, [ProcessFailed], [], None)
    else
      var c := GetOr(v.confidence, 0.0);
      var count := |SourcesOf(v)|;
      var posts := GetOr(v.totalPosts, 0);
      var historical := GetOr(v.historicalPoints, 0);
      var verdicts := [ConfidenceVerdict(c), CoverageVerdict(count), VolumeVerdict(posts, historical)];
      var score := ConfidencePoints(c) + CoveragePoints(count) + VolumePoints(posts, historical);
      Quality("success", score,
              PredictionService.When(IsIssue(verdicts[0]), verdicts[0])
                + PredictionService.When(IsIssue(verdicts[1]), verdicts[1])
                + PredictionService.When(IsIssue(verdicts[2]), verdicts[2]),
              PredictionService.When(!IsIssue(verdicts[0]), verdicts[0])
                + PredictionService.When(!IsIssue(verdicts[1]), verdicts[1])
                + PredictionService.When(!IsIssue(verdicts[2]), verdicts[2]),
              Some(Grade(score)))
  }

  method JudgeConfidence(c: real) returns (n: Note, points: int)
    ensures n == ConfidenceVerdict(c) && points == ConfidencePoints(c)
  {
    if c >= 0.7 {
      n, points := ConfidenceNote("High", c), 30;
    } else if c >= 0.5 {
      n, points := ConfidenceNote("Moderate", c), 20;
    } else {
      n, points := ConfidenceNote("Low", c), 10;
    }
  }

  method JudgeCoverage(count: nat) returns (n: Note, points: int)
    ensures n == CoverageVerdict(count) && points == CoveragePoints(count)
  {
    if count >= 4 {
      n, points := CoverageNote("Excellent", count), 30;
    } else if count >= 3 {
      n, points := CoverageNote("Good", count), 20;
    } else if count >= 2 {
      n, points := CoverageNote("Moderate", count), 15;
    } else {
      n, points := CoverageNote("Limited", count), 5;
    }
  }

  method JudgeVolume(posts: int, historical: int) returns (n: Note, points: int)
    ensures n == VolumeVerdict(posts, historical) && points == VolumePoints(posts, historical)
  {
    if posts >= 20 || historical >= 20 {
      n, points := VolumeNote("Good", posts, historical), 20;
    } else if posts >= 10 || historical >= 10 {
      n, points := VolumeNote("Moderate", posts, historical), 15;
    } else {
      n, points := VolumeNote("Limited", posts, historical), 5;
    }
  }

  /** `_analyze_prediction_quality(prediction_result)`: the three criteria
      are judged one after the other, each adding to the score and
      appending its note to the strengths or to the issues. */
  method AnalyzePredictionQuality(v: View) returns (q: Quality)
    ensures q == QualityOf(v)
  {
    if !GetOr(v.success, false) {
      return Quality("failed", 0, [ProcessFailed], [], None);
    }
    var score := 0;
    var issues: seq<Note> := [];
    var strengths: seq<Note> := [];

    var n0, p0 := JudgeConfidence(GetOr(v.confidence, 0.0));
    if IsIssue(n0) {
      issues := issues + [n0];
    } else {
      strengths := strengths + [n0];
    }
    score := score + p0;
    assert issues == PredictionService.When(IsIssue(n0), n0);
    assert strengths == PredictionService.When(!IsIssue(n0), n0);

    var n1, p1 := JudgeCoverage(|SourcesOf(v)|);
    if IsIssue(n1) {
      issues := issues + [n1];
    } else {
      strengths := strengths + [n1];
    }
    score := score + p1;
    assert issues == PredictionService.When(IsIssue(n0), n0) + PredictionService.When(IsIssue(n1), n1);
    assert strengths == PredictionService.When(!IsIssue(n0), n0) + PredictionService.When(!IsIssue(n1), n1);

    var n2, p2 := JudgeVolume(GetOr(v.totalPosts, 0), GetOr(v.historicalPoints, 0));
    if IsIssue(n2) {
      issues := issues + [n2];
    } else {
      strengths := strengths + [n2];
    }
    score := score + p2;

    var overall := if score >= 70 then "high" else if score >= 50 then "moderate" else "low";
    q := Quality("success", score, issues, strengths, Some(overall));
  }

  /** Better evidence never lowers the score: more confidence, more
      sources, more posts or more history each give at least as many
      points. */
  lemma QualityMonotone(v: View, w: View)
    requires GetOr(v.success, false) && GetOr(w.success, false)
    requires GetOr(v.confidence, 0.0) <= GetOr(w.confidence, 0.0)
    requires |SourcesOf(v)| <= |SourcesOf(w)|
    requires GetOr(v.totalPosts, 0) <= GetOr(w.totalPosts, 0)
    requires GetOr(v.historicalPoints, 0) <= GetOr(w.historicalPoints, 0)
    ensures QualityOf(v).score <= QualityOf(w).score
  {
  }

  // ---------------------------------------------------------------------
  // Rounding
  // ---------------------------------------------------------------------

  /** The integer nearest to `y`, ties to the even one (Python's `round`). */
  function RoundHalfEven(y: real): (n: int)
    ensures -0.5 <= n as real - y <= 0.5
  {
    var f := y.Floor;
    var frac := y - f as real;
    if frac > 0.5 then f + 1
    else if frac < 0.5 then f
    else if f % 2 == 0 then f
    else f + 1
  }

  /** `round(x, 1)`. */
  function Round1(x: real): (r: real)
    ensures x - 0.05 <= r <= x + 0.05
  {
    RoundHalfEven(x * 10.0) as real / 10.0
  }

  /** Rounding never leaves an interval between two whole numbers. */
  lemma RoundingStaysWithin(x: real, lo: int, hi: int)
    requires lo as real <= x <= hi as real
    ensures lo as real <= Round2(x) <= hi as real
    ensures lo as real <= Round1(x) <= hi as real
  {
    Round2Within(x, lo * 100, hi * 100);
    var n1 := RoundHalfEven(x * 10.0);
    assert n1 >= lo * 10 && n1 <= hi * 10;
  }

  // ---------------------------------------------------------------------
  // Simulation summary
  // ---------------------------------------------------------------------

  /** One entry of the `predictions` mapping: a result, or the message of
      the exception the prediction raised. */
  datatype Entry = Completed(view: View) | Raised(message: string)

  datatype Summary = Summary(
    total: nat,
    successful: nat,
    failed: nat,
    averageConfidence: real,
    reliability: map<string, real>,
    recommendations: seq<string>)

  /** The confidences of the entries without an exception, in order. */
  function Confidences(entries: seq<Entry>): (r: seq<real>)
    ensures |r| <= |entries|
  {
    if |entries| == 0 then []
    else
      var last := entries[|entries| - 1];
      Confidences(entries[..|entries| - 1]) + (if last.Completed? then [GetOr(last.view.confidence, 0.0)] else [])
  }

  function AverageConfidence(confidences: seq<real>): real
  {
    if |confidences| == 0 then 0.0 else Round2(Mean(confidences))
  }

  /** `round(successes / attempts * 100, 1)`. */
  function Rate(c: Counts): real
    requires c.attempts > 0
  {
    Round1(c.successes as real / c.attempts as real * 100.0)
  }

  /** The success rate, in percent, of every source with an attempt. */
  function Reliability(perf: map<string, Counts>): (r: map<string, real>)
    ensures forall s :: s in r <==> s in perf && perf[s].attempts > 0
  {
    map s | s in perf && perf[s].attempts > 0 :: Rate(perf[s])
  }

  const AllFailedAdvice := "All predictions failed - check service configuration and API credentials"
  const LowConfidenceAdvice := "Very low confidence - investigate data quality and source availability"
  const TwitterAdvice := "Twitter reliability low - check rate limits and API configuration"
  const RedditAdvice := "Reddit reliability low - check API credentials and access permissions"
  const HealthyAdvice := "Prediction system functioning well with good source diversity"

  /** The one recommendation, by fixed priority; a source without an
      attempt counts as 0% reliable. */
  function Recommendation(successful: nat, average: real, reliability: map<string, real>): (r: string)
    ensures r == AllFailedAdvice <==> successful == 0
    ensures r == LowConfidenceAdvice <==> successful > 0 && average < 0.3
    ensures r == TwitterAdvice <==>
      successful > 0 && average >= 0.3 && GetOr(Get(reliability, "twitter"), 0.0) < 50.0
    ensures r == RedditAdvice <==>
      && successful > 0 && average >= 0.3 && GetOr(Get(reliability, "twitter"), 0.0) >= 50.0
      && GetOr(Get(reliability, "reddit"), 0.0) < 50.0
    ensures r == HealthyAdvice <==>
      && successful > 0 && average >= 0.3 && GetOr(Get(reliability, "twitter"), 0.0) >= 50.0
      && GetOr(Get(reliability, "reddit"), 0.0) >= 50.0
  {
    if successful == 0 then AllFailedAdvice
    else if average < 0.3 then LowConfidenceAdvice
    else if GetOr(Get(reliability, "twitter"), 0.0) < 50.0 then TwitterAdvice
    else if GetOr(Get(reliability, "reddit"), 0.0) < 50.0 then RedditAdvice
    else HealthyAdvice
  }

  function Get<K, V>(m: map<K, V>, k: K): (r: Option<V>)
    ensures r.Some? <==> k in m
    ensures r.Some? ==> r.value == m[k]
  {
    if k in m then Some(m[k]) else None
  }

  /** The first loop of the summary: entries with and without an
      exception, and the confidences of the former. */
  method CountOutcomes(entries: seq<Entry>) returns (successful: nat, failed: nat, confidences: seq<real>)
    ensures confidences == Confidences(entries)
    ensures successful == |confidences| && successful + failed == |entries|
  {
    successful, failed, confidences := 0, 0, [];
    for i := 0 to |entries|
      invariant confidences == Confidences(entries[..i])
      invariant successful == |confidences| && successful + failed == i
    {
      assert entries[..i + 1][..i] == entries[..i];
      match entries[i]
      case Completed(v) =>
        successful := successful + 1;
        confidences := confidences + [GetOr(v.confidence, 0.0)];
      case Raised(_) =>
        failed := failed + 1;
    }
    assert entries[..|entries|] == entries;
  }

  /** The second loop of the summary: the reliability of every source
      with an attempt. */
  method CollectReliability(perf: map<string, Counts>) returns (reliability: map<string, real>)
    ensures reliability == Reliability(perf)
  {
    reliability := map[];
    var pending := perf.Keys;
    while pending != {}
      invariant pending <= perf.Keys
      invariant forall k :: k in reliability <==> k in perf.Keys - pending && perf[k].attempts > 0
      invariant forall k :: k in reliability ==> reliability[k] == Rate(perf[k])
      decreases |pending|
    {
      var source :| source in pending;
      var data := perf[source];
      if data.attempts > 0 {
        reliability := reliability[source := Rate(data)];
      }
      pending := pending - {source};
    }
  }

  /** `_generate_simulation_summary(results)`. */
  method GenerateSimulationSummary(entries: seq<Entry>, perf: map<string, Counts>) returns (s: Summary)
    ensures s.total == |entries| && s.successful + s.failed == s.total
    ensures s.successful == |Confidences(entries)|
    ensures s.averageConfidence == AverageConfidence(Confidences(entries))
    ensures s.reliability == Reliability(perf)
    ensures s.recommendations == [Recommendation(s.successful, s.averageConfidence, s.reliability)]
  {
    var successful, failed, confidences := CountOutcomes(entries);
    var average := 0.0;
    if |confidences| > 0 {
      average := Round2(Sum(confidences) / |confidences| as real);
    }
    var reliability := CollectReliability(perf);
    var advice := Recommendation(successful, average, reliability);
    s := Summary(|entries|, successful, failed, average, reliability, [advice]);
  }

  /** With every confidence in [0, 1] the average confidence is in [0, 1]. */
  lemma AverageConfidenceWithin(entries: seq<Entry>)
    requires forall i :: 0 <= i < |Confidences(entries)| ==> 0.0 <= Confidences(entries)[i] <= 1.0
    ensures 0.0 <= AverageConfidence(Confidences(entries)) <= 1.0
  {
    var cs := Confidences(entries);
    if |cs| > 0 {
      MeanBounds(cs, 0.0, 1.0);
      RoundingStaysWithin(Mean(cs), 0, 1);
    }
  }

  /** Consistent counters give reliabilities between 0 and 100 percent. */
  lemma ReliabilityWithin(perf: map<string, Counts>, s: string)
    requires Consistent(perf) && s in Reliability(perf)
    ensures 0.0 <= Reliability(perf)[s] <= 100.0
  {
    RateWithin(perf[s]);
  }

  lemma RateWithin(c: Counts)
    requires 0 < c.attempts && c.successes <= c.attempts
    ensures 0.0 <= Rate(c) <= 100.0
  {
    var a := c.attempts as real;
    var q := c.successes as real / a;
    QuotientTimesDivisor(c.successes as real, a);
    QuotientNonNegative(c.successes as real, a);
    if q > 1.0 {
      ProdOne(a);
      ProdAddLeft(1.0, q - 1.0, a);
      SameSignProduct(q - 1.0, a);
    }
    RoundingStaysWithin(q * 100.0, 0, 100);
  }

  /** No success in any attempt is 0% reliability. */
  lemma NoSuccessRate(c: Counts)
    requires c.attempts > 0 && c.successes == 0
    ensures Rate(c) == 0.0
  {
    assert c.successes as real / c.attempts as real * 100.0 == 0.0;
  }

  /** After a series of predictions a source's reliability is the share of
      them that used it. */
  lemma ReplayedReliability(runs: seq<seq<string>>, s: string)
    requires s in AllSources && |runs| > 0
    ensures s in Reliability(Replay(runs))
    ensures Reliability(Replay(runs))[s] == Rate(Counts(|runs|, UsedCount(runs, s)))
  {
    ReplayCounts(runs, s);
  }

  // ---------------------------------------------------------------------
  // The simulator against the service it instantiates
  // ---------------------------------------------------------------------

  /** As written: every result of the service the simulator instantiates
      is analysed as a failed prediction, and no source is ever counted as
      successful. */
  lemma AiPredictionAnalysedAsFailed(r: AiPredictionService.PredictionResult, perf: map<string, Counts>)
    requires Tracked(perf)
    ensures QualityOf(ViewOfAiPrediction(r)).status == "failed"
    ensures forall s :: s in AllSources ==>
      Updated(perf, SourcesOf(ViewOfAiPrediction(r)))[s].successes == perf[s].successes
  {
  }

  /** As written, a simulation over any number of completed predictions
      ends with Twitter 0% reliable, so it never recommends the system as
      healthy. */
  lemma AsWrittenNeverHealthy(entries: seq<Entry>, runs: seq<seq<string>>)
    requires |runs| > 0 && forall i :: 0 <= i < |runs| ==> runs[i] == []
    ensures Recommendation(|Confidences(entries)|, AverageConfidence(Confidences(entries)),
                           Reliability(Replay(runs))) != HealthyAdvice
  {
    var perf := Replay(runs);
    ReplayCounts(runs, PredictionService.TwitterSource);
    NeverUsed(runs, PredictionService.TwitterSource);
    NoSuccessRate(perf[PredictionService.TwitterSource]);
    assert Get(Reliability(perf), "twitter") == Some(0.0);
  }

  lemma {:induction false} NeverUsed(runs: seq<seq<string>>, s: string)
    requires forall i :: 0 <= i < |runs| ==> runs[i] == []
    ensures UsedCount(runs, s) == 0
  {
    if |runs| > 0 {
      NeverUsed(runs[..|runs| - 1], s);
    }
  }

  /** Fed the reports it reads, the simulator judges a prediction by the
      report's own success flag, and counts exactly the sources the report
      used. */
  lemma ReportAnalysedBySuccess(r: PredictionService.Report, perf: map<string, Counts>)
    requires Tracked(perf)
    ensures QualityOf(ViewOfReport(r)).status == "success" <==> r.success
    ensures forall s :: s in AllSources ==>
      Updated(perf, SourcesOf(ViewOfReport(r)))[s].successes ==
        perf[s].successes + (if s in r.sourcesUsed then 1 else 0)
  {
  }

  /** A successful report with high confidence, all four sources and at
      least 20 posts is graded high. */
  lemma FullReportGradedHigh(r: PredictionService.Report)
    requires r.success && r.prediction.confidence >= 0.7 && |r.sourcesUsed| >= 4 && r.totalPostsAnalyzed >= 20
    ensures QualityOf(ViewOfReport(r)).overall == Some("high")
    ensures QualityOf(ViewOfReport(r)).score == 80
  {
  }

  // ---------------------------------------------------------------------
  // Sentiment summary
  // ---------------------------------------------------------------------

  datatype SentimentSummary = SentimentSummary(
    sentiment: string, impact: string, confidence: string, keyFactors: string)

  /** `_create_sentiment_summary(ai_analysis)`: the three labels and the
      first three key factors joined by ", ". The response always carries
      its analysis, so the "unknown" defaults never apply. */
  function CreateSentimentSummary(response: AiService.ImpactResponse): (s: SentimentSummary)
    ensures s.sentiment == response.analysis.sentiment && s.impact == response.analysis.impact
    ensures s.confidence == response.analysis.confidence
    ensures |response.analysis.keyFactors| <= 3 ==> s.keyFactors == Join(", ", response.analysis.keyFactors)
    ensures |response.analysis.keyFactors| > 3 ==> s.keyFactors == Join(", ", response.analysis.keyFactors[..3])
  {
    var a := response.analysis;
    assert |a.keyFactors| <= 3 ==> a.keyFactors[..Min(3, |a.keyFactors|)] == a.keyFactors;
    SentimentSummary(a.sentiment, a.impact, a.confidence,
                     Join(", ", a.keyFactors[..Min(3, |a.keyFactors|)]))
  }

  /** The summary of any analysis the service produces uses the
      normalised labels; when there are no posts it is the fallback's. */
  lemma SentimentSummaryLabels(posts: seq<Posts.Post>, ticker: string, clientAvailable: bool,
                               outcome: AiService.ClientOutcome)
    ensures var s := CreateSentimentSummary(AiService.AnalyzeSocialMediaImpact(posts, ticker, clientAvailable, outcome));
      s.sentiment in ValidSentiments && s.impact in ValidImpacts && s.confidence in ValidConfidences
    ensures |posts| == 0 ==>
      CreateSentimentSummary(AiService.AnalyzeSocialMediaImpact(posts, ticker, clientAvailable, outcome)) ==
        SentimentSummary("neutral", "minimal change", "low", AiService.FallbackKeyFactor)
  {
    AiService.AlwaysNormalised(posts, ticker, clientAvailable, outcome);
  }
}
