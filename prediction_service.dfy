/** The four-source prediction service (app/prediction_service.py): price
    history, Twitter, Reddit and the AI analysis are each attempted on their
    own, a failed platform is remembered until an explicit reset, and the
    sources that answered are scored into a recommendation. The services it
    calls are abstracted: the outcome of each call is an input. */
module PredictionService {
  import opened Common
  import opened Posts
  import opened SentimentAnalyzer
  import SocialMediaService

  const HistoricalSource := "historical"
  const TwitterSource := "twitter"
  const RedditSource := "reddit"
  const AiSource := "ai_analysis"

  /** Every post request asks the social-media service for this many. */
  const PostsLimit: nat := 25

  /** The days of history requested for a timeframe. */
  function LookbackDays(timeframe: string): (r: nat)
    ensures r == 90 <==> timeframe == "1w"
    ensures r == 365 <==> timeframe == "1m"
    ensures r == 30 <==> timeframe != "1w" && timeframe != "1m"
  {
    if timeframe == "1d" then 30
    else if timeframe == "1w" then 90
    else if timeframe == "1m" then 365
    else 30
  }

  // ---------------------------------------------------------------------
  // Calls and collected data
  // ---------------------------------------------------------------------

  /** A call the service issues. */
  datatype Request =
    | HistoryRequest(ticker: string, days: nat)
    | PostsRequest(ticker: string, limit: nat, includeReddit: bool)
    | AiRequest(posts: seq<Post>, ticker: string)

  /** What `analyze_social_media_impact` did: returned a result holding an
      "ai_analysis" entry (`Some`) or not (`None`), or raised. */
  datatype AiCall = Returned(analysis: Option<AiRecord>) | Raised(message: string)

  /** The outcome each call would have if it were issued. */
  datatype Fetches = Fetches(
    history: Result<seq<PriceBar>>,
    twitterCall: Result<seq<Post>>,
    redditCall: Result<seq<Post>>,
    aiCall: AiCall)

  /** The `data` dictionary `_collect_all_sources` returns. */
  datatype Collected = Collected(
    historical: seq<PriceBar>,
    twitter: seq<Post>,
    reddit: seq<Post>,
    aiAnalysis: AiRecord,
    successfulSources: seq<string>)

  /** The posts of one platform, in order. */
  function PlatformPosts(posts: seq<Post>, platform: string): (r: seq<Post>)
    ensures forall p :: p in r <==> p in posts && p.platform == platform
    ensures |r| <= |posts|
  {
    if |posts| == 0 then []
    else (if posts[0].platform == platform then [posts[0]] else []) + PlatformPosts(posts[1..], platform)
  }

  /** The posts one social-media call contributes: the posts of its
      platform when it was issued and returned, nothing otherwise. */
  function Contribution(asked: bool, call: Result<seq<Post>>, platform: string): seq<Post>
  {
    if asked && call.Ok? then PlatformPosts(call.value, platform) else []
  }

  /** The analysis recorded when the AI call raised. */
  function AiFailureRecord(message: string): (r: AiRecord)
    ensures r.sentiment == Some("neutral") && r.impact == Some("minimal change") && r.confidence == Some("low")
    ensures r.reasoning == Some("AI analysis failed: " + message)
    ensures r.keyFactors.None? && r.patterns.None?
  {
    AiRecord(Some("neutral"), Some("minimal change"), Some("low"), None, None, Some("AI analysis failed: " + message))
  }

  /** The analysis stored after the AI step: the returned analysis, the
      failure record when the call raised, the empty object otherwise. */
  function AiOutcome(asked: bool, call: AiCall): AiRecord
  {
    if !asked then EmptyRecord
    else match call
      case Returned(None) => EmptyRecord
      case Returned(Some(rec)) => rec
      case Raised(m) => AiFailureRecord(m)
  }

  /** The AI step runs when the services exist and some posts or some
      history were collected. */
  predicate AiAsked(servicesAvailable: bool, data: Collected)
  {
    servicesAvailable && (|data.twitter| + |data.reddit| > 0 || |data.historical| > 0)
  }

  function When<T>(b: bool, x: T): (r: seq<T>)
    ensures b ==> r == [x]
    ensures !b ==> r == []
  {
    if b then [x] else []
  }

  /** The position of each source name in collection order. */
  function SourceRank(name: string): int
  {
    if name == HistoricalSource then 0
    else if name == TwitterSource then 1
    else if name == RedditSource then 2
    else if name == AiSource then 3
    else 4
  }

  /** The names of the sources that answered, in collection order. */
  function SourcesInOrder(h: bool, t: bool, r: bool, a: bool): (s: seq<string>)
    ensures HistoricalSource in s <==> h
    ensures TwitterSource in s <==> t
    ensures RedditSource in s <==> r
    ensures AiSource in s <==> a
    ensures |s| <= 4
  {
    When(h, HistoricalSource) + When(t, TwitterSource) + When(r, RedditSource) + When(a, AiSource)
  }

  /** Each name comes strictly after the ones before it in collection order. */
  predicate Ranked(s: seq<string>)
  {
    forall i, j :: 0 <= i < j < |s| ==> SourceRank(s[i]) < SourceRank(s[j])
  }

  lemma RankedAppend(s: seq<string>, x: string)
    requires Ranked(s) && forall y :: y in s ==> SourceRank(y) < SourceRank(x)
    ensures Ranked(s + [x])
  {
  }

  /** The sources are always listed in the order historical, twitter,
      reddit, ai_analysis, each at most once. */
  lemma SourcesRanked(h: bool, t: bool, r: bool, a: bool)
    ensures Ranked(SourcesInOrder(h, t, r, a))
  {
    var s1 := When(h, HistoricalSource);
    var s2 := s1 + When(t, TwitterSource);
    var s3 := s2 + When(r, RedditSource);
    if t { RankedAppend(s1, TwitterSource); }
    if r { RankedAppend(s2, RedditSource); }
    if a { RankedAppend(s3, AiSource); }
  }

  // ---------------------------------------------------------------------
  // Scoring
  // ---------------------------------------------------------------------

  /** The recommendation from the AI labels: a positive sentiment with an
      increase, a negative sentiment with a decrease, or hold. */
  function MovementDirection(sentiment: string, impact: string): (r: string)
    ensures r == "buy" <==> (sentiment == "very positive" || sentiment == "positive") && Contains(impact, "increase")
    ensures r == "sell" <==> !(r == "buy") && (sentiment == "very negative" || sentiment == "negative") && Contains(impact, "decrease")
    ensures r == "buy" || r == "sell" || r == "hold"
  {
    if sentiment in ["very positive", "positive"] && Contains(impact, "increase") then "buy"
    else if sentiment in ["very negative", "negative"] && Contains(impact, "decrease") then "sell"
    else "hold"
  }

  /** Extra confidence for the number of posts. */
  function PostsBonus(posts: nat): real
  {
    if posts >= 15 then 0.2 else if posts >= 5 then 0.1 else 0.0
  }

  /** Extra confidence for the number of history points. */
  function HistoryBonus(points: nat): real
  {
    if points >= 20 then 0.2 else if points >= 10 then 0.1 else 0.0
  }

  /** 0.2 per source that answered, plus the volume bonuses, capped at 1. */
  function SourceConfidence(sources: nat, posts: nat, points: nat): (c: real)
    ensures c <= 1.0
    ensures sources >= 1 ==> 0.2 <= c
    ensures c == 1.0 || c == 0.2 * sources as real + PostsBonus(posts) + HistoryBonus(points)
    ensures 0.2 * sources as real + PostsBonus(posts) + HistoryBonus(points) <= 1.0 ==>
      c == 0.2 * sources as real + PostsBonus(posts) + HistoryBonus(points)
    ensures 0.2 * sources as real + PostsBonus(posts) + HistoryBonus(points) >= 1.0 ==> c == 1.0
  {
    MinReal(0.2 * sources as real + PostsBonus(posts) + HistoryBonus(points), 1.0)
  }

  /** More sources, more posts or more history never lower the confidence. */
  lemma ConfidenceMonotone(s1: nat, p1: nat, h1: nat, s2: nat, p2: nat, h2: nat)
    requires s1 <= s2 && p1 <= p2 && h1 <= h2
    ensures SourceConfidence(s1, p1, h1) <= SourceConfidence(s2, p2, h2)
  {
    assert PostsBonus(p1) <= PostsBonus(p2);
    assert HistoryBonus(h1) <= HistoryBonus(h2);
    assert 0.2 * s1 as real <= 0.2 * s2 as real;
  }

  datatype Prediction = Prediction(direction: string, confidence: real, reasoning: string)

  /** The result of `_generate_prediction`; the prediction time is left out. */
  datatype Report = Report(
    ticker: string,
    timeframe: string,
    prediction: Prediction,
    sourcesUsed: seq<string>,
    totalPostsAnalyzed: nat,
    historicalDataPoints: nat,
    sentiment: string,
    success: bool)

  const AllFailedReasoning := "All data sources failed"

  /** The parts of the reasoning text: the source count first, the post and
      history counts when non-zero, the AI sentiment last. */
  function ReasoningParts(sources: nat, posts: nat, points: nat, sentiment: string): (r: seq<string>)
    ensures |r| >= 2
    ensures r[0] == "Based on " + NatToString(sources) + " data sources"
    ensures r[|r| - 1] == "AI analysis: " + sentiment + " sentiment"
    ensures |r| == 2 + (if posts > 0 then 1 else 0) + (if points > 0 then 1 else 0)
  {
    ["Based on " + NatToString(sources) + " data sources"]
      + When(posts > 0, NatToString(posts) + " social media posts")
      + When(points > 0, NatToString(points) + " historical data points")
      + ["AI analysis: " + sentiment + " sentiment"]
  }

  /** `_generate_prediction(ticker, data, start_time)`. */
  function GeneratePrediction(ticker: string, data: Collected): (r: Report)
    ensures r.success <==> |data.successfulSources| > 0
    ensures r.sourcesUsed == data.successfulSources
    ensures r.totalPostsAnalyzed == |data.twitter| + |data.reddit| && r.historicalDataPoints == |data.historical|
    ensures r.timeframe == "1d"
    ensures !r.success ==> r.prediction == Prediction("hold", 0.0, AllFailedReasoning)
    ensures r.success ==>
      && r.prediction.direction == MovementDirection(GetOr(data.aiAnalysis.sentiment, "neutral"), GetOr(data.aiAnalysis.impact, "minimal change"))
      && r.prediction.confidence == SourceConfidence(|data.successfulSources|, |data.twitter| + |data.reddit|, |data.historical|)
      && 0.2 <= r.prediction.confidence <= 1.0
  {
    var sources := data.successfulSources;
    var posts := |data.twitter| + |data.reddit|;
    var points := |data.historical|;
    var sentiment := GetOr(data.aiAnalysis.sentiment, "neutral");
    if |sources| == 0 then
      Report(ticker, "1d", Prediction("hold", 0.0, AllFailedReasoning), sources, posts, points, sentiment, false)
    else
      var impact := GetOr(data.aiAnalysis.impact, "minimal change");
      var prediction := Prediction(
        MovementDirection(sentiment, impact),
        SourceConfidence(|sources|, posts, points),
        Join("; ", ReasoningParts(|sources|, posts, points, sentiment)));
      Report(ticker, "1d", prediction, sources, posts, points, sentiment, true)
  }

  /** `get_service_status()`. */
  datatype ServiceStatus = ServiceStatus(overallStatus: string, twitterAvailable: bool, redditAvailable: bool, canAnalyze: bool)

  const MissingFlagError := "'PredictionService' object has no attribute 'twitter_failed'"

  // ---------------------------------------------------------------------
  // The service
  // ---------------------------------------------------------------------

  class PredictionService {
    /** Whether the three services could be built; when one of them could
        not, all three are left unset. */
    const servicesAvailable: bool
    var twitterFailed: bool
    var redditFailed: bool
    /** The failure flags are only assigned when construction succeeded,
        or later by `reset_failures`. */
    var flagsDefined: bool

    constructor(servicesBuilt: bool)
      ensures servicesAvailable == servicesBuilt
      ensures flagsDefined == servicesBuilt
      ensures !twitterFailed && !redditFailed
    {
      servicesAvailable := servicesBuilt;
      twitterFailed := false;
      redditFailed := false;
      flagsDefined := servicesBuilt;
    }

    predicate AsksTwitter(includePosts: bool)
      reads this
    {
      servicesAvailable && includePosts && !twitterFailed
    }

    predicate AsksReddit(includeReddit: bool, includePosts: bool)
      reads this
    {
      servicesAvailable && includePosts && includeReddit && !redditFailed
    }

    /** The Twitter step: skipped when posts are off, the services are
        missing or Twitter has failed before; a rate-limit failure marks
        Twitter failed. */
    method AskTwitter(includePosts: bool, call: Result<seq<Post>>) returns (posts: seq<Post>, asked: bool)
      modifies this
      ensures asked == old(AsksTwitter(includePosts))
      ensures posts == Contribution(asked, call, TwitterSource)
      ensures twitterFailed == (old(twitterFailed) || (asked && call.Err? && SocialMediaService.TwitterTrips(call.error)))
      ensures redditFailed == old(redditFailed) && flagsDefined == old(flagsDefined)
    {
      posts := [];
      asked := AsksTwitter(includePosts);
      if asked {
        match call {
          case Ok(fetched) =>
            posts := PlatformPosts(fetched, TwitterSource);
          case Err(message) =>
            if SocialMediaService.TwitterTrips(message) {
              twitterFailed := true;
            }
        }
      }
    }

    /** The Reddit step: as for Twitter, with Reddit's own switch and the
        403 rule. */
    method AskReddit(includeReddit: bool, includePosts: bool, call: Result<seq<Post>>) returns (posts: seq<Post>, asked: bool)
      modifies this
      ensures asked == old(AsksReddit(includeReddit, includePosts))
      ensures posts == Contribution(asked, call, RedditSource)
      ensures redditFailed == (old(redditFailed) || (asked && call.Err? && SocialMediaService.RedditTrips(call.error)))
      ensures twitterFailed == old(twitterFailed) && flagsDefined == old(flagsDefined)
    {
      posts := [];
      asked := AsksReddit(includeReddit, includePosts);
      if asked {
        match call {
          case Ok(fetched) =>
            posts := PlatformPosts(fetched, RedditSource);
          case Err(message) =>
            if SocialMediaService.RedditTrips(message) {
              redditFailed := true;
            }
        }
      }
    }

    /** `_collect_all_sources(ticker, timeframe, include_reddit, include_posts)`. */
    method CollectAllSources(ticker: string, timeframe: string, includeReddit: bool, includePosts: bool, f: Fetches)
      returns (data: Collected, requests: seq<Request>)
      modifies this
      ensures data.historical == (if servicesAvailable && f.history.Ok? then f.history.value else [])
      ensures data.twitter == Contribution(old(AsksTwitter(includePosts)), f.twitterCall, TwitterSource)
      ensures data.reddit == Contribution(old(AsksReddit(includeReddit, includePosts)), f.redditCall, RedditSource)
      ensures data.aiAnalysis == AiOutcome(AiAsked(servicesAvailable, data), f.aiCall)
      ensures data.successfulSources == SourcesInOrder(|data.historical| > 0, |data.twitter| > 0, |data.reddit| > 0,
                                                       AiAsked(servicesAvailable, data) && f.aiCall.Returned? && f.aiCall.analysis.Some?)
      ensures requests == When(servicesAvailable, HistoryRequest(ticker, LookbackDays(timeframe)))
                          + When(old(AsksTwitter(includePosts)), PostsRequest(ticker, PostsLimit, false))
                          + When(old(AsksReddit(includeReddit, includePosts)), PostsRequest(ticker, PostsLimit, true))
                          + When(AiAsked(servicesAvailable, data), AiRequest(data.twitter + data.reddit, ticker))
      ensures twitterFailed == (old(twitterFailed) ||
        (old(AsksTwitter(includePosts)) && f.twitterCall.Err? && SocialMediaService.TwitterTrips(f.twitterCall.error)))
      ensures redditFailed == (old(redditFailed) ||
        (old(AsksReddit(includeReddit, includePosts)) && f.redditCall.Err? && SocialMediaService.RedditTrips(f.redditCall.error)))
      ensures flagsDefined == old(flagsDefined)
    {
      var historical: seq<PriceBar> := [];
      if servicesAvailable && f.history.Ok? {
        historical := f.history.value;
      }
      requests := When(servicesAvailable, HistoryRequest(ticker, LookbackDays(timeframe)));
      var sources := When(|historical| > 0, HistoricalSource);

      var twitter, askedTwitter := AskTwitter(includePosts, f.twitterCall);
      requests := requests + When(askedTwitter, PostsRequest(ticker, PostsLimit, false));
      sources := sources + When(|twitter| > 0, TwitterSource);

      var reddit, askedReddit := AskReddit(includeReddit, includePosts, f.redditCall);
      requests := requests + When(askedReddit, PostsRequest(ticker, PostsLimit, true));
      sources := sources + When(|reddit| > 0, RedditSource);

      var aiAsked := servicesAvailable && (|twitter| + |reddit| > 0 || |historical| > 0);
      var aiAnalysis := EmptyRecord;
      var aiAnswered := false;
      if aiAsked {
        match f.aiCall {
          case Returned(Some(rec)) =>
            aiAnalysis := rec;
            aiAnswered := true;
          case Returned(None) =>
          case Raised(message) =>
            aiAnalysis := AiFailureRecord(message);
        }
      }
      requests := requests + When(aiAsked, AiRequest(twitter + reddit, ticker));
      sources := sources + When(aiAnswered, AiSource);

      data := Collected(historical, twitter, reddit, aiAnalysis, sources);
    }

    /** `predict_price_movement(ticker, timeframe, include_reddit, include_posts)`. */
    method PredictPriceMovement(ticker: string, timeframe: string, includeReddit: bool, includePosts: bool, f: Fetches)
      returns (r: Report, requests: seq<Request>, ghost data: Collected)
      modifies this
      ensures r == GeneratePrediction(ticker, data)
      ensures data.historical == (if servicesAvailable && f.history.Ok? then f.history.value else [])
      ensures data.twitter == Contribution(old(AsksTwitter(includePosts)), f.twitterCall, TwitterSource)
      ensures data.reddit == Contribution(old(AsksReddit(includeReddit, includePosts)), f.redditCall, RedditSource)
      ensures data.aiAnalysis == AiOutcome(AiAsked(servicesAvailable, data), f.aiCall)
      ensures data.successfulSources == SourcesInOrder(|data.historical| > 0, |data.twitter| > 0, |data.reddit| > 0,
                                                       AiAsked(servicesAvailable, data) && f.aiCall.Returned? && f.aiCall.analysis.Some?)
      ensures r.success ==> 0.2 <= r.prediction.confidence <= 1.0
      ensures !r.success ==> r.prediction == Prediction("hold", 0.0, AllFailedReasoning)
      ensures !servicesAvailable ==> !r.success && requests == []
      ensures old(twitterFailed) ==> twitterFailed
      ensures old(redditFailed) ==> redditFailed
      ensures old(twitterFailed) ==> PostsRequest(ticker, PostsLimit, false) !in requests
      ensures old(redditFailed) ==> PostsRequest(ticker, PostsLimit, true) !in requests
    {
      var collected;
      collected, requests := CollectAllSources(ticker, timeframe, includeReddit, includePosts, f);
      data := collected;
      r := GeneratePrediction(ticker, collected);
    }

    /** `get_service_status()`: degraded exactly when both platforms have
        failed; reading the flags before they exist raises. */
    function GetServiceStatus(): (r: Result<ServiceStatus>)
      reads this
      ensures r.Err? <==> !flagsDefined
      ensures r.Ok? ==>
        && (r.value.overallStatus == "degraded" <==> twitterFailed && redditFailed)
        && (r.value.overallStatus == "operational" <==> !(twitterFailed && redditFailed))
        && r.value.twitterAvailable == !twitterFailed
        && r.value.redditAvailable == !redditFailed
        && r.value.canAnalyze
    {
      if !flagsDefined then Err(MissingFlagError)
      else Ok(ServiceStatus(if !(twitterFailed && redditFailed) then "operational" else "degraded",
                            !twitterFailed, !redditFailed, true))
    }

    /** `reset_failures()`. */
    method ResetFailures()
      modifies this
      ensures !twitterFailed && !redditFailed && flagsDefined
    {
      twitterFailed := false;
      redditFailed := false;
      flagsDefined := true;
    }
  }
}
