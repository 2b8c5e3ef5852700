/** The AI prediction service (app/prediction/ai_prediction_service.py):
    duplicate removal over the collected posts, the timeframe-to-days map,
    the data-quality summary, and `predict_price_movement` as the
    composition of the analysers. The fetches, the language-model client
    and the clock are inputs. */
module AiPredictionService {
  import opened Common
  import opened Posts
  import opened SentimentAnalyzer
  import TechnicalAnalyzer
  import SignalCombiner
  import ConfidenceCalculator
  import PricePrediction
  import AiService

  // ---------------------------------------------------------------------
  // Duplicate removal
  // ---------------------------------------------------------------------

  /** Posts whose first 100 characters agree count as the same content. */
  const ContentPrefix := 100

  /** `post.get('text', '')[:100]`. */
  function ContentKey(p: Post): string
  {
    SliceTo(p.text, ContentPrefix)
  }

  /** The `seen_ids` set after keeping `kept`: their truthy ids. */
  function SeenIds(kept: seq<Post>): set<string>
  {
    set q | q in kept && HasId(q) :: q.id.value
  }

  /** The `seen_content` set after keeping `kept`: their non-empty keys. */
  function SeenContent(kept: seq<Post>): set<string>
  {
    set q | q in kept && ContentKey(q) != "" :: ContentKey(q)
  }

  /** The skip test of the loop: a truthy id already seen, or a non-empty
      content key already seen. */
  predicate IsDuplicate(p: Post, kept: seq<Post>)
  {
    (HasId(p) && p.id.value in SeenIds(kept)) || (ContentKey(p) != "" && ContentKey(p) in SeenContent(kept))
  }

  /** The posts `_remove_duplicate_posts` keeps, in input order. */
  function Dedup(posts: seq<Post>): (r: seq<Post>)
    ensures |r| <= |posts|
  {
    if |posts| == 0 then []
    else
      var kept := Dedup(posts[..|posts| - 1]);
      var p := posts[|posts| - 1];
      if IsDuplicate(p, kept) then kept else kept + [p]
  }

  /** Two posts are the same for the loop when they share a truthy id or a
      non-empty content key. */
  predicate Clash(p: Post, q: Post)
  {
    (HasId(p) && HasId(q) && p.id.value == q.id.value) || (ContentKey(p) != "" && ContentKey(p) == ContentKey(q))
  }

  /** The set-based skip test agrees with "some kept post is the same". */
  lemma DuplicateIffClash(p: Post, kept: seq<Post>)
    ensures IsDuplicate(p, kept) <==> exists q :: q in kept && Clash(p, q)
  {
    if HasId(p) && p.id.value in SeenIds(kept) {
      var q :| q in kept && HasId(q) && q.id.value == p.id.value;
      assert Clash(p, q);
    }
    if ContentKey(p) != "" && ContentKey(p) in SeenContent(kept) {
      var q :| q in kept && ContentKey(q) != "" && ContentKey(q) == ContentKey(p);
      assert Clash(p, q);
    }
    if exists q :: q in kept && Clash(p, q) {
      var q :| q in kept && Clash(p, q);
      if HasId(p) && HasId(q) && p.id.value == q.id.value {
        assert p.id.value in SeenIds(kept);
      } else {
        assert ContentKey(p) in SeenContent(kept);
      }
    }
  }

  /** The positions in the input of the kept posts: `Dedup` is an
      order-preserving subsequence of its input. */
  function KeptPositions(posts: seq<Post>): (r: seq<nat>)
    ensures |r| == |Dedup(posts)|
    ensures forall k :: 0 <= k < |r| ==> r[k] < |posts| && Dedup(posts)[k] == posts[r[k]]
    ensures forall k, l :: 0 <= k < l < |r| ==> r[k] < r[l]
  {
    if |posts| == 0 then []
    else
      var init := posts[..|posts| - 1];
      var pos := KeptPositions(init);
      if IsDuplicate(posts[|posts| - 1], Dedup(init)) then pos else pos + [|posts| - 1]
  }

  /** No two kept posts share a truthy id or a non-empty content key. */
  predicate NoClashes(s: seq<Post>)
  {
    forall k, l :: 0 <= k < l < |s| ==> !Clash(s[k], s[l])
  }

  lemma {:induction false} DedupHasNoClashes(posts: seq<Post>)
    ensures NoClashes(Dedup(posts))
  {
    if |posts| > 0 {
      var init := posts[..|posts| - 1];
      DedupHasNoClashes(init);
      var kept := Dedup(init);
      var p := posts[|posts| - 1];
      if !IsDuplicate(p, kept) {
        DuplicateIffClash(p, kept);
        var r := kept + [p];
        forall k, l | 0 <= k < l < |r|
          ensures !Clash(r[k], r[l])
        {
          if l == |r| - 1 {
            assert r[k] in kept;
            assert !Clash(p, r[k]);
          } else {
            assert r[k] == kept[k] && r[l] == kept[l];
          }
        }
      }
    }
  }

  /** No post kept before a kept post is the same as it. */
  lemma KeptPostIsFirst(posts: seq<Post>, j: nat)
    requires j in KeptPositions(posts)
    ensures var pos := KeptPositions(posts);
      forall k :: 0 <= k < |pos| && pos[k] < j ==> !Clash(posts[j], posts[pos[k]])
  {
    var pos := KeptPositions(posts);
    var m :| 0 <= m < |pos| && pos[m] == j;
    DedupHasNoClashes(posts);
    forall k | 0 <= k < |pos| && pos[k] < j
      ensures !Clash(posts[j], posts[pos[k]])
    {
      assert k < m;
      assert !Clash(Dedup(posts)[k], Dedup(posts)[m]);
    }
  }

  /** A dropped post is the same as some post kept before it. */
  lemma {:induction false} DroppedPostClashes(posts: seq<Post>, j: nat)
    requires j < |posts| && j !in KeptPositions(posts)
    ensures var pos := KeptPositions(posts);
      exists k :: 0 <= k < |pos| && pos[k] < j && Clash(posts[j], posts[pos[k]])
  {
    var pos := KeptPositions(posts);
    var init := posts[..|posts| - 1];
    var prev := KeptPositions(init);
    assert pos[..|prev|] == prev;
    if j == |posts| - 1 {
      var kept := Dedup(init);
      var p := posts[|posts| - 1];
      assert IsDuplicate(p, kept);
      DuplicateIffClash(p, kept);
      var q :| q in kept && Clash(p, q);
      var k :| 0 <= k < |kept| && kept[k] == q;
      assert init[prev[k]] == posts[prev[k]];
      assert pos[k] == prev[k] < j && Clash(posts[j], posts[pos[k]]);
    } else {
      assert j !in prev;
      DroppedPostClashes(init, j);
      var k :| 0 <= k < |prev| && prev[k] < j && Clash(init[j], init[prev[k]]);
      assert pos[k] == prev[k] && Clash(posts[j], posts[pos[k]]);
    }
  }

  /** A post is kept exactly when no post kept before it is the same:
      duplicates lose to their first kept occurrence. */
  lemma FirstOccurrences(posts: seq<Post>, j: nat)
    requires j < |posts|
    ensures var pos := KeptPositions(posts);
      j in pos <==> !exists k :: 0 <= k < |pos| && pos[k] < j && Clash(posts[j], posts[pos[k]])
  {
    if j in KeptPositions(posts) {
      KeptPostIsFirst(posts, j);
    } else {
      DroppedPostClashes(posts, j);
    }
  }

  /** A post with no id and empty text is never a duplicate. */
  lemma AnonymousEmptyPostKept(posts: seq<Post>, j: nat)
    requires j < |posts| && !HasId(posts[j]) && posts[j].text == ""
    ensures j in KeptPositions(posts)
  {
    FirstOccurrences(posts, j);
  }

  /** A list with no two posts alike passes through unchanged. */
  lemma {:induction false} DedupOfDistinct(s: seq<Post>)
    requires NoClashes(s)
    ensures Dedup(s) == s
  {
    if |s| > 0 {
      var init := s[..|s| - 1];
      assert NoClashes(init) by {
        forall k, l | 0 <= k < l < |init| ensures !Clash(init[k], init[l]) {
          assert init[k] == s[k] && init[l] == s[l];
        }
      }
      DedupOfDistinct(init);
      DuplicateIffClash(s[|s| - 1], init);
      forall q | q in init ensures !Clash(s[|s| - 1], q) {
        var k :| 0 <= k < |init| && init[k] == q;
        assert !Clash(s[k], s[|s| - 1]);
      }
      assert init + [s[|s| - 1]] == s;
    }
  }

  /** Removing duplicates twice is removing them once. */
  lemma DedupIdempotent(posts: seq<Post>)
    ensures Dedup(Dedup(posts)) == Dedup(posts)
  {
    DedupHasNoClashes(posts);
    DedupOfDistinct(Dedup(posts));
  }

  lemma SeenAfterKeep(kept: seq<Post>, p: Post)
    ensures SeenIds(kept + [p]) == SeenIds(kept) + (if HasId(p) then {p.id.value} else {})
    ensures SeenContent(kept + [p]) == SeenContent(kept) + (if ContentKey(p) != "" then {ContentKey(p)} else {})
  {
    var after := kept + [p];
    assert forall q :: q in after <==> q in kept || q == p;
  }

  /** `_remove_duplicate_posts`: one pass keeping the two seen sets. */
  method RemoveDuplicatePosts(posts: seq<Post>) returns (unique: seq<Post>)
    ensures unique == Dedup(posts)
  {
    var seenIds: set<string> := {};
    var seenContent: set<string> := {};
    unique := [];
    var i := 0;
    while i < |posts|
      invariant 0 <= i <= |posts|
      invariant unique == Dedup(posts[..i])
      invariant seenIds == SeenIds(unique) && seenContent == SeenContent(unique)
    {
      var post := posts[i];
      var content := SliceTo(post.text, ContentPrefix);
      assert posts[..i + 1][..i] == posts[..i];
      if HasId(post) && post.id.value in seenIds {
      } else if content != "" && content in seenContent {
      } else {
        SeenAfterKeep(unique, post);
        unique := unique + [post];
        if HasId(post) {
          seenIds := seenIds + {post.id.value};
        }
        if content != "" {
          seenContent := seenContent + {content};
        }
      }
      i := i + 1;
    }
    assert posts[..|posts|] == posts;
  }

  // ---------------------------------------------------------------------
  // Prediction horizon and data quality
  // ---------------------------------------------------------------------

  /** `_get_prediction_days`: 1d, 1w and 1m name 1, 7 and 30 days; any
      other timeframe means one day. */
  function PredictionDays(timeframe: string): (r: nat)
    ensures r == 7 <==> timeframe == "1w"
    ensures r == 30 <==> timeframe == "1m"
    ensures r == 1 <==> timeframe != "1w" && timeframe != "1m"
  {
    match timeframe
    case "1d" => 1
    case "1w" => 7
    case "1m" => 30
    case _ => 1
  }

  const SufficientHistory := 10

  datatype DataQuality = DataQuality(
    totalPosts: nat,
    hasInfluencerPosts: bool,
    hasHighQualitySources: bool,
    platformDiversity: nat,
    historicalPoints: nat,
    hasSufficientData: bool,
    dataRecency: string)

  /** The platforms the posts come from. */
  function Platforms(posts: seq<Post>): set<string>
  {
    set p | p in posts :: p.platform
  }

  /** There are no more platforms than posts, and at least one when there
      is a post. */
  lemma {:induction false} PlatformsBound(posts: seq<Post>)
    ensures |Platforms(posts)| <= |posts|
    ensures |posts| > 0 ==> |Platforms(posts)| > 0
  {
    if |posts| > 0 {
      var init := posts[..|posts| - 1];
      PlatformsBound(init);
      assert Platforms(posts) == Platforms(init) + {posts[|posts| - 1].platform} by {
        assert forall p :: p in posts <==> p in init || p == posts[|posts| - 1];
      }
    }
  }

  /** `_assess_data_quality`, without the count of posts from the last 24
      hours, which reads the clock. */
  function AssessDataQuality(posts: seq<Post>, history: seq<PriceBar>): (r: DataQuality)
    ensures r.totalPosts == |posts| && r.historicalPoints == |history|
    ensures r.hasInfluencerPosts <==> exists i :: 0 <= i < |posts| && posts[i].authorType == Some("influencer")
    ensures r.hasHighQualitySources <==>
      exists i :: 0 <= i < |posts| && posts[i].authorType == Some("high_quality_subreddit")
    ensures r.platformDiversity == |Platforms(posts)|
    ensures r.platformDiversity <= |posts| && (r.platformDiversity == 0 <==> |posts| == 0)
    ensures r.hasSufficientData <==> |history| >= SufficientHistory
    ensures r.dataRecency == "none" <==> |history| == 0
    ensures r.dataRecency == "recent" <==> |history| > 0
  {
    PlatformsBound(posts);
    DataQuality(
      |posts|,
      exists p :: p in posts && p.authorType == Some("influencer"),
      exists p :: p in posts && p.authorType == Some("high_quality_subreddit"),
      |Platforms(posts)|,
      |history|,
      |history| >= SufficientHistory,
      if |history| > 0 then "recent" else "none")
  }

  // ---------------------------------------------------------------------
  // predict_price_movement
  // ---------------------------------------------------------------------

  /** What the collaborators hand back: the three fetches (each either data
      or the message of the exception it raised), whether the language-model
      client exists, and the outcome of its one call. */
  datatype Fetched = Fetched(
    history: Result<seq<PriceBar>>,
    socialPosts: Result<seq<Post>>,
    influencerPosts: Result<seq<Post>>,
    clientAvailable: bool,
    aiOutcome: AiService.ClientOutcome)

  /** The result mapping, without the two timestamps. */
  datatype PredictionResult = PredictionResult(
    ticker: string,
    timeframe: string,
    prediction: SignalCombiner.Combined,
    technicalSignals: TechnicalAnalyzer.TechnicalSignals,
    sentimentAnalysis: Analysis,
    confidence: real,
    predictedPrice: real,
    totalPostsAnalyzed: nat,
    socialPosts: nat,
    influencerPosts: nat,
    redditIncluded: bool,
    technicalPrediction: PricePrediction.TechnicalPrediction,
    combinedDetails: PricePrediction.CombinedPrediction,
    dataQuality: DataQuality,
    confidenceBreakdown: ConfidenceCalculator.Breakdown,
    rawAiResponse: string)

  /** The body of the `try`: the result, or the message of the first
      exception raised on the way. */
  function RunPipeline(ticker: string, timeframe: string, includeReddit: bool, f: Fetched): (r: Result<PredictionResult>)
  {
    match f.history
    case Err(e) => Err(e)
    case Ok(bars) =>
      match f.socialPosts
      case Err(e) => Err(e)
      case Ok(social) =>
        match f.influencerPosts
        case Err(e) => Err(e)
        case Ok(influencer) =>
          var unique := Dedup(social + influencer);
          var ai := AiService.AnalyzeSocialMediaImpact(unique, ticker, f.clientAvailable, f.aiOutcome);
          Assemble(ticker, timeframe, includeReddit, bars, social, influencer, ai)
  }

  /** The part of the `try` after the three fetches and the AI analysis of
      the distinct posts. */
  function Assemble(ticker: string, timeframe: string, includeReddit: bool, bars: seq<PriceBar>,
                    social: seq<Post>, influencer: seq<Post>, ai: AiService.ImpactResponse)
    : (r: Result<PredictionResult>)
  {
    var unique := Dedup(social + influencer);
    var payload := SignalCombiner.Record(AsRecord(ai.analysis));
    var technical := TechnicalAnalyzer.CalculateTechnicalIndicators(bars);
    var prediction := SignalCombiner.CombineSignals(technical, payload);
    var labels := ConfidenceCalculator.Mapping(SignalCombiner.LabelsOf(prediction));
    var quality := ConfidenceCalculator.Mapping(Some(technical.dataQuality));
    var confidence := ConfidenceCalculator.CalculateConfidence(labels, payload, quality, |unique|);
    var current := technical.latestPrice;
    match PricePrediction.CalculateTechnicalPrediction(bars, PredictionDays(timeframe))
    case Err(e) => Err(e)
    case Ok(techPred) =>
      match PricePrediction.CombinePredictions(Some(prediction.direction), Some(confidence), techPred, current)
      case Err(e) => Err(e)
      case Ok(combined) =>
        Ok(PredictionResult(
          ticker, timeframe, prediction, technical, ai.analysis, confidence, combined.predictedPrice,
          |unique|, |social|, |influencer|, includeReddit, techPred, combined,
          AssessDataQuality(unique, bars),
          ConfidenceCalculator.GetConfidenceBreakdown(labels, payload, quality, |unique|),
          GetOr(ai.rawResponse, "")))
  }

  /** The message of the AttributeError raised by the `except` branch, which
      calls a method the class does not have. */
  const MissingMethodError := "'AIPredictionService' object has no attribute '_create_error_response'"

  /** `predict_price_movement` as written: the error response lives at
      module level, so on any exception the handler itself raises. */
  function PredictPriceMovementAsWritten(ticker: string, timeframe: string, includeReddit: bool, f: Fetched)
    : (r: Result<PredictionResult>)
    ensures r.Err? ==> r.error == MissingMethodError
    ensures r.Ok? <==> RunPipeline(ticker, timeframe, includeReddit, f).Ok?
  {
    match RunPipeline(ticker, timeframe, includeReddit, f)
    case Ok(result) => Ok(result)
    case Err(_) => Err(MissingMethodError)
  }

  /** What the service answers: a prediction, or the fixed error response. */
  datatype Response =
    | Prediction(result: PredictionResult)
    | ErrorResponse(
        ticker: string,
        timeframe: string,
        direction: string,
        sentiment: string,
        confidence: real,
        reasoning: string,
        technicalTrend: string,
        latestPrice: real,
        sentimentAnalysis: Analysis,
        errorOccurred: bool,
        errorDetails: string)

  const ErrorConfidence: real := 0.1
  const ErrorReasoningPrefix := "Fallback response due to error: "

  /** `_create_error_response(ticker, timeframe, error_message)`. */
  function CreateErrorResponse(ticker: string, timeframe: string, message: string): (r: Response)
    ensures r.ErrorResponse? && r.ticker == ticker && r.timeframe == timeframe
    ensures r.direction == "neutral" && r.sentiment == "neutral" && r.technicalTrend == "neutral"
    ensures r.confidence == ErrorConfidence && r.latestPrice == 0.0
    ensures r.reasoning == ErrorReasoningPrefix + message
    ensures r.errorOccurred && r.errorDetails == message
    ensures r.sentimentAnalysis.keyFactors == [] && r.sentimentAnalysis.patterns == []
  {
    ErrorResponse(ticker, timeframe, "neutral", "neutral", ErrorConfidence, ErrorReasoningPrefix + message,
                  "neutral", 0.0,
                  Analysis("neutral", "low", "low", [], [], "No social media data available"),
                  true, message)
  }

  /** `predict_price_movement` with the error response reachable, as the
      handler evidently intends. */
  function PredictPriceMovement(ticker: string, timeframe: string, includeReddit: bool, f: Fetched): (r: Response)
    ensures r.Prediction? <==> RunPipeline(ticker, timeframe, includeReddit, f).Ok?
    ensures r.Prediction? ==> r.result == RunPipeline(ticker, timeframe, includeReddit, f).value
    ensures r.ErrorResponse? ==>
      r == CreateErrorResponse(ticker, timeframe, RunPipeline(ticker, timeframe, includeReddit, f).error)
  {
    match RunPipeline(ticker, timeframe, includeReddit, f)
    case Ok(result) => Prediction(result)
    case Err(e) => CreateErrorResponse(ticker, timeframe, e)
  }

  /** The two versions agree on success, and wherever the intended one
      answers with the error response the one as written raises. */
  lemma AsWrittenRaisesWhereErrorResponseIntended(ticker: string, timeframe: string, includeReddit: bool, f: Fetched)
    ensures var fixed := PredictPriceMovement(ticker, timeframe, includeReddit, f);
      var asWritten := PredictPriceMovementAsWritten(ticker, timeframe, includeReddit, f);
      (fixed.Prediction? ==> asWritten == Ok(fixed.result)) &&
      (fixed.ErrorResponse? ==> asWritten == Err(MissingMethodError))
  {
  }

  /** A history of five to thirty bars whose first close is zero (a bar
      without a close counts as zero) makes the daily returns divide by
      zero: the intended answer is the error response carrying that
      message; the code as written raises instead. */
  lemma ZeroCloseRaises(ticker: string, timeframe: string, f: Fetched, bars: seq<PriceBar>)
    requires f.history == Ok(bars) && f.socialPosts.Ok? && f.influencerPosts.Ok?
    requires PricePrediction.MinBars <= |bars| <= PricePrediction.WindowCap && CloseOf(bars[0]) == 0.0
    ensures PredictPriceMovementAsWritten(ticker, timeframe, true, f) == Err(MissingMethodError)
    ensures PredictPriceMovement(ticker, timeframe, true, f).errorDetails == PricePrediction.ZeroDivision
  {
    var w := PricePrediction.Window(bars);
    assert w[..|w| - 1][0] == 0.0;
  }

  /** The pipeline fails only where one of its steps raises: a fetch, the
      regression over a window with a zero close before its end, or a
      technical projection set against a zero latest price. */
  lemma PipelineFailsOnlyAtTheseSteps(ticker: string, timeframe: string, includeReddit: bool, f: Fetched)
    ensures RunPipeline(ticker, timeframe, includeReddit, f).Err? <==>
      || f.history.Err? || f.socialPosts.Err? || f.influencerPosts.Err?
      || (var bars := f.history.value;
          var tech := PricePrediction.CalculateTechnicalPrediction(bars, PredictionDays(timeframe));
          || (|bars| >= PricePrediction.MinBars && PricePrediction.DividesByZero(PricePrediction.Window(bars)))
          || (tech.Ok? && tech.value.predictedPrice.Some? &&
              TechnicalAnalyzer.CalculateTechnicalIndicators(bars).latestPrice == 0.0))
  {
  }

  /** What a successful prediction guarantees: the confidence lies in
      [0.1, 0.95], every post counted is a distinct post from the two
      fetches, the direction is one of the five labels, and the sentiment
      analysis uses the normalised vocabularies. */
  lemma PredictionGuarantees(ticker: string, timeframe: string, includeReddit: bool, f: Fetched)
    requires RunPipeline(ticker, timeframe, includeReddit, f).Ok?
    ensures var r := RunPipeline(ticker, timeframe, includeReddit, f).value;
      && ConfidenceCalculator.MinConfidence <= r.confidence <= ConfidenceCalculator.MaxConfidence
      && r.totalPostsAnalyzed <= r.socialPosts + r.influencerPosts
      && r.dataQuality.totalPosts == r.totalPostsAnalyzed
      && NoClashes(Dedup(f.socialPosts.value + f.influencerPosts.value))
      && r.prediction.direction in SignalCombiner.Directions
      && InVocabulary(r.sentimentAnalysis)
      && r.predictedPrice == r.combinedDetails.predictedPrice
      && r.combinedDetails.aiContribution == r.prediction.direction
  {
    var unique := Dedup(f.socialPosts.value + f.influencerPosts.value);
    var ai := AiService.AnalyzeSocialMediaImpact(unique, ticker, f.clientAvailable, f.aiOutcome);
    AiService.AlwaysNormalised(unique, ticker, f.clientAvailable, f.aiOutcome);
    AssembledGuarantees(ticker, timeframe, includeReddit, f.history.value, f.socialPosts.value,
                        f.influencerPosts.value, ai);
  }

  lemma AssembledGuarantees(ticker: string, timeframe: string, includeReddit: bool, bars: seq<PriceBar>,
                            social: seq<Post>, influencer: seq<Post>, ai: AiService.ImpactResponse)
    requires InVocabulary(ai.analysis)
    requires Assemble(ticker, timeframe, includeReddit, bars, social, influencer, ai).Ok?
    ensures var r := Assemble(ticker, timeframe, includeReddit, bars, social, influencer, ai).value;
      && ConfidenceCalculator.MinConfidence <= r.confidence <= ConfidenceCalculator.MaxConfidence
      && r.totalPostsAnalyzed <= r.socialPosts + r.influencerPosts
      && r.dataQuality.totalPosts == r.totalPostsAnalyzed
      && NoClashes(Dedup(social + influencer))
      && r.prediction.direction in SignalCombiner.Directions
      && InVocabulary(r.sentimentAnalysis)
      && r.predictedPrice == r.combinedDetails.predictedPrice
      && r.combinedDetails.aiContribution == r.prediction.direction
  {
    DedupHasNoClashes(social + influencer);
  }

  /** The error response the handler intends does not use the normalised
      impact vocabulary: its impact label is "low". */
  lemma ErrorResponseImpactOutsideVocabulary(ticker: string, timeframe: string, message: string)
    ensures !InVocabulary(CreateErrorResponse(ticker, timeframe, message).sentimentAnalysis)
  {
  }
}
