/** Turning the language model's reply into a sentiment analysis with labels
    from closed vocabularies: JSON replies are normalised, free text is
    scanned for keywords, and errors give a fixed fallback. */
module SentimentAnalyzer {
  import opened Common
  import opened Posts

  const ValidSentiments: seq<string> := ["very negative", "negative", "neutral", "positive", "very positive"]
  const ValidImpacts: seq<string> := ["significant decrease", "moderate decrease", "minimal change", "moderate increase", "significant increase"]
  const ValidConfidences: seq<string> := ["low", "medium", "high"]

  /** The fields of a decoded JSON object that the services read; `None`
      when the key is absent. A label holds the text `str()` gives for the
      JSON value. */
  datatype AiRecord = AiRecord(
    sentiment: Option<string>,
    impact: Option<string>,
    confidence: Option<string>,
    keyFactors: Option<seq<string>>,
    patterns: Option<seq<string>>,
    reasoning: Option<string>)

  const EmptyRecord := AiRecord(None, None, None, None, None, None)

  /** A decoded JSON value: an object, or some other value (a list, a
      number, a string, null) named by its Python type. */
  datatype Json = Object(record: AiRecord) | NonObject(typeName: string)

  /** The outcome of the JSON attempts on a reply: the value decoded by the
      first attempt that succeeds (the whole reply, a fenced ```json block,
      or the outermost braces), or `NotJson` when none does. */
  datatype Decoding = Decoded(value: Json) | NotJson

  /** A normalised analysis. */
  datatype Analysis = Analysis(
    sentiment: string,
    impact: string,
    confidence: string,
    keyFactors: seq<string>,
    patterns: seq<string>,
    reasoning: string)

  predicate InVocabulary(a: Analysis)
  {
    a.sentiment in ValidSentiments && a.impact in ValidImpacts && a.confidence in ValidConfidences
  }

  /** An analysis seen as a JSON object with every key present. */
  function AsRecord(a: Analysis): AiRecord
  {
    AiRecord(Some(a.sentiment), Some(a.impact), Some(a.confidence), Some(a.keyFactors), Some(a.patterns), Some(a.reasoning))
  }

  /** The text of the AttributeError raised by `.get` on a non-object. */
  function NoGetError(typeName: string): string
  {
    "'" + typeName + "' object has no attribute 'get'"
  }

  // ---------------------------------------------------------------------
  // Normalisation
  // ---------------------------------------------------------------------

  lemma VocabulariesAreLowerCase()
    ensures forall v :: v in ValidSentiments ==> HasNoUpper(v)
    ensures forall v :: v in ValidImpacts ==> HasNoUpper(v)
    ensures forall v :: v in ValidConfidences ==> HasNoUpper(v)
  {
    SentimentsAreLowerCase();
    ImpactsAreLowerCase();
  }

  lemma SentimentsAreLowerCase()
    ensures forall v :: v in ValidSentiments ==> HasNoUpper(v)
  {
  }

  lemma ImpactsAreLowerCase()
    ensures forall v :: v in ValidImpacts ==> HasNoUpper(v)
  {
  }

  /** Sentiment repair on the lower-cased label. */
  function NormalizeSentiment(raw: string): (r: string)
    ensures r in ValidSentiments
    ensures Lower(raw) in ValidSentiments ==> r == Lower(raw)
    ensures Lower(raw) !in ValidSentiments ==>
      var s := Lower(raw);
      && (r == "very positive" <==> Contains(s, "very") && Contains(s, "positive"))
      && (r == "very negative" <==> Contains(s, "very") && !Contains(s, "positive") && Contains(s, "negative"))
      && (r == "positive" <==> !Contains(s, "very") && Contains(s, "positive"))
      && (r == "negative" <==> !Contains(s, "very") && !Contains(s, "positive") && Contains(s, "negative"))
      && (r == "neutral" <==> !Contains(s, "positive") && !Contains(s, "negative"))
  {
    var s := Lower(raw);
    if s in ValidSentiments then s
    else if Contains(s, "very") && Contains(s, "positive") then "very positive"
    else if Contains(s, "very") && Contains(s, "negative") then "very negative"
    else if Contains(s, "positive") then "positive"
    else if Contains(s, "negative") then "negative"
    else "neutral"
  }

  predicate MentionsRise(s: string) { Contains(s, "increase") || Contains(s, "up") }
  predicate MentionsFall(s: string) { Contains(s, "decrease") || Contains(s, "down") }

  /** Impact repair on the lower-cased label. */
  function NormalizeImpact(raw: string): (r: string)
    ensures r in ValidImpacts
    ensures Lower(raw) in ValidImpacts ==> r == Lower(raw)
    ensures Lower(raw) !in ValidImpacts ==>
      var s := Lower(raw);
      && (r == "significant increase" <==> Contains(s, "significant") && MentionsRise(s))
      && (r == "moderate increase" <==> !(Contains(s, "significant") && (MentionsRise(s) || MentionsFall(s)))
                                        && Contains(s, "moderate") && MentionsRise(s))
      && (r == "significant decrease" <==> Contains(s, "significant") && !MentionsRise(s) && MentionsFall(s))
      && (r == "moderate decrease" <==> !(Contains(s, "significant") && (MentionsRise(s) || MentionsFall(s)))
                                        && Contains(s, "moderate") && !MentionsRise(s) && MentionsFall(s))
      && (r == "minimal change" <==> !((Contains(s, "significant") || Contains(s, "moderate")) && (MentionsRise(s) || MentionsFall(s))))
  {
    var s := Lower(raw);
    if s in ValidImpacts then s
    else if Contains(s, "significant") && MentionsRise(s) then "significant increase"
    else if Contains(s, "significant") && MentionsFall(s) then "significant decrease"
    else if Contains(s, "moderate") && MentionsRise(s) then "moderate increase"
    else if Contains(s, "moderate") && MentionsFall(s) then "moderate decrease"
    else "minimal change"
  }

  /** Confidence repair: anything outside the vocabulary becomes medium. */
  function NormalizeConfidence(raw: string): (r: string)
    ensures r in ValidConfidences
    ensures r == (if Lower(raw) in ValidConfidences then Lower(raw) else "medium")
  {
    var s := Lower(raw);
    if s in ValidConfidences then s else "medium"
  }

  /** `_validate_and_normalize_response` on a JSON object. */
  function Normalize(rec: AiRecord): (r: Analysis)
    ensures InVocabulary(r)
    ensures rec.sentiment.None? ==> r.sentiment == "neutral"
    ensures rec.impact.None? ==> r.impact == "minimal change"
    ensures rec.confidence.None? ==> r.confidence == "medium"
    ensures rec.sentiment.Some? ==> r.sentiment == NormalizeSentiment(rec.sentiment.value)
    ensures rec.impact.Some? ==> r.impact == NormalizeImpact(rec.impact.value)
    ensures rec.confidence.Some? ==> r.confidence == NormalizeConfidence(rec.confidence.value)
    ensures r.keyFactors == GetOr(rec.keyFactors, [])
    ensures r.patterns == GetOr(rec.patterns, [])
    ensures r.reasoning == GetOr(rec.reasoning, "Analysis completed")
  {
    VocabulariesAreLowerCase();
    LowerOfLowerCase("minimal change");
    LowerOfLowerCase("medium");
    Analysis(
      NormalizeSentiment(GetOr(rec.sentiment, "neutral")),
      NormalizeImpact(GetOr(rec.impact, "minimal change")),
      NormalizeConfidence(GetOr(rec.confidence, "medium")),
      GetOr(rec.keyFactors, []),
      GetOr(rec.patterns, []),
      GetOr(rec.reasoning, "Analysis completed"))
  }

  /** An analysis already in the vocabularies normalises to itself. */
  lemma NormalizeFixesValid(a: Analysis)
    requires InVocabulary(a)
    ensures Normalize(AsRecord(a)) == a
  {
    VocabulariesAreLowerCase();
    LowerOfLowerCase(a.sentiment);
    LowerOfLowerCase(a.impact);
    LowerOfLowerCase(a.confidence);
  }

  /** Normalisation is idempotent. */
  lemma NormalizeIdempotent(rec: AiRecord)
    ensures Normalize(AsRecord(Normalize(rec))) == Normalize(rec)
  {
    NormalizeFixesValid(Normalize(rec));
  }

  // ---------------------------------------------------------------------
  // Unstructured replies
  // ---------------------------------------------------------------------

  predicate ContainsAny(s: string, words: seq<string>)
  {
    exists w :: w in words && Contains(s, w)
  }

  /** The reasoning kept from free text: the whole text up to 200
      characters, otherwise its first 200 characters and "...". */
  function ShortReasoning(content: string): (r: string)
    ensures |content| <= 200 ==> r == content
    ensures |content| > 200 ==> |r| == 203 && r[..200] == content[..200] && r[200..] == "..."
  {
    if |content| > 200 then content[..200] + "..." else content
  }

  const StrongPositive := ["very positive", "extremely positive"]
  const StrongNegative := ["very negative", "extremely negative"]
  const LargeRise := ["significant increase", "major increase"]
  const SmallRise := ["moderate increase", "slight increase"]
  const LargeFall := ["significant decrease", "major decrease"]
  const SmallFall := ["moderate decrease", "slight decrease"]

  function ScanSentiment(s: string): string
  {
    if ContainsAny(s, StrongPositive) then "very positive"
    else if Contains(s, "positive") then "positive"
    else if ContainsAny(s, StrongNegative) then "very negative"
    else if Contains(s, "negative") then "negative"
    else "neutral"
  }

  function ScanImpact(s: string): string
  {
    if ContainsAny(s, LargeRise) then "significant increase"
    else if ContainsAny(s, SmallRise) then "moderate increase"
    else if ContainsAny(s, LargeFall) then "significant decrease"
    else if ContainsAny(s, SmallFall) then "moderate decrease"
    else "minimal change"
  }

  function ScanConfidence(s: string): string
  {
    if Contains(s, "high confidence") || Contains(s, "very confident") then "high"
    else if Contains(s, "low confidence") || Contains(s, "uncertain") then "low"
    else "medium"
  }

  /** `_parse_unstructured_response`: a keyword scan of the lower-cased text
      over the neutral / minimal change / medium defaults. */
  function ParseUnstructured(content: string): (r: Analysis)
    ensures InVocabulary(r)
    ensures r.keyFactors == [] && r.patterns == [] && r.reasoning == ShortReasoning(content)
    ensures var s := Lower(content);
      && (r.sentiment == "very positive" <==> ContainsAny(s, StrongPositive))
      && (r.sentiment == "positive" <==> !ContainsAny(s, StrongPositive) && Contains(s, "positive"))
      && (r.sentiment == "very negative" <==> !Contains(s, "positive") && ContainsAny(s, StrongNegative))
      && (r.sentiment == "negative" <==>
            !Contains(s, "positive") && !ContainsAny(s, StrongNegative) && Contains(s, "negative"))
      && (r.sentiment == "neutral" <==> !Contains(s, "positive") && !Contains(s, "negative"))
    ensures var s := Lower(content);
      && (r.impact == "significant increase" <==> ContainsAny(s, LargeRise))
      && (r.impact == "moderate increase" <==> !ContainsAny(s, LargeRise) && ContainsAny(s, SmallRise))
      && (r.impact == "significant decrease" <==>
            !ContainsAny(s, LargeRise) && !ContainsAny(s, SmallRise) && ContainsAny(s, LargeFall))
      && (r.impact == "moderate decrease" <==>
            !ContainsAny(s, LargeRise) && !ContainsAny(s, SmallRise) && !ContainsAny(s, LargeFall)
            && ContainsAny(s, SmallFall))
      && (r.impact == "minimal change" <==>
            !ContainsAny(s, LargeRise) && !ContainsAny(s, SmallRise) && !ContainsAny(s, LargeFall)
            && !ContainsAny(s, SmallFall))
    ensures var s := Lower(content);
      && (r.confidence == "high" <==> Contains(s, "high confidence") || Contains(s, "very confident"))
      && (r.confidence == "low" <==>
            !(Contains(s, "high confidence") || Contains(s, "very confident"))
            && (Contains(s, "low confidence") || Contains(s, "uncertain")))
      && (r.confidence == "medium" <==>
            !(Contains(s, "high confidence") || Contains(s, "very confident"))
            && !(Contains(s, "low confidence") || Contains(s, "uncertain")))
  {
    var s := Lower(content);
    NegativeWordsContainNegative(s);
    PositiveWordsContainPositive(s);
    Analysis(ScanSentiment(s), ScanImpact(s), ScanConfidence(s), [], [], ShortReasoning(content))
  }

  /** Any of the strong positive phrases contains "positive". */
  lemma PositiveWordsContainPositive(s: string)
    ensures ContainsAny(s, StrongPositive) ==> Contains(s, "positive")
  {
    if ContainsAny(s, StrongPositive) {
      var w :| w in StrongPositive && Contains(s, w);
      if w == "very positive" {
        assert OccursAt(w, "positive", 5);
      } else {
        assert OccursAt(w, "positive", 10);
      }
      ContainsTransitive(s, w, "positive");
    }
  }

  lemma NegativeWordsContainNegative(s: string)
    ensures ContainsAny(s, StrongNegative) ==> Contains(s, "negative")
  {
    if ContainsAny(s, StrongNegative) {
      var w :| w in StrongNegative && Contains(s, w);
      if w == "very negative" {
        assert OccursAt(w, "negative", 5);
      } else {
        assert OccursAt(w, "negative", 10);
      }
      ContainsTransitive(s, w, "negative");
    }
  }

  // ---------------------------------------------------------------------
  // Replies and fallbacks
  // ---------------------------------------------------------------------

  /** `parse_ai_response`: a decoded object is normalised, free text goes
      through the keyword scan, and a decoded non-object makes the
      normalisation's `.get` raise. */
  function ParseAiResponse(raw: string, decoding: Decoding): (r: Result<Analysis>)
    ensures r.Ok? ==> InVocabulary(r.value)
    ensures r.Err? <==> decoding.Decoded? && decoding.value.NonObject?
    ensures decoding.NotJson? ==> r == Ok(ParseUnstructured(raw))
    ensures decoding.Decoded? && decoding.value.Object? ==> r == Ok(Normalize(decoding.value.record))
  {
    match decoding
    case Decoded(Object(rec)) => Ok(Normalize(rec))
    case Decoded(NonObject(t)) => Err(NoGetError(t))
    case NotJson =>
      NormalizeFixesValid(ParseUnstructured(raw));
      Ok(Normalize(AsRecord(ParseUnstructured(raw))))
  }

  const FallbackFactor := "Analysis failed due to error"

  /** `create_fallback_analysis`. */
  function FallbackAnalysis(errorMessage: string): (r: Analysis)
    ensures InVocabulary(r)
    ensures r.sentiment == "neutral" && r.impact == "minimal change" && r.confidence == "low"
    ensures r.keyFactors == [FallbackFactor] && r.patterns == []
    ensures r.reasoning == "Error occurred during analysis: " + errorMessage
  {
    Analysis("neutral", "minimal change", "low", [FallbackFactor], [],
             "Error occurred during analysis: " + errorMessage)
  }
  /** The fallback is already normalised: passing it through the JSON
      normalisation again changes nothing. */
  lemma FallbackSurvivesNormalisation(errorMessage: string)
    ensures Normalize(AsRecord(FallbackAnalysis(errorMessage))) == FallbackAnalysis(errorMessage)
  {
    NormalizeFixesValid(FallbackAnalysis(errorMessage));
  }

  /** The keyword scan yields an analysis the JSON normalisation keeps as
      it is, so a free-text reply and the same labels sent as JSON agree. */
  lemma UnstructuredSurvivesNormalisation(content: string)
    ensures Normalize(AsRecord(ParseUnstructured(content))) == ParseUnstructured(content)
  {
    NormalizeFixesValid(ParseUnstructured(content));
  }


  // ---------------------------------------------------------------------
  // Prompt
  // ---------------------------------------------------------------------

  const MaxPromptPosts: nat := 15
  const MaxPostChars: nat := 500

  /** The user prompt: a fixed request when there are no posts, otherwise
      the analysis request with its variable parts (the fixed wording of the
      request template is not modelled). */
  datatype UserPrompt =
    | NoPostsRequest(text: string)
    | AnalysisRequest(ticker: string, totalPosts: nat, shownPosts: nat, postLines: seq<string>)

  datatype Prompt = Prompt(systemMessage: string, userPrompt: UserPrompt)

  /** One post as it is shown to the model, its text cut to 500 characters. */
  function PostLine(p: Post): (r: string)
    ensures |r| <= 13 + |p.author| + |p.platform| + MaxPostChars
  {
    "Post by " + p.author + " (" + p.platform + "): " + SliceTo(p.text, MaxPostChars)
  }

  const AnalystSystemMessage := "You are a financial analyst AI specializing in social media sentiment analysis "
    + "for stock prediction. Provide accurate, unbiased analysis based on the provided data."

  function CreateAnalysisPrompt(posts: seq<Post>, ticker: string): (r: Prompt)
    ensures |posts| == 0 <==> r.userPrompt.NoPostsRequest?
    ensures |posts| == 0 ==> r.userPrompt.text == "No posts available for analysis of " + ticker + ". Provide neutral analysis."
    ensures |posts| > 0 ==>
      && r.userPrompt.totalPosts == |posts|
      && r.userPrompt.shownPosts == |r.userPrompt.postLines| == Min(|posts|, MaxPromptPosts)
      && forall i :: 0 <= i < |r.userPrompt.postLines| ==>
           r.userPrompt.postLines[i] == PostLine(posts[i])
  {
    if |posts| == 0 then
      Prompt("You are a financial analyst AI.",
             NoPostsRequest("No posts available for analysis of " + ticker + ". Provide neutral analysis."))
    else
      var shown := SliceTo(posts, MaxPromptPosts);
      Prompt(AnalystSystemMessage,
             AnalysisRequest(ticker, |posts|, |shown|, seq(|shown|, i requires 0 <= i < |shown| => PostLine(shown[i]))))
  }
}
