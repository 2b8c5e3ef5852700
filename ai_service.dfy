/** The AI sentiment service with its fallbacks (app/ai/ai_service.py).
    The language-model client is abstracted: whether it could be built,
    and the outcome of the one call the service makes to it, are inputs. */
module AiService {
  import opened Common
  import opened Posts
  import opened SentimentAnalyzer

  /** What the client's `analyze_text` gave for the prompt: the reply text
      together with the outcome of the JSON attempts on it, or the message
      of the exception it raised. */
  datatype ClientOutcome = Reply(raw: string, decoding: Decoding) | ClientError(message: string)

  /** The service's response. `rawResponse` is present only on success and
      `error` only on a fallback. */
  datatype ImpactResponse = ImpactResponse(
    analysis: Analysis,
    rawResponse: Option<string>,
    error: Option<string>,
    postsAnalyzed: nat,
    postsShownToAi: nat)

  const FallbackKeyFactor := "AI analysis unavailable"
  const NoPostsReason := "No posts available"
  const NoClientReason := "OpenAI service unavailable"

  /** `_create_fallback_response(error_reason, posts_count)`. */
  function FallbackResponse(reason: string, postsCount: nat): (r: ImpactResponse)
    ensures r.analysis.sentiment == "neutral" && r.analysis.impact == "minimal change" && r.analysis.confidence == "low"
    ensures r.analysis.keyFactors == [FallbackKeyFactor] && r.analysis.patterns == []
    ensures r.analysis.reasoning == "Fallback analysis: " + reason
    ensures r.error == Some(reason) && r.rawResponse.None?
    ensures r.postsAnalyzed == postsCount && r.postsShownToAi == 0
    ensures InVocabulary(r.analysis)
  {
    ImpactResponse(
      Analysis("neutral", "minimal change", "low", [FallbackKeyFactor], [], "Fallback analysis: " + reason),
      None, Some(reason), postsCount, 0)
  }

  /** `analyze_social_media_impact(posts, ticker)`: no posts and no client
      each give their own fallback; otherwise the prompt goes to the
      client and its reply is parsed. Any exception on the way (from the
      client, or from parsing a reply that decodes to a non-object) becomes
      a fallback carrying the exception's message. */
  function AnalyzeSocialMediaImpact(posts: seq<Post>, ticker: string, clientAvailable: bool,
                                    outcome: ClientOutcome): (r: ImpactResponse)
    ensures |posts| == 0 ==> r == FallbackResponse(NoPostsReason, 0)
    ensures |posts| > 0 && !clientAvailable ==> r == FallbackResponse(NoClientReason, |posts|)
    ensures |posts| > 0 && clientAvailable && outcome.ClientError? ==>
      r == FallbackResponse(outcome.message, |posts|)
    ensures |posts| > 0 && clientAvailable && outcome.Reply? ==>
      match ParseAiResponse(outcome.raw, outcome.decoding)
      case Ok(a) => r.analysis == a && r.rawResponse == Some(outcome.raw) && r.error.None?
      case Err(e) => r == FallbackResponse(e, |posts|)
  {
    if |posts| == 0 then FallbackResponse(NoPostsReason, 0)
    else if !clientAvailable then FallbackResponse(NoClientReason, |posts|)
    else
      var prompt := CreateAnalysisPrompt(posts, ticker);
      match outcome
      case ClientError(m) => FallbackResponse(m, |posts|)
      case Reply(raw, decoding) =>
        match ParseAiResponse(raw, decoding)
        case Err(e) => FallbackResponse(e, |posts|)
        case Ok(a) => ImpactResponse(a, Some(raw), None, |posts|, prompt.userPrompt.shownPosts)
  }

  /** Whatever happens, the analysis uses the normalised vocabularies and
      every post handed in is counted. */
  lemma AlwaysNormalised(posts: seq<Post>, ticker: string, clientAvailable: bool, outcome: ClientOutcome)
    ensures var r := AnalyzeSocialMediaImpact(posts, ticker, clientAvailable, outcome);
      InVocabulary(r.analysis) && r.postsAnalyzed == |posts|
  {
  }

  /** The response is a fallback exactly when no post reached the model:
      an error is reported iff zero posts were shown, and on success the
      count shown is the number of posts in the prompt, min(n, 15). */
  lemma ErrorIffNothingShown(posts: seq<Post>, ticker: string, clientAvailable: bool, outcome: ClientOutcome)
    ensures var r := AnalyzeSocialMediaImpact(posts, ticker, clientAvailable, outcome);
      (r.error.Some? <==> r.postsShownToAi == 0) &&
      (r.error.Some? <==> r.rawResponse.None?) &&
      (r.error.None? ==>
        r.postsShownToAi == Min(|posts|, MaxPromptPosts) &&
        r.postsShownToAi == |CreateAnalysisPrompt(posts, ticker).userPrompt.postLines|)
  {
    if |posts| > 0 {
      var p := CreateAnalysisPrompt(posts, ticker);
      assert p.userPrompt.AnalysisRequest?;
      assert p.userPrompt.shownPosts == Min(|posts|, MaxPromptPosts) > 0;
    }
  }

  /** A successful response is exactly the parse of the client's reply:
      a reply that is a JSON object reaches the caller normalised, and free
      text reaches it through the keyword scan. */
  lemma SuccessIsParsedReply(posts: seq<Post>, ticker: string, raw: string, decoding: Decoding)
    requires |posts| > 0
    requires !(decoding.Decoded? && decoding.value.NonObject?)
    ensures var r := AnalyzeSocialMediaImpact(posts, ticker, true, Reply(raw, decoding));
      r.error.None? &&
      (decoding.NotJson? ==> r.analysis == Normalize(AsRecord(ParseUnstructured(raw)))) &&
      (decoding.Decoded? ==> r.analysis == Normalize(decoding.value.record))
  {
  }
}
