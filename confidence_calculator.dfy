/** The confidence score of a prediction: a weighted mean of a fixed base,
    the AI's own confidence, the amount and quality of the data and the
    agreement of the signals, scaled by the kind of prediction, clamped to
    [0.1, 0.95] and rounded to two decimals. */
module ConfidenceCalculator {
  import opened Common
  import opened SentimentAnalyzer
  import opened SignalCombiner

  const MinConfidence: real := 0.1
  const MaxConfidence: real := 0.95
  /** Returned when reading the inputs raises. */
  const FallbackConfidence: real := 0.4

  const BaseFactor: real := 0.5
  const BaseWeight: real := 0.2
  const AiWeight: real := 0.3
  const DataWeight: real := 0.25
  const AlignmentWeight: real := 0.25

  /** A value that should be a mapping: either one, whose fields are `T`, or
      some other value, named by its type, on which `.get` raises. */
  datatype Input<T> = Mapping(fields: T) | NotAMapping(typeName: string)

  /** The weights of the four factors make a weighted mean. */
  lemma WeightsSumToOne()
    ensures BaseWeight + AiWeight + DataWeight + AlignmentWeight == 1.0
  {
  }

  // ---------------------------------------------------------------------
  // Factors
  // ---------------------------------------------------------------------

  /** `ai_confidence_map.get(level, 0.5)`. */
  function AiConfidenceScore(level: string): (r: real)
    ensures r == 0.3 <==> level == "low"
    ensures r == 0.6 <==> level == "medium"
    ensures r == 0.9 <==> level == "high"
    ensures r == 0.5 <==> level !in {"low", "medium", "high"}
  {
    if level == "low" then 0.3
    else if level == "medium" then 0.6
    else if level == "high" then 0.9
    else 0.5
  }

  /** The factor for the AI's confidence. A missing value counts as an empty
      mapping (confidence "medium"); text that is not JSON, JSON that is not
      an object and any other non-mapping make the lookup raise, which gives
      the neutral 0.5. */
  function AiConfidenceFactor(ai: AiPayload): (r: real)
    ensures 0.3 <= r <= 0.9
    ensures ai.Missing? ==> r == 0.6
    ensures ai.Record? ==> r == AiConfidenceScore(GetOr(ai.record.confidence, "medium"))
    ensures ai.Text? && ai.decoded.Some? && ai.decoded.value.Object? ==>
              r == AiConfidenceScore(GetOr(ai.decoded.value.record.confidence, "medium"))
    ensures ai.OtherValue? || (ai.Text? && (ai.decoded.None? || ai.decoded.value.NonObject?)) ==> r == 0.5
  {
    match ai
    case Missing => AiConfidenceScore("medium")
    case Record(rec) => AiConfidenceScore(GetOr(rec.confidence, "medium"))
    case Text(Some(Object(rec))) => AiConfidenceScore(GetOr(rec.confidence, "medium"))
    case Text(_) => 0.5
    case OtherValue(_) => 0.5
  }

  /** The factor for the amount of posts (saturating at twenty) and the
      quality of the price data (`data_quality`, "limited" when absent). */
  function DataQualityFactor(postCount: nat, quality: Option<string>): (r: real)
    ensures 0.28 <= r <= 1.0
    ensures r == 1.0 <==> postCount >= 20 && quality == Some("good")
  {
    var postsFactor := MinReal(1.0, postCount as real / 20.0);
    var techFactor := if GetOr(quality, "limited") == "good" then 1.0 else 0.7;
    postsFactor * 0.6 + techFactor * 0.4
  }

  /** More posts never lower the data factor. */
  lemma DataQualityMonotone(m: nat, n: nat, quality: Option<string>)
    requires m <= n
    ensures DataQualityFactor(m, quality) <= DataQualityFactor(n, quality)
  {
  }

  /** The score of an alignment label; an unknown label scores 0.5. */
  function AlignmentScore(alignment: string): (r: real)
    ensures r == 1.0 <==> alignment == "strong_alignment"
    ensures r == 0.8 <==> alignment == "good_alignment"
    ensures r == 0.6 <==> alignment == "neutral"
    ensures r == 0.4 <==> alignment == "mixed"
    ensures r == 0.2 <==> alignment == "conflicting"
    ensures r == 0.5 <==> alignment !in {"strong_alignment", "good_alignment", "neutral", "mixed", "conflicting"}
  {
    if alignment == "strong_alignment" then 1.0
    else if alignment == "good_alignment" then 0.8
    else if alignment == "neutral" then 0.6
    else if alignment == "mixed" then 0.4
    else if alignment == "conflicting" then 0.2
    else 0.5
  }

  /** The score of a strength label; an unknown label scores 0.5. */
  function StrengthScore(strength: string): (r: real)
    ensures r == 1.0 <==> strength == "very_strong"
    ensures r == 0.8 <==> strength == "strong"
    ensures r == 0.6 <==> strength == "moderate"
    ensures r == 0.4 <==> strength == "weak"
    ensures r == 0.2 <==> strength == "very_weak"
    ensures r == 0.5 <==> strength !in {"very_strong", "strong", "moderate", "weak", "very_weak"}
  {
    if strength == "very_strong" then 1.0
    else if strength == "strong" then 0.8
    else if strength == "moderate" then 0.6
    else if strength == "weak" then 0.4
    else if strength == "very_weak" then 0.2
    else 0.5
  }

  /** The factor for the agreement of the signals: alignment ("mixed" when
      absent) weighted 0.6 and strength ("weak" when absent) weighted 0.4. */
  function SignalAlignmentFactor(l: Labels): (r: real)
    ensures 0.2 <= r <= 1.0
    ensures r == 1.0 <==> l.alignment == Some("strong_alignment") && l.strength == Some("very_strong")
    ensures r == 0.2 <==> l.alignment == Some("conflicting") && l.strength == Some("very_weak")
  {
    AlignmentScore(GetOr(l.alignment, "mixed")) * 0.6 + StrengthScore(GetOr(l.strength, "weak")) * 0.4
  }

  /** Strong directions are boosted when the signals align and damped
      otherwise; buy and sell keep the score; anything else is damped. */
  function PredictionMultiplier(l: Labels): (r: real)
    ensures r in {0.8, 1.0, 1.2}
    ensures r == 1.2 <==> GetOr(l.direction, "hold") in {"strong_buy", "strong_sell"}
                          && GetOr(l.alignment, "mixed") in {"strong_alignment", "good_alignment"}
    ensures r == 1.0 <==> GetOr(l.direction, "hold") in {"buy", "sell"}
  {
    var direction := GetOr(l.direction, "hold");
    if direction in {"strong_buy", "strong_sell"} then
      if GetOr(l.alignment, "mixed") in {"strong_alignment", "good_alignment"} then 1.2 else 0.8
    else if direction in {"buy", "sell"} then 1.0
    else 0.8
  }

  /** The weighted mean of the four factors. */
  function WeightedScore(aiFactor: real, dataFactor: real, alignmentFactor: real): real
  {
    BaseFactor * BaseWeight + aiFactor * AiWeight + dataFactor * DataWeight + alignmentFactor * AlignmentWeight
  }

  /** The weighted mean lies between its smallest and largest factor. */
  lemma WeightedScoreBetween(a: real, d: real, s: real, lo: real, hi: real)
    requires lo <= BaseFactor <= hi && lo <= a <= hi && lo <= d <= hi && lo <= s <= hi
    ensures lo <= WeightedScore(a, d, s) <= hi
  {
  }

  /** Scaling by a multiplier keeps the order. */
  lemma ScaledMonotone(v: real, w: real, k: real)
    requires v <= w && k in {0.8, 1.0, 1.2}
    ensures v * k <= w * k
  {
  }

  /** A multiplier scales a range by at most its own extremes. */
  lemma ScaledWithin(w: real, k: real, lo: real, hi: real)
    requires 0.0 <= lo <= w <= hi && k in {0.8, 1.0, 1.2}
    ensures lo * 0.8 <= w * k <= hi * 1.2
  {
  }

  function Clamp(x: real): (r: real)
  {
    MaxReal(MinConfidence, MinReal(MaxConfidence, x))
  }

  // ---------------------------------------------------------------------
  // The score
  // ---------------------------------------------------------------------

  /** The weighted factors scaled by the prediction multiplier, before
      clamping and rounding. */
  function RawConfidence(l: Labels, ai: AiPayload, quality: Option<string>, postCount: nat): (r: real)
    ensures 0.248 <= r <= 1.044
  {
    var w := WeightedScore(AiConfidenceFactor(ai), DataQualityFactor(postCount, quality), SignalAlignmentFactor(l));
    var k := PredictionMultiplier(l);
    WeightedScoreBounds(AiConfidenceFactor(ai), DataQualityFactor(postCount, quality), SignalAlignmentFactor(l));
    ScaledWithin(w, k, 0.31, 0.87);
    w * k
  }

  /** The weighted mean of factors in their ranges lies in [0.31, 0.87]. */
  lemma WeightedScoreBounds(a: real, d: real, s: real)
    requires 0.3 <= a <= 0.9 && 0.28 <= d <= 1.0 && 0.2 <= s <= 1.0
    ensures 0.31 <= WeightedScore(a, d, s) <= 0.87
  {
  }

  /** More posts never lower the raw score. */
  lemma RawConfidenceMonotone(l: Labels, ai: AiPayload, quality: Option<string>, m: nat, n: nat)
    requires m <= n
    ensures RawConfidence(l, ai, quality, m) <= RawConfidence(l, ai, quality, n)
  {
    DataQualityMonotone(m, n, quality);
    var a := AiConfidenceFactor(ai);
    var s := SignalAlignmentFactor(l);
    ScaledMonotone(WeightedScore(a, DataQualityFactor(m, quality), s), WeightedScore(a, DataQualityFactor(n, quality), s),
                   PredictionMultiplier(l));
  }

  /** `calculate_confidence`. The technical signals are read before the
      prediction; if either is not a mapping the score is the fallback 0.4. */
  function CalculateConfidence(prediction: Input<Labels>, ai: AiPayload, technical: Input<Option<string>>,
                               postCount: nat): (r: real)
    ensures MinConfidence <= r <= MaxConfidence
    ensures prediction.NotAMapping? || technical.NotAMapping? ==> r == FallbackConfidence
    ensures prediction.Mapping? && technical.Mapping? ==>
      var raw := RawConfidence(prediction.fields, ai, technical.fields, postCount);
      && r == Round2(Clamp(raw))
      && Clamp(raw) - 0.005 <= r <= Clamp(raw) + 0.005
  {
    if prediction.NotAMapping? || technical.NotAMapping? then FallbackConfidence
    else
      var raw := RawConfidence(prediction.fields, ai, technical.fields, postCount);
      Round2Within(Clamp(raw), 10, 95);
      Round2Close(Clamp(raw));
      Round2(Clamp(raw))
  }

  lemma Round2OfLowest()
    ensures Round2(0.248) == 0.25
  {
    assert (0.248 * 100.0).Floor == 24;
  }

  /** With readable inputs the score never reaches the lower clamp: the
      smallest factors and the damping multiplier still give 0.25. */
  lemma ConfidenceAtLeastQuarter(l: Labels, ai: AiPayload, quality: Option<string>, postCount: nat)
    ensures CalculateConfidence(Mapping(l), ai, Mapping(quality), postCount) >= 0.25
  {
    var raw := RawConfidence(l, ai, quality, postCount);
    Round2Monotone(0.248, Clamp(raw));
    Round2OfLowest();
  }

  /** More posts never lower the score, all else equal. */
  lemma ConfidenceMonotoneInPosts(prediction: Input<Labels>, ai: AiPayload, technical: Input<Option<string>>,
                                  m: nat, n: nat)
    requires m <= n
    ensures CalculateConfidence(prediction, ai, technical, m) <= CalculateConfidence(prediction, ai, technical, n)
  {
    if prediction.Mapping? && technical.Mapping? {
      var x := RawConfidence(prediction.fields, ai, technical.fields, m);
      var y := RawConfidence(prediction.fields, ai, technical.fields, n);
      RawConfidenceMonotone(prediction.fields, ai, technical.fields, m, n);
      Round2Monotone(Clamp(x), Clamp(y));
    }
  }

  // ---------------------------------------------------------------------
  // Breakdown, description, action
  // ---------------------------------------------------------------------

  datatype Component = Component(value: real, weight: real, contribution: real)

  function MakeComponent(value: real, weight: real): (r: Component)
    ensures r.value == value && r.weight == weight && r.contribution == value * weight
  {
    Component(value, weight, value * weight)
  }

  datatype Breakdown =
    | Breakdown(
        aiConfidence: Component,
        dataQuality: Component,
        signalAlignment: Component,
        predictionMultiplier: real,
        postsAnalyzed: nat,
        technicalDataQuality: string,
        alignmentLabel: string,
        strengthLabel: string)
    | BreakdownError(error: string)

  /** `get_confidence_breakdown`: the factors with their weights and
      contributions, or the text of the error raised by the first input that
      is not a mapping (the technical signals are read first). */
  function GetConfidenceBreakdown(prediction: Input<Labels>, ai: AiPayload, technical: Input<Option<string>>,
                                  postCount: nat): (r: Breakdown)
    ensures technical.NotAMapping? ==> r == BreakdownError(NoGetError(technical.typeName))
    ensures technical.Mapping? && prediction.NotAMapping? ==> r == BreakdownError(NoGetError(prediction.typeName))
    ensures prediction.Mapping? && technical.Mapping? ==>
      && r.Breakdown?
      && r.aiConfidence.value == AiConfidenceFactor(ai)
      && r.dataQuality.value == DataQualityFactor(postCount, technical.fields)
      && r.signalAlignment.value == SignalAlignmentFactor(prediction.fields)
      && r.predictionMultiplier == PredictionMultiplier(prediction.fields)
      && r.aiConfidence.weight == AiWeight && r.dataQuality.weight == DataWeight
      && r.signalAlignment.weight == AlignmentWeight
      && r.aiConfidence.contribution == AiConfidenceFactor(ai) * AiWeight
      && r.dataQuality.contribution == DataQualityFactor(postCount, technical.fields) * DataWeight
      && r.signalAlignment.contribution == SignalAlignmentFactor(prediction.fields) * AlignmentWeight
      && r.postsAnalyzed == postCount
      && r.technicalDataQuality == GetOr(technical.fields, "unknown")
      && r.alignmentLabel == GetOr(prediction.fields.alignment, "unknown")
      && r.strengthLabel == GetOr(prediction.fields.strength, "unknown")
  {
    if technical.NotAMapping? then BreakdownError(NoGetError(technical.typeName))
    else if prediction.NotAMapping? then BreakdownError(NoGetError(prediction.typeName))
    else
      var l := prediction.fields;
      Breakdown(
        MakeComponent(AiConfidenceFactor(ai), AiWeight),
        MakeComponent(DataQualityFactor(postCount, technical.fields), DataWeight),
        MakeComponent(SignalAlignmentFactor(l), AlignmentWeight),
        PredictionMultiplier(l),
        postCount,
        GetOr(technical.fields, "unknown"),
        GetOr(l.alignment, "unknown"),
        GetOr(l.strength, "unknown"))
  }

  /** The contributions in the breakdown, with the base's, add up to the
      score before the multiplier, clamping and rounding. */
  lemma BreakdownAddsUp(l: Labels, ai: AiPayload, quality: Option<string>, postCount: nat)
    ensures var b := GetConfidenceBreakdown(Mapping(l), ai, Mapping(quality), postCount);
      && b.Breakdown?
      && BaseFactor * BaseWeight + b.aiConfidence.contribution + b.dataQuality.contribution
         + b.signalAlignment.contribution
         == WeightedScore(AiConfidenceFactor(ai), DataQualityFactor(postCount, quality), SignalAlignmentFactor(l))
  {
  }

  /** The descriptions of the five confidence levels, lowest first. */
  const Descriptions: seq<string> := [
    "Very Low - Weak confidence, proceed with caution",
    "Low - Limited confidence",
    "Moderate - Reasonable confidence",
    "High - Good confidence in prediction",
    "Very High - Strong conviction in prediction"]

  /** The level a confidence falls in: thresholds 0.4, 0.6, 0.7 and 0.8. */
  function ConfidenceLevel(confidence: real): (r: nat)
    ensures r < |Descriptions|
    ensures r == 4 <==> confidence >= 0.8
    ensures r == 0 <==> confidence < 0.4
    ensures r == 1 <==> 0.4 <= confidence < 0.6
    ensures r == 2 <==> 0.6 <= confidence < 0.7
    ensures r == 3 <==> 0.7 <= confidence < 0.8
  {
    if confidence >= 0.8 then 4
    else if confidence >= 0.7 then 3
    else if confidence >= 0.6 then 2
    else if confidence >= 0.4 then 1
    else 0
  }

  /** `get_confidence_level_description`. */
  function ConfidenceLevelDescription(confidence: real): string
  {
    Descriptions[ConfidenceLevel(confidence)]
  }

  /** A higher confidence never gets a lower level; the fallback score reads
      as low. */
  lemma LevelMonotone(x: real, y: real)
    requires x <= y
    ensures ConfidenceLevel(x) <= ConfidenceLevel(y)
    ensures ConfidenceLevel(FallbackConfidence) == 1
  {
  }

  /** The confidence a direction needs before it is acted on. */
  function RequiredConfidence(direction: string): (r: real)
    ensures r == 0.7 <==> direction in {"strong_buy", "strong_sell"}
    ensures r == 0.3 <==> direction == "hold"
    ensures r == 0.6 <==> direction !in {"strong_buy", "strong_sell", "hold"}
  {
    if direction in {"strong_buy", "strong_sell"} then 0.7
    else if direction in {"buy", "sell"} then 0.6
    else if direction == "hold" then 0.3
    else 0.6
  }

  datatype ActionAdvice = ActionAdvice(
    shouldAct: bool,
    requiredConfidence: real,
    actualConfidence: real,
    confidenceGap: real,
    recommendation: string)

  /** `should_act_on_prediction`. */
  function ShouldActOnPrediction(confidence: real, direction: string): (r: ActionAdvice)
    ensures r.requiredConfidence == RequiredConfidence(direction)
    ensures r.actualConfidence == confidence
    ensures r.confidenceGap == confidence - r.requiredConfidence
    ensures r.shouldAct <==> r.confidenceGap >= 0.0
    ensures r.recommendation == (if r.shouldAct then "Act on prediction" else "Wait for better signals")
  {
    var required := RequiredConfidence(direction);
    var act := confidence >= required;
    ActionAdvice(act, required, confidence, confidence - required,
                 if act then "Act on prediction" else "Wait for better signals")
  }

  /** Acting is monotone in the confidence, and a strong direction needs
      more than any other. */
  lemma ActingIsMonotone(x: real, y: real, direction: string)
    requires x <= y
    ensures ShouldActOnPrediction(x, direction).shouldAct ==> ShouldActOnPrediction(y, direction).shouldAct
    ensures ShouldActOnPrediction(x, "strong_buy").shouldAct ==> ShouldActOnPrediction(x, direction).shouldAct
  {
  }
}
