/** Fusion of the technical trend with the AI sentiment: a direction from an
    exact-pair table and a cascade of fallback rules, an alignment class, a
    bucketed combined strength and an ordered list of reasons. */
module SignalCombiner {
  import opened Common
  import opened TechnicalAnalyzer
  import opened SentimentAnalyzer

  predicate IsPositive(s: string) { s == "positive" || s == "very positive" }
  predicate IsNegative(s: string) { s == "negative" || s == "very negative" }

  const Directions: set<string> := {"strong_buy", "buy", "hold", "sell", "strong_sell"}

  /** The exact-pair table. */
  function PredictionMap(trend: string, sentiment: string): Option<string>
  {
    if trend == "up" && sentiment == "positive" then Some("buy")
    else if trend == "up" && sentiment == "very positive" then Some("strong_buy")
    else if trend == "down" && sentiment == "negative" then Some("sell")
    else if trend == "down" && sentiment == "very negative" then Some("strong_sell")
    else if trend == "neutral" && sentiment == "neutral" then Some("hold")
    else None
  }

  /** The direction for a trend and a sentiment. Strong directions need both
      signals at their strongest; a conflict resolves toward buy because the
      upward rules are tried first. */
  function GeneratePrediction(trend: string, sentiment: string): (r: string)
    ensures r in Directions
    ensures PredictionMap(trend, sentiment).Some? ==> r == PredictionMap(trend, sentiment).value
    ensures r == "strong_buy" <==> trend == "up" && sentiment == "very positive"
    ensures r == "strong_sell" <==> trend == "down" && sentiment == "very negative"
    ensures r == "buy" <==> (trend == "up" || IsPositive(sentiment)) && !(trend == "up" && sentiment == "very positive")
    ensures r == "sell" <==> trend != "up" && !IsPositive(sentiment) && (trend == "down" || IsNegative(sentiment))
                             && !(trend == "down" && sentiment == "very negative")
    ensures r == "hold" <==> trend != "up" && trend != "down" && !IsPositive(sentiment) && !IsNegative(sentiment)
  {
    var exact := PredictionMap(trend, sentiment);
    if exact.Some? then exact.value
    else if trend == "up" && IsPositive(sentiment) then (if sentiment == "very positive" then "strong_buy" else "buy")
    else if trend == "up" || IsPositive(sentiment) then "buy"
    else if trend == "down" && IsNegative(sentiment) then (if sentiment == "very negative" then "strong_sell" else "sell")
    else if trend == "down" || IsNegative(sentiment) then "sell"
    else "hold"
  }

  /** The five exact pairs, and the pair the test suite checks. */
  lemma ExactPairs()
    ensures GeneratePrediction("up", "positive") == "buy"
    ensures GeneratePrediction("up", "very positive") == "strong_buy"
    ensures GeneratePrediction("down", "negative") == "sell"
    ensures GeneratePrediction("down", "very negative") == "strong_sell"
    ensures GeneratePrediction("neutral", "neutral") == "hold"
  {
  }

  /** How well the two signals agree. */
  function Alignment(trend: string, sentiment: string): (r: string)
    ensures r in {"neutral", "strong_alignment", "good_alignment", "conflicting", "mixed"}
    ensures r == "neutral" <==> trend == "neutral" && sentiment == "neutral"
    ensures r == "strong_alignment" <==> trend == sentiment && trend != "neutral"
    ensures r == "good_alignment" <==> (trend == "up" && IsPositive(sentiment)) || (trend == "down" && IsNegative(sentiment))
    ensures r == "conflicting" <==> (trend == "up" && IsNegative(sentiment)) || (trend == "down" && IsPositive(sentiment))
  {
    if trend == "neutral" && sentiment == "neutral" then "neutral"
    else if trend == sentiment then "strong_alignment"
    else if (trend == "up" && IsPositive(sentiment)) || (trend == "down" && IsNegative(sentiment)) then "good_alignment"
    else if (trend == "up" && IsNegative(sentiment)) || (trend == "down" && IsPositive(sentiment)) then "conflicting"
    else "mixed"
  }

  /** With a trend from the technical analyzer and a sentiment from the
      normaliser, the two strings are never equal unless both are neutral,
      so strong_alignment cannot occur. */
  lemma StrongAlignmentUnreachable(trend: string, sentiment: string)
    requires trend in {"up", "down", "neutral"} && sentiment in ValidSentiments
    ensures Alignment(trend, sentiment) != "strong_alignment"
  {
  }

  // ---------------------------------------------------------------------
  // Combined strength
  // ---------------------------------------------------------------------

  /** Points for the technical signal: none for a flat trend, otherwise
      3, 2 or 1 as the move exceeds 5%, exceeds 2% or not. */
  function TechnicalScore(trend: string, percent: real): (r: nat)
    ensures r <= 3
    ensures r == 0 <==> trend == "neutral"
    ensures r == 3 <==> trend != "neutral" && Abs(percent) > 5.0
    ensures r == 2 <==> trend != "neutral" && 2.0 < Abs(percent) <= 5.0
    ensures r == 1 <==> trend != "neutral" && Abs(percent) <= 2.0
  {
    if trend == "neutral" then 0
    else if Abs(percent) > 5.0 then 3
    else if Abs(percent) > 2.0 then 2
    else 1
  }

  /** Points for the sentiment: 3 for a very label, 2 for positive or
      negative, none for neutral and 1 for any other text. */
  function SentimentScore(sentiment: string): (r: nat)
    ensures r <= 3
    ensures r == 0 <==> sentiment == "neutral"
    ensures r == 3 <==> sentiment == "very positive" || sentiment == "very negative"
    ensures r == 2 <==> sentiment == "positive" || sentiment == "negative"
    ensures r == 1 <==> sentiment !in {"very positive", "very negative", "positive", "negative", "neutral"}
  {
    if sentiment in {"very positive", "very negative"} then 3
    else if sentiment in {"positive", "negative"} then 2
    else if sentiment != "neutral" then 1
    else 0
  }

  const StrengthBuckets: seq<string> := ["very_weak", "weak", "moderate", "strong", "very_strong"]

  /** Position of a strength label among the buckets, weakest first. */
  function StrengthRank(s: string): nat
  {
    if s == "very_strong" then 4 else if s == "strong" then 3
    else if s == "moderate" then 2 else if s == "weak" then 1 else 0
  }

  /** The strength label of a point total. */
  function Bucket(total: nat): (r: string)
    ensures r in StrengthBuckets
    ensures r == "very_strong" <==> total >= 5
    ensures r == "strong" <==> 3 <= total < 5
    ensures r == "moderate" <==> total == 2
    ensures r == "weak" <==> total == 1
    ensures r == "very_weak" <==> total == 0
  {
    if total >= 5 then "very_strong"
    else if total >= 3 then "strong"
    else if total >= 2 then "moderate"
    else if total >= 1 then "weak"
    else "very_weak"
  }

  /** The bucket of the summed technical and sentiment scores. */
  function CombinedStrength(t: TechnicalSignals, sentiment: string): (r: string)
    ensures r in StrengthBuckets
    ensures r == "very_weak" <==> t.trend == "neutral" && sentiment == "neutral"
    ensures r == "very_strong" ==> t.trend != "neutral" && sentiment != "neutral"
  {
    Bucket(TechnicalScore(t.trend, t.priceChangePercent) + SentimentScore(sentiment))
  }

  lemma BucketMonotone(a: nat, b: nat)
    requires a <= b
    ensures StrengthRank(Bucket(a)) <= StrengthRank(Bucket(b))
  {
  }

  /** A larger price move never weakens the combined strength. */
  lemma StrengthMonotoneInChange(t: TechnicalSignals, u: TechnicalSignals, sentiment: string)
    requires t.trend == u.trend && Abs(t.priceChangePercent) <= Abs(u.priceChangePercent)
    ensures StrengthRank(CombinedStrength(t, sentiment)) <= StrengthRank(CombinedStrength(u, sentiment))
  {
    BucketMonotone(TechnicalScore(t.trend, t.priceChangePercent) + SentimentScore(sentiment),
                   TechnicalScore(u.trend, u.priceChangePercent) + SentimentScore(sentiment));
  }

  // ---------------------------------------------------------------------
  // Reasons
  // ---------------------------------------------------------------------

  /** One line of the reasoning list. The technical line keeps its
      percentage as a number; `Render` gives the text of each line. */
  datatype Reason =
    | AiReasoning(text: string)
    | KeyFactors(factors: seq<string>)
    | Patterns(patterns: seq<string>)
    | ParsingFailed
    | TechnicalTrend(trend: string, percent: real)
    | SmaPosition(position: string)
    | VolatilityNote(level: string)
    | Justification(text: string)

  /** The text of a reason; `oneDecimal` renders the percentage as `{:.1f}`. */
  function Render(r: Reason, oneDecimal: real -> string): string
  {
    match r
    case AiReasoning(t) => "AI: " + t
    case KeyFactors(fs) => "Key factors: " + Join(", ", fs)
    case Patterns(ps) => "Patterns: " + Join(", ", ps)
    case ParsingFailed => "AI analysis parsing failed"
    case TechnicalTrend(tr, p) => "Technical: " + tr + " trend (" + oneDecimal(p) + "% change)"
    case SmaPosition(pos) => "Price is " + pos + " moving average"
    case VolatilityNote(l) => "Market volatility: " + l
    case Justification(t) => t
  }

  /** The fixed place of each kind of reason in the list. */
  function Rank(r: Reason): nat
  {
    match r
    case AiReasoning(_) => 0
    case ParsingFailed => 0
    case KeyFactors(_) => 1
    case Patterns(_) => 2
    case TechnicalTrend(_, _) => 3
    case SmaPosition(_) => 4
    case VolatilityNote(_) => 5
    case Justification(_) => 6
  }

  /** Each reason's kind comes strictly after the previous one's. */
  predicate StrictlyRanked(rs: seq<Reason>)
  {
    forall i, j :: 0 <= i < j < |rs| ==> Rank(rs[i]) < Rank(rs[j])
  }

  predicate RanksWithin(rs: seq<Reason>, lo: nat, hi: nat)
  {
    forall i :: 0 <= i < |rs| ==> lo <= Rank(rs[i]) <= hi
  }

  lemma RankedConcat(a: seq<Reason>, b: seq<Reason>, lo: nat, mid: nat, hi: nat)
    requires StrictlyRanked(a) && StrictlyRanked(b)
    requires lo <= mid < hi
    requires RanksWithin(a, lo, mid) && RanksWithin(b, mid + 1, hi)
    ensures StrictlyRanked(a + b) && RanksWithin(a + b, lo, hi)
  {
    forall i, j | 0 <= i < j < |a + b|
      ensures Rank((a + b)[i]) < Rank((a + b)[j])
    {
      if j < |a| {
      } else if i >= |a| {
        assert (a + b)[i] == b[i - |a|] && (a + b)[j] == b[j - |a|];
      } else {
        assert (a + b)[i] == a[i] && (a + b)[j] == b[j - |a|];
      }
    }
    forall i | 0 <= i < |a + b|
      ensures lo <= Rank((a + b)[i]) <= hi
    {
      if i < |a| {
        assert (a + b)[i] == a[i];
      } else {
        assert (a + b)[i] == b[i - |a|];
      }
    }
  }

  /** A reason the AI result can contribute: never the parsing-failure
      note, at most three key factors, at most two patterns. */
  predicate FromAi(x: Reason)
  {
    && !x.ParsingFailed?
    && (x.KeyFactors? ==> 0 < |x.factors| <= 3)
    && (x.Patterns? ==> 0 < |x.patterns| <= 2)
  }

  lemma AllFromAi(a: seq<Reason>, b: seq<Reason>)
    requires forall i :: 0 <= i < |a| ==> FromAi(a[i])
    requires forall i :: 0 <= i < |b| ==> FromAi(b[i])
    ensures forall i :: 0 <= i < |a + b| ==> FromAi((a + b)[i])
  {
  }

  /** A reason that appears only when `present` holds. */
  function Slot(present: bool, x: Reason): (r: seq<Reason>)
    ensures present ==> r == [x]
    ensures !present ==> r == []
    ensures forall y :: y in r <==> present && y == x
    ensures StrictlyRanked(r) && RanksWithin(r, Rank(x), Rank(x))
  {
    if present then [x] else []
  }

  /** Reasons taken from the AI result: its reasoning, at most three key
      factors and at most two patterns, each only when present and non-empty. */
  function AiReasons(reasoning: Option<string>, keyFactors: Option<seq<string>>, patterns: Option<seq<string>>): (r: seq<Reason>)
    ensures StrictlyRanked(r) && RanksWithin(r, 0, 2)
  {
    var fs := GetOr(keyFactors, []);
    var ps := GetOr(patterns, []);
    var a := Slot(reasoning.Some?, AiReasoning(GetOr(reasoning, "")));
    var k := Slot(|fs| > 0, KeyFactors(SliceTo(fs, 3)));
    var p := Slot(|ps| > 0, Patterns(SliceTo(ps, 2)));
    RankedConcat(a, k, 0, 0, 1);
    RankedConcat(a + k, p, 0, 1, 2);
    a + k + p
  }

  /** The three optional parts of the AI reasons. */
  lemma AiReasonsParts(reasoning: Option<string>, keyFactors: Option<seq<string>>, patterns: Option<seq<string>>)
    returns (a: seq<Reason>, k: seq<Reason>, p: seq<Reason>)
    ensures AiReasons(reasoning, keyFactors, patterns) == a + k + p
    ensures a == Slot(reasoning.Some?, AiReasoning(GetOr(reasoning, "")))
    ensures k == Slot(|GetOr(keyFactors, [])| > 0, KeyFactors(SliceTo(GetOr(keyFactors, []), 3)))
    ensures p == Slot(|GetOr(patterns, [])| > 0, Patterns(SliceTo(GetOr(patterns, []), 2)))
  {
    a := Slot(reasoning.Some?, AiReasoning(GetOr(reasoning, "")));
    k := Slot(|GetOr(keyFactors, [])| > 0, KeyFactors(SliceTo(GetOr(keyFactors, []), 3)));
    p := Slot(|GetOr(patterns, [])| > 0, Patterns(SliceTo(GetOr(patterns, []), 2)));
  }

  /** At most one reason of each kind; the AI's own reasoning comes first
      when it is present. */
  lemma AiReasonsShape(reasoning: Option<string>, keyFactors: Option<seq<string>>, patterns: Option<seq<string>>)
    ensures var r := AiReasons(reasoning, keyFactors, patterns);
      && |r| <= 3
      && (reasoning.Some? ==> |r| > 0 && r[0] == AiReasoning(reasoning.value))
  {
    var a, k, p := AiReasonsParts(reasoning, keyFactors, patterns);
    if reasoning.Some? {
      assert (a + k + p)[0] == a[0];
    }
  }

  /** Which AI reasons appear, stated on the AI result itself: the
      reasoning line when there is a reasoning, one line with the first
      three key factors when there are any, one line with the first two
      patterns when there are any, and nothing else. */
  lemma AiReasonsMembership(reasoning: Option<string>, keyFactors: Option<seq<string>>, patterns: Option<seq<string>>)
    ensures var r := AiReasons(reasoning, keyFactors, patterns);
      var fs := GetOr(keyFactors, []);
      var ps := GetOr(patterns, []);
      var kf := KeyFactors(fs[..Min(3, |fs|)]);
      var pt := Patterns(ps[..Min(2, |ps|)]);
      && |r| == (if reasoning.Some? then 1 else 0) + (if |fs| > 0 then 1 else 0) + (if |ps| > 0 then 1 else 0)
      && (reasoning.Some? ==> AiReasoning(reasoning.value) in r)
      && (kf in r <==> |fs| > 0)
      && (pt in r <==> |ps| > 0)
      && (forall x :: x in r ==> (reasoning.Some? && x == AiReasoning(reasoning.value)) || x == kf || x == pt)
  {
    var a, k, p := AiReasonsParts(reasoning, keyFactors, patterns);
    var fs := GetOr(keyFactors, []);
    var ps := GetOr(patterns, []);
    assert SliceTo(fs, 3) == fs[..Min(3, |fs|)];
    assert SliceTo(ps, 2) == ps[..Min(2, |ps|)];
    var r := a + k + p;
    assert forall x :: x in r <==> x in a || x in k || x in p;
  }

  /** Every AI reason is one the AI result can contribute (never the
      parsing-failed note, at most three key factors, at most two patterns),
      and without a reasoning field there is no reasoning line. */
  lemma AiReasonsContent(reasoning: Option<string>, keyFactors: Option<seq<string>>, patterns: Option<seq<string>>)
    ensures var r := AiReasons(reasoning, keyFactors, patterns);
      && (forall i :: 0 <= i < |r| ==> FromAi(r[i]))
      && (reasoning.None? ==> forall i :: 0 <= i < |r| ==> !r[i].AiReasoning?)
  {
    var a, k, p := AiReasonsParts(reasoning, keyFactors, patterns);
    var fs := GetOr(keyFactors, []);
    var ps := GetOr(patterns, []);
    assert |fs| > 0 ==> FromAi(KeyFactors(SliceTo(fs, 3)));
    assert |ps| > 0 ==> FromAi(Patterns(SliceTo(ps, 2)));
    AllAiLines(a, k, p, reasoning.Some?);
  }

  /** A reason the AI result can contribute, and not its reasoning line
      unless that is present. */
  predicate AiLine(x: Reason, reasoningPresent: bool)
  {
    FromAi(x) && (!reasoningPresent ==> !x.AiReasoning?)
  }

  lemma AllAiLines(a: seq<Reason>, b: seq<Reason>, c: seq<Reason>, present: bool)
    requires forall i :: 0 <= i < |a| ==> AiLine(a[i], present)
    requires forall i :: 0 <= i < |b| ==> AiLine(b[i], present)
    requires forall i :: 0 <= i < |c| ==> AiLine(c[i], present)
    ensures forall i :: 0 <= i < |a + b + c| ==> AiLine((a + b + c)[i], present)
  {
    var r := a + b + c;
    forall i | 0 <= i < |r|
      ensures AiLine(r[i], present)
    {
      if i < |a| {
        assert r[i] == a[i];
      } else if i < |a| + |b| {
        assert r[i] == b[i - |a|];
      } else {
        assert r[i] == c[i - |a| - |b|];
      }
    }
  }

  lemma InThree(a: seq<Reason>, b: seq<Reason>, c: seq<Reason>, x: Reason)
    ensures x in a + b + c <==> x in a || x in b || x in c
  {
    assert x in a + b <==> x in a || x in b;
  }

  /** Reasons taken from the technical indicators. */
  function TechnicalReasons(trend: string, percent: real, priceVsSma: Option<string>, volatilityLevel: Option<string>): (r: seq<Reason>)
    ensures StrictlyRanked(r) && RanksWithin(r, 3, 5)
  {
    var tr := Slot(trend != "neutral", TechnicalTrend(trend, percent));
    var sm := Slot(priceVsSma.Some?, SmaPosition(GetOr(priceVsSma, "")));
    var vo := Slot(volatilityLevel.Some?, VolatilityNote(GetOr(volatilityLevel, "")));
    RankedConcat(tr, sm, 3, 3, 4);
    RankedConcat(tr + sm, vo, 3, 4, 5);
    tr + sm + vo
  }

  /** The trend line is there exactly when the trend is not neutral, the
      moving-average line exactly when the position is known and the
      volatility line exactly when the level is known. */
  lemma TechnicalReasonsMembership(trend: string, percent: real, priceVsSma: Option<string>, volatilityLevel: Option<string>)
    ensures var r := TechnicalReasons(trend, percent, priceVsSma, volatilityLevel);
      && ((TechnicalTrend(trend, percent) in r) <==> trend != "neutral")
      && (priceVsSma.Some? <==> SmaPosition(GetOr(priceVsSma, "")) in r)
      && (volatilityLevel.Some? <==> VolatilityNote(GetOr(volatilityLevel, "")) in r)
  {
    var tr := Slot(trend != "neutral", TechnicalTrend(trend, percent));
    var sm := Slot(priceVsSma.Some?, SmaPosition(GetOr(priceVsSma, "")));
    var vo := Slot(volatilityLevel.Some?, VolatilityNote(GetOr(volatilityLevel, "")));
    var r := TechnicalReasons(trend, percent, priceVsSma, volatilityLevel);
    assert r == tr + sm + vo;
    InThree(tr, sm, vo, TechnicalTrend(trend, percent));
    InThree(tr, sm, vo, SmaPosition(GetOr(priceVsSma, "")));
    InThree(tr, sm, vo, VolatilityNote(GetOr(volatilityLevel, "")));
  }

  /** The closing justification for the chosen direction. */
  function PredictionReasoning(trend: string, sentiment: string, prediction: string): string
  {
    if prediction in {"strong_buy", "strong_sell"} then
      "Both technical (" + trend + ") and sentiment (" + sentiment + ") signals align strongly"
    else if prediction in {"buy", "sell"} then
      if trend != "neutral" && sentiment != "neutral" then
        "Technical (" + trend + ") and sentiment (" + sentiment + ") signals support " + prediction
      else if trend != "neutral" then "Technical signal (" + trend + ") suggests " + prediction
      else "Sentiment signal (" + sentiment + ") suggests " + prediction
    else "Mixed or neutral signals suggest holding position"
  }

  // ---------------------------------------------------------------------
  // Combining
  // ---------------------------------------------------------------------

  /** The value found under the "ai_analysis" key of the AI result: missing,
      a mapping, JSON text (decoded, or `None` when decoding fails) or some
      other value. */
  datatype AiPayload = Missing | Record(record: AiRecord) | Text(decoded: Option<Json>) | OtherValue(typeName: string)

  /** `_extract_ai_results`: a mapping to read labels from, or `None` when
      the value is not a mapping and the next `.get` raises. Undecodable text
      and a missing key both give the empty mapping. */
  function ExtractAiResults(p: AiPayload): (r: Option<AiRecord>)
    ensures p.Missing? || (p.Text? && p.decoded.None?) ==> r == Some(EmptyRecord)
    ensures p.Record? ==> r == Some(p.record)
    ensures r.None? <==> p.OtherValue? || (p.Text? && p.decoded.Some? && p.decoded.value.NonObject?)
  {
    match p
    case Missing => Some(EmptyRecord)
    case Record(rec) => Some(rec)
    case Text(None) => Some(EmptyRecord)
    case Text(Some(Object(rec))) => Some(rec)
    case Text(Some(NonObject(_))) => None
    case OtherValue(_) => None
  }

  datatype Combined = Combined(
    direction: string,
    expectedImpact: string,
    technicalTrend: string,
    sentiment: string,
    reasoning: seq<Reason>,
    signalAlignment: string,
    combinedStrength: string)

  /** The labels and reasons read from the AI value: the neutral defaults
      and the parsing-failed note when it is not a mapping. */
  function AiPart(ai: AiPayload): (r: (string, string, seq<Reason>))
    ensures StrictlyRanked(r.2) && RanksWithin(r.2, 0, 2)
    ensures ExtractAiResults(ai).None? ==> r == ("neutral", "minimal change", [ParsingFailed])
    ensures ExtractAiResults(ai).Some? ==>
      var rec := ExtractAiResults(ai).value;
      && r.0 == GetOr(rec.sentiment, "neutral") && r.1 == GetOr(rec.impact, "minimal change")
      && r.2 == AiReasons(rec.reasoning, rec.keyFactors, rec.patterns)
  {
    var extracted := ExtractAiResults(ai);
    if extracted.Some? then
      var rec := extracted.value;
      (GetOr(rec.sentiment, "neutral"), GetOr(rec.impact, "minimal change"), AiReasons(rec.reasoning, rec.keyFactors, rec.patterns))
    else ("neutral", "minimal change", [ParsingFailed])
  }

  /** The full reasoning list: the AI reasons, then the technical ones, then
      the justification. */
  function ReasonList(aiReasons: seq<Reason>, trend: string, percent: real,
                      priceVsSma: Option<string>, volatilityLevel: Option<string>, justification: string): (r: seq<Reason>)
    requires StrictlyRanked(aiReasons) && RanksWithin(aiReasons, 0, 2)
    ensures StrictlyRanked(r)
    ensures r == aiReasons + TechnicalReasons(trend, percent, priceVsSma, volatilityLevel) + [Justification(justification)]
  {
    var tech := TechnicalReasons(trend, percent, priceVsSma, volatilityLevel);
    var last := [Justification(justification)];
    RankedConcat(aiReasons, tech, 0, 2, 5);
    RankedConcat(aiReasons + tech, last, 0, 5, 6);
    var r := aiReasons + tech + last;
    r
  }

  /** In a list made of an AI part, a technical part and a closing part, a
      reason can only sit in the part its rank belongs to. */
  lemma RankedPartMembership(a: seq<Reason>, b: seq<Reason>, c: seq<Reason>, x: Reason)
    requires RanksWithin(a, 0, 2) && RanksWithin(b, 3, 5) && RanksWithin(c, 6, 6)
    ensures Rank(x) <= 2 ==> (x in a + b + c <==> x in a)
    ensures 3 <= Rank(x) <= 5 ==> (x in a + b + c <==> x in b)
  {
    if x in a {
      var i :| 0 <= i < |a| && a[i] == x;
      assert Rank(a[i]) <= 2;
    }
    if x in b {
      var i :| 0 <= i < |b| && b[i] == x;
      assert 3 <= Rank(b[i]) <= 5;
    }
    if x in c {
      var i :| 0 <= i < |c| && c[i] == x;
      assert Rank(c[i]) == 6;
    }
    assert x in a + b + c <==> x in a || x in b || x in c;
  }

  /** Only the technical part can hold the technical line, and only the AI
      part the parsing-failed note. */
  lemma ReasonListMembership(aiReasons: seq<Reason>, trend: string, percent: real,
                             priceVsSma: Option<string>, volatilityLevel: Option<string>, justification: string)
    requires StrictlyRanked(aiReasons) && RanksWithin(aiReasons, 0, 2)
    ensures var r := ReasonList(aiReasons, trend, percent, priceVsSma, volatilityLevel, justification);
      && ((TechnicalTrend(trend, percent) in r) <==> trend != "neutral")
      && (ParsingFailed in r <==> ParsingFailed in aiReasons)
  {
    var r := ReasonList(aiReasons, trend, percent, priceVsSma, volatilityLevel, justification);
    var tech := TechnicalReasons(trend, percent, priceVsSma, volatilityLevel);
    TechnicalReasonsMembership(trend, percent, priceVsSma, volatilityLevel);
    RankedPartMembership(aiReasons, tech, [Justification(justification)], TechnicalTrend(trend, percent));
    RankedPartMembership(aiReasons, tech, [Justification(justification)], ParsingFailed);
  }

  /** `combine_signals`. It never fails: an AI value that is not a mapping
      leaves the neutral defaults and records that parsing failed. */
  function CombineSignals(t: TechnicalSignals, ai: AiPayload): (r: Combined)
    ensures r.direction in Directions
    ensures r.technicalTrend == t.trend
    ensures r.sentiment == AiPart(ai).0 && r.expectedImpact == AiPart(ai).1
    ensures r.direction == GeneratePrediction(t.trend, r.sentiment)
    ensures r.signalAlignment == Alignment(t.trend, r.sentiment)
    ensures r.combinedStrength == CombinedStrength(t, r.sentiment)
    ensures r.reasoning == ReasonList(AiPart(ai).2, t.trend, t.priceChangePercent, t.priceVsSma, t.volatilityLevel,
                                      PredictionReasoning(t.trend, r.sentiment, r.direction))
  {
    var (sentiment, impact, aiReasons) := AiPart(ai);
    var prediction := GeneratePrediction(t.trend, sentiment);
    var reasons := ReasonList(aiReasons, t.trend, t.priceChangePercent, t.priceVsSma, t.volatilityLevel,
                              PredictionReasoning(t.trend, sentiment, prediction));
    Combined(prediction, impact, t.trend, sentiment, reasons,
             Alignment(t.trend, sentiment), CombinedStrength(t, sentiment))
  }

  /** The reasons keep their fixed order, and the justification closes the
      list. */
  lemma CombineOrder(t: TechnicalSignals, ai: AiPayload)
    ensures var r := CombineSignals(t, ai);
      && StrictlyRanked(r.reasoning)
      && |r.reasoning| > 0
      && r.reasoning[|r.reasoning| - 1] == Justification(PredictionReasoning(t.trend, r.sentiment, r.direction))
  {
    var r := CombineSignals(t, ai);
    var tech := TechnicalReasons(t.trend, t.priceChangePercent, t.priceVsSma, t.volatilityLevel);
    var j := Justification(PredictionReasoning(t.trend, r.sentiment, r.direction));
    assert r.reasoning == AiPart(ai).2 + tech + [j];
  }

  /** An AI value that is not a mapping (undecodable text aside) leaves the
      neutral labels and puts the parsing-failed note first; otherwise that
      note never appears. */
  lemma CombineParsingFailure(t: TechnicalSignals, ai: AiPayload)
    ensures var r := CombineSignals(t, ai);
      && (ExtractAiResults(ai).None? ==>
            r.sentiment == "neutral" && r.expectedImpact == "minimal change" && r.reasoning[0] == ParsingFailed)
      && (ExtractAiResults(ai).Some? ==> ParsingFailed !in r.reasoning)
  {
    var r := CombineSignals(t, ai);
    var a := AiPart(ai).2;
    var j := PredictionReasoning(t.trend, r.sentiment, r.direction);
    ReasonListMembership(a, t.trend, t.priceChangePercent, t.priceVsSma, t.volatilityLevel, j);
    if ExtractAiResults(ai).None? {
      var tech := TechnicalReasons(t.trend, t.priceChangePercent, t.priceVsSma, t.volatilityLevel);
      assert r.reasoning == a + tech + [Justification(j)];
      assert a == [ParsingFailed];
      assert r.reasoning[0] == a[0];
    } else {
      var rec := ExtractAiResults(ai).value;
      AiReasonsContent(rec.reasoning, rec.keyFactors, rec.patterns);
      assert ParsingFailed !in a by {
        assert forall i :: 0 <= i < |a| ==> FromAi(a[i]);
      }
    }
  }

  /** The technical line is among the reasons exactly when the trend is not
      neutral. */
  lemma CombineTechnicalLine(t: TechnicalSignals, ai: AiPayload)
    ensures (TechnicalTrend(t.trend, t.priceChangePercent) in CombineSignals(t, ai).reasoning) <==> t.trend != "neutral"
  {
    var r := CombineSignals(t, ai);
    ReasonListMembership(AiPart(ai).2, t.trend, t.priceChangePercent, t.priceVsSma, t.volatilityLevel,
                         PredictionReasoning(t.trend, r.sentiment, r.direction));
  }

  // ---------------------------------------------------------------------
  // Summary
  // ---------------------------------------------------------------------

  /** The labels a summary or a confidence score reads from a prediction;
      `None` when the key is absent. */
  datatype Labels = Labels(direction: Option<string>, alignment: Option<string>, strength: Option<string>)

  function LabelsOf(c: Combined): Labels
  {
    Labels(Some(c.direction), Some(c.signalAlignment), Some(c.combinedStrength))
  }

  /** `s.replace("_", " ")`. */
  function Underscores(s: string): (r: string)
    ensures |r| == |s|
    ensures forall i :: 0 <= i < |s| ==> r[i] == if s[i] == '_' then ' ' else s[i]
  {
    seq(|s|, i requires 0 <= i < |s| => if s[i] == '_' then ' ' else s[i])
  }

  /** Python's `str.title()` on ASCII text: a letter is upper-cased when it
      starts a word and lower-cased otherwise. */
  function Title(s: string): (r: string)
    ensures |r| == |s|
    ensures forall i :: 0 <= i < |s| && !IsLetter(s[i]) ==> r[i] == s[i]
    ensures forall i :: 0 <= i < |s| && IsLetter(s[i]) && (i == 0 || !IsLetter(s[i - 1])) ==>
      r[i] == UpperChar(s[i])
    ensures forall i :: 0 < i < |s| && IsLetter(s[i]) && IsLetter(s[i - 1]) ==> r[i] == LowerChar(s[i])
  {
    seq(|s|, i requires 0 <= i < |s| =>
      if !IsLetter(s[i]) then s[i]
      else if i == 0 || !IsLetter(s[i - 1]) then UpperChar(s[i])
      else LowerChar(s[i]))
  }

  /** Title-casing changes only the case of letters. */
  lemma TitleChangesOnlyCase(s: string)
    ensures Lower(Title(s)) == Lower(s)
  {
    var t := Title(s);
    forall i | 0 <= i < |s|
      ensures LowerChar(t[i]) == LowerChar(s[i])
    {
      if IsLetter(s[i]) {
        assert LowerChar(UpperChar(s[i])) == LowerChar(s[i]);
      }
    }
  }

  /** Title-casing twice is title-casing once. */
  lemma TitleIdempotent(s: string)
    ensures Title(Title(s)) == Title(s)
  {
    var t := Title(s);
    assert forall i :: 0 <= i < |s| ==> (IsLetter(t[i]) <==> IsLetter(s[i]));
    forall i | 0 <= i < |s|
      ensures Title(t)[i] == t[i]
    {
      if IsLetter(s[i]) {
        assert UpperChar(UpperChar(s[i])) == UpperChar(s[i]);
        assert UpperChar(LowerChar(s[i])) == UpperChar(s[i]);
        assert LowerChar(LowerChar(s[i])) == LowerChar(s[i]);
        assert LowerChar(UpperChar(s[i])) == LowerChar(s[i]);
      }
    }
  }

  datatype SignalSummary = SignalSummary(recommendation: string, confidenceLevel: string, signalQuality: string, summary: string)

  function GetSignalSummary(l: Labels): (r: SignalSummary)
    ensures r.recommendation == Title(Underscores(GetOr(l.direction, "hold")))
    ensures r.confidenceLevel == Title(Underscores(GetOr(l.strength, "unknown")))
    ensures r.signalQuality == Title(Underscores(GetOr(l.alignment, "unknown")))
    ensures |r.recommendation| == |GetOr(l.direction, "hold")|
    ensures Lower(r.recommendation) == Lower(Underscores(GetOr(l.direction, "hold")))
    ensures Lower(r.signalQuality) == Lower(Underscores(GetOr(l.alignment, "unknown")))
    ensures r.summary == r.recommendation + " recommendation with " + GetOr(l.strength, "unknown") + " signals"
  {
    var direction := GetOr(l.direction, "hold");
    var alignment := GetOr(l.alignment, "unknown");
    var strength := GetOr(l.strength, "unknown");
    TitleChangesOnlyCase(Underscores(direction));
    TitleChangesOnlyCase(Underscores(alignment));
    SignalSummary(Title(Underscores(direction)), Title(Underscores(strength)), Title(Underscores(alignment)),
                  Title(Underscores(direction)) + " recommendation with " + strength + " signals")
  }

  lemma StrongBuySummary()
    ensures GetSignalSummary(Labels(Some("strong_buy"), None, None)).recommendation == "Strong Buy"
  {
  }

  /** The display form of a name: underscores become spaces and each
      word is capitalised. */
  lemma DisplayForm(name: string, shown: string)
    requires Title(Underscores(name)) == shown
    ensures GetSignalSummary(Labels(Some(name), None, None)).recommendation == shown
  {
  }

  /** Each direction's display name. */
  lemma DirectionDisplayNames()
    ensures GetSignalSummary(Labels(Some("buy"), None, None)).recommendation == "Buy"
    ensures GetSignalSummary(Labels(Some("hold"), None, None)).recommendation == "Hold"
    ensures GetSignalSummary(Labels(Some("sell"), None, None)).recommendation == "Sell"
    ensures GetSignalSummary(Labels(Some("strong_sell"), None, None)).recommendation == "Strong Sell"
  {
    assert Underscores("buy") == "buy";
    assert Title("buy") == "Buy";
    DisplayForm("buy", "Buy");
    assert Underscores("hold") == "hold";
    assert Title("hold") == "Hold";
    DisplayForm("hold", "Hold");
    assert Underscores("sell") == "sell";
    assert Title("sell") == "Sell";
    DisplayForm("sell", "Sell");
    assert Underscores("strong_sell") == "strong sell";
    assert Title("strong sell") == "Strong Sell";
    DisplayForm("strong_sell", "Strong Sell");
  }

  lemma UnknownDisplay()
    ensures Title(Underscores("unknown")) == "Unknown"
  {
    assert Underscores("unknown") == "unknown";
    assert Title("unknown") == "Unknown";
  }

  /** The summary of a result without any of the three labels. */
  lemma EmptySummary()
    ensures GetSignalSummary(Labels(None, None, None)) ==
      SignalSummary("Hold", "Unknown", "Unknown", "Hold recommendation with unknown signals")
  {
    var r := GetSignalSummary(Labels(None, None, None));
    DirectionDisplayNames();
    UnknownDisplay();
    assert r.recommendation == "Hold";
    assert r.confidenceLevel == "Unknown";
    assert r.signalQuality == "Unknown";
    assert r.summary == "Hold recommendation with unknown signals";
  }
}
