# A verified model of the predictstocks-api decision layer

predictstocks-api predicts a stock's short-term move. It works in four steps:

1. It collects daily price bars and posts from Twitter and Reddit.
2. It asks a language model for the sentiment of those posts.
3. It fuses the technical trend with that sentiment into a direction (strong_buy, buy, hold, sell or strong_sell), a confidence and a projected price.
4. Around this pipeline sit per-platform circuit breakers, a bounded retry loop for the Twitter API, and a simulator that scores predictions and summarises how reliable each source was.

This project models that deterministic layer in Dafny and proves what it promises. Network calls, the language-model client, JSON decoding and the clock become inputs.

Modules follow the Python files, one each:

| module | file | form |
|---|---|---|
| `SignalCombiner` | app/prediction/signal_combiner.py | functions |
| `ConfidenceCalculator` | app/prediction/confidence_calculator.py | functions |
| `TechnicalAnalyzer` | app/prediction/technical_analyzer.py | functions |
| `PricePrediction` | app/utils/price_prediction.py | functions |
| `AiPredictionService` | app/prediction/ai_prediction_service.py | a method with loop invariants for duplicate removal; functions for the rest |
| `SentimentAnalyzer` | app/ai/sentiment_analyzer.py | functions |
| `AiService` | app/ai/ai_service.py | functions |
| `SocialMediaService` | app/social_media/social_media_service.py | a class whose breaker flags and start time are fields |
| `PredictionService` | app/prediction_service.py | a class whose failure flags are fields; its scoring is a function |
| `TwitterClient` | app/social_media/twitter_client.py | the retry loop, the response conversion and the query-variant search are methods |
| `Helpers` | app/utils/helpers.py | functions, plus a method for the keyword-filter loop |
| `Simulator` | app/simulate_prediction.py | a counter-tracker class, methods for the scoring and summary loops |

Two modules are shared by the others:
- `Common` holds the Option, Result and outcome types and the Python string operations the code relies on: ASCII `lower`, `in`, `strip`, `join`, slicing and `int()`.
- `Posts` holds the post and price-bar records.

Python floats are modelled as reals. `round(x, n)` is modelled as round-half-even on reals. Every bound is stated before rounding, and rounding is proved to stay within those bounds.

A dictionary read with `.get(key, default)` becomes an `Option` field. A value that is not a dictionary at all becomes its own variant, so the `except` branches the code reaches that way are modelled too.

Stateful methods record the fetches they issue in a returned call log. "No Twitter fetch while the breaker is set" is stated over that log.

## Model

| member | source | states |
|---|---|---|
| SentimentAnalyzer.VocabulariesAreLowerCase | app/ai/sentiment_analyzer.py:14-17 | every label of the three vocabularies is already lower case, so lower-casing a valid label keeps it valid |
| SentimentAnalyzer.NormalizeSentiment | app/ai/sentiment_analyzer.py:158-170 | always a valid sentiment; a valid label (after lower-casing) is kept; otherwise very positive, very negative, positive, negative and neutral each iff the substring tests that select them |
| SentimentAnalyzer.NormalizeImpact | app/ai/sentiment_analyzer.py:172-184 | always a valid impact; a valid label is kept; otherwise each of the five results iff its keyword test in the source's order: "significant" with a rise or a fall word, then "moderate" with a rise or a fall word, else minimal change |
| SentimentAnalyzer.NormalizeConfidence | app/ai/sentiment_analyzer.py:186-189 | the lower-cased label when it is valid, medium otherwise |
| SentimentAnalyzer.Normalize | app/ai/sentiment_analyzer.py:155-198 | a supplied sentiment, impact or confidence is the normalisation of that label; missing labels default to neutral, minimal change and medium; the result is in the vocabularies; key factors, patterns and reasoning are copied with their defaults |
| SentimentAnalyzer.NormalizeFixesValid | app/ai/sentiment_analyzer.py:155-198 | an analysis already in the vocabularies is a fixed point of normalisation |
| SentimentAnalyzer.NormalizeIdempotent | app/ai/sentiment_analyzer.py:155-198 | normalising twice is normalising once |
| SentimentAnalyzer.ShortReasoning | app/ai/sentiment_analyzer.py:122 | content of at most 200 characters is kept; longer content becomes its first 200 characters followed by "..." |
| SentimentAnalyzer.ParseUnstructured | app/ai/sentiment_analyzer.py:114-153 | each of the five sentiments, the five impacts and the three confidences iff its keyword test in the order the scan tries them; no key factors or patterns, and the shortened content as reasoning |
| SentimentAnalyzer.PositiveWordsContainPositive | app/ai/sentiment_analyzer.py:128-131 | the very-positive phrases contain "positive", so the sentiment scan never falls past the positive branches on them |
| SentimentAnalyzer.NegativeWordsContainNegative | app/ai/sentiment_analyzer.py:132-135 | the very-negative phrases contain "negative" |
| SentimentAnalyzer.ParseAiResponse | app/ai/sentiment_analyzer.py:74-112 | text that is not JSON goes through the unstructured parser; a JSON object is normalised; a JSON value that is not an object is the only error (the `.get` raises); every success is in the vocabularies |
| SentimentAnalyzer.FallbackAnalysis | app/ai/sentiment_analyzer.py:200-208 | neutral, minimal change, low confidence, the single key factor "Analysis failed due to error", no patterns, and the reasoning quotes the error message |
| SentimentAnalyzer.FallbackSurvivesNormalisation | app/ai/sentiment_analyzer.py:155-208 | normalising the fallback analysis again leaves it unchanged |
| SentimentAnalyzer.UnstructuredSurvivesNormalisation | app/ai/sentiment_analyzer.py:114-198 | normalising the keyword-scan analysis again leaves it unchanged, so a free-text reply and the same labels sent as JSON agree |
| SentimentAnalyzer.PostLine | app/ai/sentiment_analyzer.py:38 | a post line is bounded by its author, platform and 500 characters of text |
| SentimentAnalyzer.CreateAnalysisPrompt | app/ai/sentiment_analyzer.py:19-72 | no posts gives the neutral-analysis request naming the ticker; otherwise the prompt reports the total count and shows one line for each of the first min(n, 15) posts, in order |
| AiService.FallbackResponse | app/ai/ai_service.py:60-76 | neutral, minimal change, low confidence, the single "AI analysis unavailable" factor, the reason in both the reasoning and the error, no raw response and nothing shown to the AI |
| AiService.AnalyzeSocialMediaImpact | app/ai/ai_service.py:24-58 | no posts gives the "No posts available" fallback with count 0; no client gives the "OpenAI service unavailable" fallback; a client error gives a fallback carrying its message; a reply is parsed, and a parse error becomes a fallback |
| AiService.AlwaysNormalised | app/ai/ai_service.py:24-76 | whatever happens, the analysis is in the vocabularies and posts_analyzed is the number of posts |
| AiService.ErrorIffNothingShown | app/ai/ai_service.py:49-76 | an error is reported iff no post was shown to the AI iff there is no raw response; on success min(n, 15) posts were shown, as many as the prompt lines |
| AiService.SuccessIsParsedReply | app/ai/ai_service.py:36-54 | with posts, a client and a reply that parses, the result has no error and its analysis is the normalised parse of the reply |
| TechnicalAnalyzer.Trend | app/prediction/technical_analyzer.py:60-67 | "up" iff the latest close is above the previous one, "down" iff below, "neutral" iff equal |
| TechnicalAnalyzer.PercentageChange | app/prediction/technical_analyzer.py:69-73 | 0.0 when the previous price is zero; otherwise the change times the previous price is (latest − previous)·100, and for a positive previous price its sign is the direction of the move |
| TechnicalAnalyzer.Variance | app/prediction/technical_analyzer.py:94-98 | the population variance of the window is never negative |
| TechnicalAnalyzer.ClassifyVolatility | app/prediction/technical_analyzer.py:105-117 | one of unknown/low/medium/high, and "unknown" exactly when the mean price is zero |
| TechnicalAnalyzer.ClassifyVolatilityMatchesRatio | app/prediction/technical_analyzer.py:99-117 | comparing the variance with (0.02·mean)² and (0.05·mean)² gives the same label as the source's test of volatility/mean·100 against 2 and 5, for every standard deviation v ≥ 0 |
| TechnicalAnalyzer.CalculateTechnicalIndicators | app/prediction/technical_analyzer.py:15-58 | fewer than two bars give the insufficient record; otherwise trend, latest price, change and percentage come from the last two closes (a missing close reads 0), data quality is "good" iff there are at least 10 bars, data points is the bar count, sma_5, price_vs_sma and volatility are present iff there are at least 5 bars, sma_10 iff at least 10 |
| TechnicalAnalyzer.AdvancedIndicators | app/prediction/technical_analyzer.py:75-103 | adds the indicators without changing the basic fields; sma_5 is the mean of the last five closes, "above" iff the latest close exceeds it, sma_10 present iff there are ten closes and then their mean; the volatility variance is that of the last five closes and the level its classification |
| TechnicalAnalyzer.Sma5Bounds | app/prediction/technical_analyzer.py:80-86 | the five-bar average lies between the least and the greatest of those five closes |
| TechnicalAnalyzer.FlatWindowIsLowVolatility | app/prediction/technical_analyzer.py:94-117 | five equal positive closes give volatility level "low" |
| TechnicalAnalyzer.RisingPairExample | app/prediction/technical_analyzer.py:15-47 | closes 153 then 157 give trend up, latest price 157, change 4, data quality limited, two data points and no moving average |
| TechnicalAnalyzer.SignalStrength | app/prediction/technical_analyzer.py:139-151 | "strong" iff the trend is not neutral and the change exceeds 5%, "moderate" iff not neutral and between 2% and 5%, otherwise "weak" |
| TechnicalAnalyzer.Recommendation | app/prediction/technical_analyzer.py:153-163 | "bullish" iff trend up with a change above 2%, "bearish" iff trend down with a change above 2%, otherwise "neutral" |
| TechnicalAnalyzer.KeyIndicators | app/prediction/technical_analyzer.py:165-182 | one line per present part, in order: the trend line first iff the trend is not neutral, then the moving-average line for sma_5 with its above/below word, then the volatility line last |
| TechnicalAnalyzer.GetTechnicalSummary | app/prediction/technical_analyzer.py:119-137 | the trend and change are the signals' own; the strength, recommendation and key indicators are those the signals determine; a non-neutral recommendation agrees with the trend; the reliability is the data quality |
| TechnicalAnalyzer.SummaryOfBars | app/prediction/technical_analyzer.py:15-182 | from raw bars: fewer than two give a neutral, empty, "insufficient" summary; otherwise bullish (bearish) iff the last close rose (fell) by more than 2%, one key line for a move plus two from five bars on, and good reliability from the threshold on |
| SignalCombiner.GeneratePrediction | app/prediction/signal_combiner.py:111-128 | always one of the five directions; an exact-table pair gives its table entry; strong_buy iff up with very positive, strong_sell iff down with very negative; buy, sell and hold each characterised exactly (conflicts resolve toward buy) |
| SignalCombiner.ExactPairs | app/prediction/signal_combiner.py:13-19 | the five pairs of the exact table map to buy, strong_buy, sell, strong_sell and hold |
| SignalCombiner.Alignment | app/prediction/signal_combiner.py:144-157 | one of five classes; neutral iff both neutral; strong_alignment iff the two strings are equal and not neutral; good_alignment and conflicting each iff their direction/sentiment combinations |
| SignalCombiner.StrongAlignmentUnreachable | app/prediction/signal_combiner.py:148 | for a trend from the analyzer and a normalised sentiment, strong_alignment never occurs |
| SignalCombiner.TechnicalScore | app/prediction/signal_combiner.py:161-172 | 0 iff the trend is neutral; otherwise 3 iff the change exceeds 5% in size, 2 iff it exceeds 2% but not 5%, 1 iff it is at most 2% |
| SignalCombiner.SentimentScore | app/prediction/signal_combiner.py:174-181 | 3 iff very positive or very negative, 2 iff positive or negative, 0 iff neutral, 1 for any other label |
| SignalCombiner.Bucket | app/prediction/signal_combiner.py:184-195 | very strong iff the total is at least 5, strong iff 3 or 4, moderate iff 2, weak iff 1, very weak iff 0 |
| SignalCombiner.CombinedStrength | app/prediction/signal_combiner.py:159-195 | a bucket name; very_weak iff both trend and sentiment are neutral; very_strong only when neither is |
| SignalCombiner.BucketMonotone | app/prediction/signal_combiner.py:186-195 | a larger total never lands in a weaker bucket |
| SignalCombiner.StrengthMonotoneInChange | app/prediction/signal_combiner.py:162-172 | with the same trend and sentiment, a larger absolute price move never weakens the combined strength |
| SignalCombiner.AiReasons | app/prediction/signal_combiner.py:73-88 | the AI reasons are in the fixed order reasoning, key factors, patterns, each at most once |
| SignalCombiner.AiReasonsMembership | app/prediction/signal_combiner.py:73-88 | one reason per present part: the reasoning line iff the key is present, the line of the first three key factors iff there are any, the line of the first two patterns iff there are any, and nothing else |
| SignalCombiner.AiReasonsShape | app/prediction/signal_combiner.py:73-88 | at most three reasons, and the AI's own reasoning comes first whenever present |
| SignalCombiner.AiReasonsContent | app/prediction/signal_combiner.py:73-88 | every AI reason is one the AI result contributes (never the parsing-failed note), and there is no reasoning line without the reasoning key |
| SignalCombiner.TechnicalReasons | app/prediction/signal_combiner.py:90-109 | the technical reasons come in the fixed order trend, moving average, volatility |
| SignalCombiner.TechnicalReasonsMembership | app/prediction/signal_combiner.py:94-107 | the trend line is present iff the trend is not neutral, the moving-average line iff price_vs_sma is present, the volatility line iff volatility_level is present |
| SignalCombiner.ExtractAiResults | app/prediction/signal_combiner.py:60-71 | a missing key or undecodable text gives the empty mapping, a mapping is returned as is, and there is no mapping to read (the next `.get` raises) exactly for a non-mapping value or text decoding to a non-object |
| SignalCombiner.AiPart | app/prediction/signal_combiner.py:28-38 | when the AI value is not a mapping: neutral, minimal change and only the parsing-failed note; otherwise the labels with their defaults and the AI reasons |
| SignalCombiner.ReasonList | app/prediction/signal_combiner.py:25-48 | the reasons are the AI part, then the technical part, then the justification, in strictly ranked order |
| SignalCombiner.CombineSignals | app/prediction/signal_combiner.py:21-58 | never fails; the direction is one of the five and is GeneratePrediction of the trend and the extracted sentiment; alignment, strength and the reasoning list are those of the extracted labels |
| SignalCombiner.CombineOrder | app/prediction/signal_combiner.py:25-48 | the reasoning list is non-empty, strictly ordered, and ends with the justification of the chosen direction |
| SignalCombiner.CombineParsingFailure | app/prediction/signal_combiner.py:28-38 | an AI value that is not a mapping gives neutral, minimal change and the parsing-failed note first; otherwise that note never appears |
| SignalCombiner.CombineTechnicalLine | app/prediction/signal_combiner.py:41-44 | the technical trend line is among the reasons iff the trend is not neutral |
| SignalCombiner.Underscores | app/prediction/signal_combiner.py:204 | same length; each underscore becomes a space and every other character is kept |
| SignalCombiner.Title | app/prediction/signal_combiner.py:204-206 | keeps the length and every non-letter; a letter that starts a run of letters is upper-cased and every other letter lower-cased |
| SignalCombiner.TitleChangesOnlyCase | app/prediction/signal_combiner.py:204-206 | title-casing changes only the case of letters |
| SignalCombiner.TitleIdempotent | app/prediction/signal_combiner.py:204-206 | title-casing twice is title-casing once |
| SignalCombiner.GetSignalSummary | app/prediction/signal_combiner.py:197-207 | recommendation, confidence level and signal quality are the title-cased direction (default hold), strength and alignment (default unknown) with underscores as spaces; the summary is the recommendation followed by " recommendation with <strength> signals" |
| SignalCombiner.StrongBuySummary | app/prediction/signal_combiner.py:204 | strong_buy is shown as "Strong Buy" |
| SignalCombiner.DisplayForm | app/prediction/signal_combiner.py:197-207 | a direction is shown as its title-cased form with underscores as spaces |
| SignalCombiner.DirectionDisplayNames | app/prediction/signal_combiner.py:197-207 | buy, hold, sell and strong_sell are shown as "Buy", "Hold", "Sell" and "Strong Sell" |
| SignalCombiner.EmptySummary | app/prediction/signal_combiner.py:197-207 | with none of the three labels the summary is Hold, Unknown, Unknown and "Hold recommendation with unknown signals" |
| ConfidenceCalculator.WeightsSumToOne | app/prediction/confidence_calculator.py:18-23 | the four factor weights sum to 1 |
| ConfidenceCalculator.AiConfidenceScore | app/prediction/confidence_calculator.py:73-84 | low, medium and high map to 0.3, 0.6 and 0.9, and every other level to 0.5, each an iff |
| ConfidenceCalculator.AiConfidenceFactor | app/prediction/confidence_calculator.py:73-84 | between 0.3 and 0.9; a missing value reads as medium (0.6); a mapping or JSON object is scored by its confidence (default medium); a non-mapping value or undecodable text gives the 0.5 fallback |
| ConfidenceCalculator.DataQualityFactor | app/prediction/confidence_calculator.py:86-96 | between 0.28 and 1.0, and 1.0 exactly with at least 20 posts and good technical data |
| ConfidenceCalculator.DataQualityMonotone | app/prediction/confidence_calculator.py:89 | more posts never lower the data-quality factor |
| ConfidenceCalculator.AlignmentScore | app/prediction/confidence_calculator.py:104-111 | strong, good, neutral, mixed and conflicting alignment score 1.0, 0.8, 0.6, 0.4 and 0.2, and any other label 0.5, each an iff |
| ConfidenceCalculator.StrengthScore | app/prediction/confidence_calculator.py:113-121 | very strong, strong, moderate, weak and very weak signals score 1.0, 0.8, 0.6, 0.4 and 0.2, and any other label 0.5, each an iff |
| ConfidenceCalculator.SignalAlignmentFactor | app/prediction/confidence_calculator.py:98-124 | between 0.2 and 1.0; 1.0 iff strong alignment with very strong signals; 0.2 iff conflicting with very weak signals; the per-label scores it weights are stated on AlignmentScore and StrengthScore |
| ConfidenceCalculator.PredictionMultiplier | app/prediction/confidence_calculator.py:130-148 | one of 0.8, 1.0, 1.2; 1.2 iff a strong direction with strong or good alignment; 1.0 iff buy or sell |
| ConfidenceCalculator.WeightedScoreBetween | app/prediction/confidence_calculator.py:47-52 | a weighted average of factors lying in an interval (the base 0.5 included) stays in that interval |
| ConfidenceCalculator.RawConfidence | app/prediction/confidence_calculator.py:47-56 | the weighted, multiplied score before clamping lies between 0.248 and 1.044 |
| ConfidenceCalculator.WeightedScoreBounds | app/prediction/confidence_calculator.py:47-52 | with the factor ranges above, the weighted score lies between 0.31 and 0.87 |
| ConfidenceCalculator.RawConfidenceMonotone | app/prediction/confidence_calculator.py:41-56 | more posts never lower the unclamped confidence |
| ConfidenceCalculator.CalculateConfidence | app/prediction/confidence_calculator.py:25-71 | always within [0.1, 0.95]; a prediction or technical argument that is not a mapping gives the 0.4 fallback; otherwise the clamped score rounded to two places, within 0.005 of it |
| ConfidenceCalculator.Round2OfLowest | app/prediction/confidence_calculator.py:67 | the lowest reachable raw score 0.248 rounds to 0.25 |
| ConfidenceCalculator.ConfidenceAtLeastQuarter | app/prediction/confidence_calculator.py:47-67 | when both arguments are mappings the confidence is never below 0.25, so the 0.1 floor is never reached |
| ConfidenceCalculator.ConfidenceMonotoneInPosts | app/prediction/confidence_calculator.py:25-71 | more posts never lower the confidence |
| ConfidenceCalculator.GetConfidenceBreakdown | app/prediction/confidence_calculator.py:161-199 | the error record with the attribute-error text when an argument is not a mapping (technical first); otherwise the three factors with their weights and contributions (factor times weight), the multiplier, and a factors summary of the post count, the technical data quality, the alignment and the strength labels ("unknown" when absent) |
| ConfidenceCalculator.BreakdownAddsUp | app/prediction/confidence_calculator.py:170-186 | the base contribution plus the three listed contributions is the weighted score used by the confidence |
| ConfidenceCalculator.ConfidenceLevel | app/prediction/confidence_calculator.py:201-212 | each of the five descriptions exactly on its band: below 0.4, from 0.4 below 0.6, from 0.6 below 0.7, from 0.7 below 0.8, and 0.8 or more |
| ConfidenceCalculator.LevelMonotone | app/prediction/confidence_calculator.py:201-212 | a higher confidence never gets a lower description; the 0.4 fallback is described as low |
| ConfidenceCalculator.RequiredConfidence | app/prediction/confidence_calculator.py:216-224 | 0.7 iff a strong direction, 0.3 iff hold, 0.6 for everything else (unknown directions included) |
| ConfidenceCalculator.ShouldActOnPrediction | app/prediction/confidence_calculator.py:214-233 | should_act iff the gap (confidence minus required) is non-negative; the recommendation text follows should_act |
| ConfidenceCalculator.ActingIsMonotone | app/prediction/confidence_calculator.py:224-225 | a higher confidence never withdraws an advice to act, and confidence enough for a strong direction is enough for every direction |
| PricePrediction.LinearRegression | app/utils/price_prediction.py:8-32 | empty data gives slope 0 and intercept 0; otherwise the line passes through the point of means, its slope times Σ(x−x̄)² equals Σ(x−x̄)(y−ȳ), and with no spread in x it is the flat line at ȳ |
| PricePrediction.Residuals | app/utils/price_prediction.py:90 | the i-th residual is y[i] minus the line's value at x[i] |
| PricePrediction.ResidualsSumToZero | app/utils/price_prediction.py:8-32 | the residuals of the least-squares line sum to zero |
| PricePrediction.ResidualsOrthogonal | app/utils/price_prediction.py:8-32 | the residuals of the least-squares line are orthogonal to the centred x values (the normal equation) |
| PricePrediction.ExactFit | app/utils/price_prediction.py:8-32 | data lying exactly on a line with spread in x is fitted by that very line |
| PricePrediction.Indices | app/utils/price_prediction.py:69 | the x values are 0, 1, …, w−1 |
| PricePrediction.IndicesVary | app/utils/price_prediction.py:69-72 | with at least two points the day indices have positive spread, so the regression never takes its fallback |
| PricePrediction.Window | app/utils/price_prediction.py:54-59 | the window is the last min(30, n) closes, in order, and has at least 5 of them |
| PricePrediction.Returns | app/utils/price_prediction.py:62 | one daily return per consecutive pair of the window |
| PricePrediction.ReturnVariance | app/utils/price_prediction.py:65-66 | the variance of the returns (the square of the reported volatility) is never negative |
| PricePrediction.SlopeTrend | app/utils/price_prediction.py:80-85 | up iff the slope is positive, down iff negative, neutral iff zero |
| PricePrediction.FitConfidence | app/utils/price_prediction.py:87-92 | the clamped R² lies in [0, 1] |
| PricePrediction.FitConfidenceOne | app/utils/price_prediction.py:87-92 | the confidence is 1 exactly when the window is not flat and every close lies on the line |
| PricePrediction.CalculateTechnicalPrediction | app/utils/price_prediction.py:34-100 | fewer than 5 bars gives no price, confidence 0 and trend neutral; otherwise it raises ZeroDivisionError exactly when a zero close in the window divides a return |
| PricePrediction.ProjectionFollowsLine | app/utils/price_prediction.py:72-100 | the result reports the regression slope, a trend with its sign, the line's value at index n+days−1 rounded to cents, the clamped R² as confidence and a non-negative return variance |
| PricePrediction.LinearWindowProjection | app/utils/price_prediction.py:72-100 | closes lying on a non-flat line are projected along it with confidence 1 and the line's trend |
| PricePrediction.OnLineSquares | app/utils/price_prediction.py:88-91 | for closes on a line, the total sum of squares is the squared slope times the spread of x |
| PricePrediction.FlatWindowProjection | app/utils/price_prediction.py:72-100 | a flat window of non-zero closes projects the same price, with confidence 0 and trend neutral |
| PricePrediction.DirectionModifier | app/utils/price_prediction.py:120-127 | strong_buy, buy, sell and strong_sell give 0.05, 0.02, −0.02 and −0.05, and hold or any unknown direction 0, each an iff; so positive iff a buy and negative iff a sell |
| PricePrediction.CombinePredictions | app/utils/price_prediction.py:102-157 | raises ZeroDivisionError iff there is a technical price and the current price is 0; the AI contribution is the direction (default hold); without a technical price the confidence is the AI's and the technical contribution is "unavailable"; with one, the confidence is 0.7·AI + 0.3·technical and the contribution is the technical trend |
| PricePrediction.AiOnlyPrice | app/utils/price_prediction.py:145-147 | without a technical price the price is the current price moved by the AI modifier, rounded to cents |
| PricePrediction.BlendedPrice | app/utils/price_prediction.py:133-144 | with a technical price the change is 0.7 times the AI modifier plus 0.3 times the technical confidence times the technical relative change |
| PricePrediction.CombinedConfidenceBounds | app/utils/price_prediction.py:150 | confidences in [0, 1] blend to a confidence in [0, 1] |
| PricePrediction.DirectionMovesPrice | app/utils/price_prediction.py:120-147 | for a positive price and non-negative confidence, a buying direction never lowers and a selling one never raises the AI-only price |
| PricePrediction.HoldKeepsPrice | app/utils/price_prediction.py:120-147 | hold keeps the current price (rounded) and reports the technical part as unavailable |
| AiPredictionService.Dedup | app/prediction/ai_prediction_service.py:138-161 | deduplication never lengthens the list |
| AiPredictionService.DuplicateIffClash | app/prediction/ai_prediction_service.py:148-152 | a post is skipped iff some kept post shares its (truthy) id or its non-empty first 100 characters of text |
| AiPredictionService.KeptPositions | app/prediction/ai_prediction_service.py:144-155 | the kept posts are the input posts at strictly increasing positions, so order is preserved |
| AiPredictionService.DedupHasNoClashes | app/prediction/ai_prediction_service.py:138-161 | no two kept posts share an id or a non-empty content key |
| AiPredictionService.KeptPostIsFirst | app/prediction/ai_prediction_service.py:148-155 | a kept post clashes with no post kept before it |
| AiPredictionService.DroppedPostClashes | app/prediction/ai_prediction_service.py:148-152 | a dropped post clashes with some post kept before it |
| AiPredictionService.FirstOccurrences | app/prediction/ai_prediction_service.py:144-159 | a post is kept iff it clashes with no earlier kept post |
| AiPredictionService.AnonymousEmptyPostKept | app/prediction/ai_prediction_service.py:149-155 | a post with neither id nor text is always kept |
| AiPredictionService.DedupOfDistinct | app/prediction/ai_prediction_service.py:138-161 | a list with no clashes is returned unchanged |
| AiPredictionService.DedupIdempotent | app/prediction/ai_prediction_service.py:138-161 | deduplicating twice is deduplicating once |
| AiPredictionService.SeenAfterKeep | app/prediction/ai_prediction_service.py:155-159 | keeping a post adds exactly its truthy id and its non-empty content key to the seen sets |
| AiPredictionService.RemoveDuplicatePosts | app/prediction/ai_prediction_service.py:138-161 | the loop returns exactly the deduplicated list |
| AiPredictionService.PredictionDays | app/prediction/ai_prediction_service.py:129-136 | 7 iff "1w", 30 iff "1m", 1 for every other timeframe |
| AiPredictionService.PlatformsBound | app/prediction/ai_prediction_service.py:170 | there are no more distinct platforms than posts, and at least one when there are posts |
| AiPredictionService.AssessDataQuality | app/prediction/ai_prediction_service.py:163-178 | the counts are those of the inputs; influencer and high-quality flags iff some post has that author type; the diversity is the number of distinct platforms among the posts, zero iff there are none; sufficient iff at least 10 points; recency none iff no history |
| AiPredictionService.PredictPriceMovementAsWritten | app/prediction/ai_prediction_service.py:43-127 | as written the call succeeds exactly when the pipeline does, and every failure surfaces as the AttributeError for the missing `_create_error_response` method |
| AiPredictionService.CreateErrorResponse | app/prediction/ai_prediction_service.py:196-227 | the neutral error response for the ticker and timeframe: confidence 0.1, latest price 0, reasoning quoting the message, error flag and details, no key factors or patterns |
| AiPredictionService.PredictPriceMovement | app/prediction/ai_prediction_service.py:43-127 | a prediction iff the pipeline succeeds, carrying its result; otherwise the error response built from the first exception's message |
| AiPredictionService.AsWrittenRaisesWhereErrorResponseIntended | app/prediction/ai_prediction_service.py:125-127 | the two versions agree on every success, and where the intended version answers with the error response the written one raises |
| AiPredictionService.ZeroCloseRaises | app/prediction/ai_prediction_service.py:43-127 | a history of five to thirty bars whose first close is zero makes the written method raise the AttributeError, while the intended one reports the division by zero in its error details |
| AiPredictionService.PipelineFailsOnlyAtTheseSteps | app/prediction/ai_prediction_service.py:43-94 | the pipeline fails iff a fetch fails, a zero close divides a daily return, or there is a technical price while the latest price is 0 |
| AiPredictionService.PredictionGuarantees | app/prediction/ai_prediction_service.py:43-120 | every prediction has confidence in [0.1, 0.95], counts at most the fetched posts, analyses clash-free posts, has one of the five directions and a normalised sentiment analysis, and reports the combined price and direction |
| AiPredictionService.AssembledGuarantees | app/prediction/ai_prediction_service.py:71-120 | the same guarantees for any normalised AI response over the distinct posts |
| AiPredictionService.ErrorResponseImpactOutsideVocabulary | app/prediction/ai_prediction_service.py:213-216 | the error response's sentiment analysis carries the impact "low", which is not one of the five impacts |
| SocialMediaService.EngagementMonotone | app/social_media/social_media_service.py:240-259 | on the same platform, larger metrics never give a lower engagement score; any platform other than twitter and reddit scores 0 |
| SocialMediaService.RanksTotal | app/social_media/social_media_service.py:90 | any two posts are comparable under the (date, engagement) key |
| SocialMediaService.RanksTransitive | app/social_media/social_media_service.py:90 | the key order is transitive |
| SocialMediaService.InsertByRank | app/social_media/social_media_service.py:90 | inserting into a ranked list keeps it ranked and adds exactly the one post |
| SocialMediaService.SortPosts | app/social_media/social_media_service.py:90 | the sort yields a permutation of the posts ordered by descending (date, engagement) |
| SocialMediaService.RankedSelection | app/social_media/social_media_service.py:89-91 | the result is ranked, drawn from the gathered posts, has min(limit, n) posts for a non-negative limit, and each returned post ranks at least as high as every gathered post left out |
| SocialMediaService.SocialMediaService.constructor | app/social_media/social_media_service.py:15-31 | both breakers clear and no start time, with the clients' configuration recorded |
| SocialMediaService.SocialMediaService.SetGlobalStartTime | app/social_media/social_media_service.py:33-36 | records the start time and leaves both breakers as they were |
| SocialMediaService.SocialMediaService.AskTwitter | app/social_media/social_media_service.py:51-69 | the Twitter call is made iff the breaker is clear and the 180-second deadline has not passed; the breaker ends set iff it was, the deadline passed, or the call failed with a rate-limit or 429 text; the posts are those of a successful call |
| SocialMediaService.SocialMediaService.AskReddit | app/social_media/social_media_service.py:72-87 | the Reddit call is made iff Reddit is not blocked; it ends blocked iff it was or the call failed with a 403 text; the posts are those of a successful call |
| SocialMediaService.SocialMediaService.GetPostsForTicker | app/social_media/social_media_service.py:38-98 | the calls made (Twitter for limit // 2 under its breaker and deadline, then Reddit for limit // 2 on the general subreddits when included and not blocked) with the upper-cased, stripped ticker; the new breaker states; the result is the gathered posts sorted and cut to limit |
| SocialMediaService.SocialMediaService.GetTwitterPostsOnly | app/social_media/social_media_service.py:100-125 | a Twitter call for limit posts iff the breaker is clear and within the deadline; the breaker update of the Twitter rules; the posts of a successful call, none otherwise |
| SocialMediaService.SocialMediaService.GetRedditPostsOnly | app/social_media/social_media_service.py:127-148 | a Reddit call iff not blocked; blocked afterwards iff it was or the call failed with 403; the posts of a successful call, none otherwise |
| SocialMediaService.SocialMediaService.GetInfluencerPosts | app/social_media/social_media_service.py:150-198 | an empty account list means the default influencers; Twitter is asked only when configured, clear and within the deadline, Reddit's high-quality subreddits only when configured and not blocked; the breakers follow the same rules; posts are returned unranked, Twitter first |
| SocialMediaService.SocialMediaService.IsTwitterAvailable | app/social_media/social_media_service.py:200-206 | available iff not rate limited, within the deadline and configured |
| SocialMediaService.SocialMediaService.IsRedditAvailable | app/social_media/social_media_service.py:208-210 | available iff not blocked and configured |
| SocialMediaService.SocialMediaService.GetPlatformStatus | app/social_media/social_media_service.py:212-231 | the remaining Twitter budget is never negative, is 0 once the deadline has passed and is 180 minus the elapsed time before it; the flags and availabilities are the service's |
| SocialMediaService.SocialMediaService.ResetPlatformStatus | app/social_media/social_media_service.py:233-238 | both breakers cleared and the start time unset |
| SocialMediaService.SocialMediaService.GetPostsForTickerAsWritten | app/social_media/social_media_service.py:57-67 | as written the Twitter call always raises a TypeError: the Twitter breaker only ever trips through the deadline, and the result holds Reddit posts alone |
| SocialMediaService.SocialMediaService.GetTwitterPostsOnlyAsWritten | app/social_media/social_media_service.py:114-125 | as written no Twitter post is ever returned and the breaker trips only through the deadline |
| SocialMediaService.SocialMediaService.GetInfluencerPostsAsWritten | app/social_media/social_media_service.py:172-181 | as written the influencer call always raises a TypeError, so only Reddit's high-quality posts are returned and the Twitter breaker trips only through the deadline |
| SocialMediaService.ArityErrorsNeverTrip | app/social_media/social_media_service.py:57-66 | neither TypeError text contains "rate limit" in any case or "429", so neither trips the breaker |
| SocialMediaService.RateLimitTextsTrip | app/social_media/social_media_service.py:63-85 | a 429 or "Rate limit" text trips the Twitter breaker and a 403 text blocks Reddit |
| PredictionService.LookbackDays | app/prediction_service.py:69 | 90 days iff "1w", 365 iff "1m", 30 for every other timeframe |
| PredictionService.PlatformPosts | app/prediction_service.py:83-98 | exactly the posts of the given platform are kept, never more than were returned |
| PredictionService.AiFailureRecord | app/prediction_service.py:120-126 | the fallback analysis after an AI exception: neutral, minimal change, low, with the exception text in the reasoning and no key factors or patterns |
| PredictionService.SourcesInOrder | app/prediction_service.py:56-129 | each of the four sources is listed iff it succeeded, at most four in all |
| PredictionService.SourcesRanked | app/prediction_service.py:66-116 | the successful sources are always listed in collection order: historical, twitter, reddit, ai_analysis |
| PredictionService.MovementDirection | app/prediction_service.py:163-169 | buy iff a positive sentiment with "increase" in the impact; sell iff not buy and a negative sentiment with "decrease" in the impact; hold otherwise |
| PredictionService.SourceConfidence | app/prediction_service.py:171-185 | 0.2 per source plus the post and history bonuses while that sum is at most 1, and 1 once it reaches 1; at least 0.2 with any source |
| PredictionService.ConfidenceMonotone | app/prediction_service.py:171-185 | more sources, posts or history points never lower the confidence |
| PredictionService.ReasoningParts | app/prediction_service.py:187-193 | the reasoning starts with the number of sources, ends with the AI sentiment, and has a posts part iff there are posts and a history part iff there are history points |
| PredictionService.GeneratePrediction | app/prediction_service.py:131-201 | success iff some source succeeded; the sources, post count and history count are reported; the timeframe is always "1d"; on failure hold with confidence 0 and "All data sources failed"; on success the direction from sentiment and impact and the source confidence of those counts, in [0.2, 1] |
| PredictionService.PredictionService.constructor | app/prediction_service.py:17-37 | the services exist iff they were built, the failure flags are defined only then, and both start cleared |
| PredictionService.PredictionService.AskTwitter | app/prediction_service.py:80-91 | Twitter is asked iff posts are wanted, the services exist and it has not failed; its twitter posts are kept; it is marked failed on a rate-limit or 429 text |
| PredictionService.PredictionService.AskReddit | app/prediction_service.py:94-106 | Reddit is asked iff included, posts are wanted, the services exist and it has not failed; its reddit posts are kept; it is marked failed on a 403 text |
| PredictionService.PredictionService.CollectAllSources | app/prediction_service.py:56-129 | the collected history, posts, AI analysis and successful sources; the requests made, in order (history, Twitter, Reddit, AI only with posts or history); the failure flags updated by the breaker rules |
| PredictionService.PredictionService.PredictPriceMovement | app/prediction_service.py:39-54 | the report is the one generated from the data collected (history when available, each platform's posts when asked, the AI outcome, the successful sources in order); without services nothing is requested and the report fails; failure flags are never cleared, and a failed platform is not asked again |
| PredictionService.PredictionService.GetServiceStatus | app/prediction_service.py:203-210 | raises iff the flags were never defined; otherwise degraded iff both platforms failed, each platform available iff not failed, and analysis always possible |
| PredictionService.PredictionService.ResetFailures | app/prediction_service.py:212-216 | both failure flags cleared (and defined from then on) |
| TwitterClient.RateLimitBackoff | app/social_media/twitter_client.py:152-154 | without a Retry-After header the wait is 60·2^attempt seconds while that is at most 900, and 900 from there on |
| TwitterClient.UpperRun | app/social_media/twitter_client.py:203 | the longest run of at most max upper-case letters at the start of the text |
| TwitterClient.MarkedTicker | app/social_media/twitter_client.py:203-205 | none iff no "$" or "#" is followed by an upper-case letter; otherwise the run of up to five upper-case letters after the leftmost such mark |
| TwitterClient.WordLength | app/social_media/twitter_client.py:207 | the length of the first word: no whitespace inside it, whitespace (or the end) right after |
| TwitterClient.Words | app/social_media/twitter_client.py:207 | `split()` yields only non-empty words without white space |
| TwitterClient.WordsOfJoin | app/social_media/twitter_client.py:207 | splitting non-empty, space-free words joined by single spaces gives back exactly those words, in order |
| TwitterClient.WordsKeepText | app/social_media/twitter_client.py:207 | the words, concatenated, are exactly the text's non-space characters in their order |
| TwitterClient.FirstShortUpperWord | app/social_media/twitter_client.py:208-210 | the first word that is alphabetic, upper case and at most five letters long; none iff no word is |
| TwitterClient.ExtractTicker | app/social_media/twitter_client.py:201-212 | a marked ticker wins; otherwise the first short upper-case word; "stock" iff there is neither |
| TwitterClient.QueryVariants | app/social_media/twitter_client.py:38-42 | three query variants are tried |
| TwitterClient.NoMarksNoTag | app/social_media/twitter_client.py:203 | text without "$" or "#" has no marked ticker |
| TwitterClient.FirstWordOf | app/social_media/twitter_client.py:207-210 | a short upper-case word followed by a space is the word found |
| TwitterClient.SimplifiedVariantKeepsTicker | app/social_media/twitter_client.py:170-178 | for a ticker of one to five upper-case letters, the query simplified after a 400 is the ticker followed by " lang:en", whichever variant was sent |
| TwitterClient.Run | app/social_media/twitter_client.py:138-199 | the retry loop sends at most two requests, the first with the query given |
| TwitterClient.AttemptOnce | app/social_media/twitter_client.py:139-197 | one attempt does what the loop body prescribes for the response met |
| TwitterClient.MakeRequest | app/social_media/twitter_client.py:136-199 | the loop's outcome, the queries sent and the sleeps taken are those of the retry specification |
| TwitterClient.BodyOnlyOnOk | app/social_media/twitter_client.py:148-149 | a body is returned only after a 200, and it is that response's body; a first 200 returns at once after one request and no sleep |
| TwitterClient.GivesUp | app/social_media/twitter_client.py:158-179 | a first 401 stops after one request with the empty dictionary; a 401, a 400 or a 429 with a usable header on the second attempt ends with the empty dictionary |
| TwitterClient.RateLimitWaits | app/social_media/twitter_client.py:151-163 | after a first 429 the client waits the Retry-After seconds (60 without the header), then sleeps the 2-second request delay and resends the same query |
| TwitterClient.BadRequestRetriesSimplified | app/social_media/twitter_client.py:165-174 | after a first 400 the second request carries the simplified query |
| TwitterClient.RaisesOnlyAtTheEnd | app/social_media/twitter_client.py:150-197 | an exception escapes only from the last attempt or from a malformed Retry-After header; a first connection failure waits 60 seconds and retries |
| TwitterClient.LookupUser | app/social_media/twitter_client.py:219-226 | the user found has the author id and comes from the list; none iff there is no author id or no user with it |
| TwitterClient.TweetPost | app/social_media/twitter_client.py:228-238 | a twitter post with the tweet's id and the query used; an unknown author gives "unknown", "Unknown" and unverified; a known one gives the username (default "unknown"); a missing text gives "" |
| TwitterClient.TweetPosts | app/social_media/twitter_client.py:224-239 | none when the response has no data; otherwise one post per tweet, in order, each the post built from that tweet with the included users, a twitter post with the tweet's id |
| TwitterClient.ProcessTweetsResponse | app/social_media/twitter_client.py:214-240 | the loop returns exactly the posts of the response, in order |
| TwitterClient.MaxResults | app/social_media/twitter_client.py:54 | the page size is the limit, capped at 100 |
| TwitterClient.FirstYielding | app/social_media/twitter_client.py:47-65 | the first variant that yields posts: all variants before it yield none |
| TwitterClient.TryVariant | app/social_media/twitter_client.py:48-69 | one variant's posts: those of its response when the request gives a body with data, none when it raises or gives nothing |
| TwitterClient.GetPostsForTicker | app/social_media/twitter_client.py:31-71 | unconfigured: no request and no posts; otherwise the variants are searched in order with page size min(limit, 100) until one yields posts, whose posts are returned |
| Helpers.ParseTimeframe | app/utils/helpers.py:39-64 | raises IndexError iff the timeframe is empty; a prefix that is not an integer gives 1; otherwise the count times 7 for w, 30 for m and 1 for any other unit letter, in either case |
| Helpers.ParseTimeframeOfCount | app/utils/helpers.py:49-61 | a count written out and followed by d, w or m (either case) parses back to n, 7n or 30n days |
| Helpers.TimeframesAgreeWithPredictionDays | app/utils/helpers.py:39-64 | on "1d", "1w" and "1m" the parser agrees with the prediction service's day table |
| Helpers.TruncateText | app/utils/helpers.py:86-99 | text within the limit is unchanged; longer text becomes its first max−3 characters followed by "...", exactly max characters long when max ≥ 3 |
| Helpers.TruncateFitsAndSettles | app/utils/helpers.py:86-99 | for a limit of at least 3 the result fits the limit, and truncating again changes nothing |
| Helpers.Mentioning | app/utils/helpers.py:115-121 | filtering never lengthens the list |
| Helpers.MentioningKeepsMentions | app/utils/helpers.py:116-119 | a post is in the result iff it is in the input and its lower-cased text contains some lower-cased keyword |
| Helpers.MentioningIdempotent | app/utils/helpers.py:101-121 | filtering twice by the same keywords is filtering once |
| Helpers.MentioningIsSubsequence | app/utils/helpers.py:115-121 | the result keeps the input's order: it is a subsequence of it |
| Helpers.FilterPostsByKeywords | app/utils/helpers.py:101-121 | no keywords returns the posts unchanged; otherwise the loop returns exactly the posts that mention a keyword, in order |
| Helpers.SentimentLabel | app/utils/helpers.py:139-149 | always a valid sentiment; very positive iff ≥ 0.6, positive iff in [0.2, 0.6), neutral iff in (−0.2, 0.2), negative iff in (−0.6, −0.2], very negative iff ≤ −0.6 |
| Helpers.LabelMonotone | app/utils/helpers.py:139-149 | a higher score never gets a more negative label |
| Helpers.CalculateWeightedSentiment | app/utils/helpers.py:123-153 | no items gives score 0 and neutral; otherwise it raises ZeroDivisionError iff the weights sum to zero, and the score times the total weight is the weighted total of the scores; the label is that of the score |
| Helpers.WeightedTotalBetween | app/utils/helpers.py:136-137 | with scores in [lo, hi] and non-negative weights, the weighted total lies between lo and hi times the total weight |
| Helpers.WeightedScoreIsMean | app/utils/helpers.py:136-137 | with scores in [lo, hi], non-negative weights and a non-zero total weight, the weighted score lies in [lo, hi] |
| Common.ParseIntOfNatToString | app/utils/helpers.py:51 | the model of int() reads a written-out non-negative count back as that count |
| Simulator.Updated | app/simulate_prediction.py:228-237 | every tracked source gains one attempt, and a success only when it was used; the four keys stay, and successes never exceed attempts |
| Simulator.Replay | app/simulate_prediction.py:62-67 | the counters after a sequence of runs track exactly the four sources the tracker starts with |
| Simulator.ReplayCounts | app/simulate_prediction.py:228-237 | after n runs every source has n attempts and as many successes as runs that used it |
| Simulator.PerformanceTracker.constructor | app/simulate_prediction.py:62-67 | the tracker starts with zero attempts and successes for historical, twitter, reddit and ai_analysis |
| Simulator.PerformanceTracker.UpdateSourcePerformance | app/simulate_prediction.py:228-237 | the counters become Updated of the old counters and the result's sources_used (empty when missing), keeping the tracker valid |
| Simulator.ConfidenceVerdict | app/simulate_prediction.py:256-265 | the confidence note is an issue exactly when the confidence is below 0.5 |
| Simulator.CoverageVerdict | app/simulate_prediction.py:268-282 | the coverage note is an issue exactly when fewer than two sources were used |
| Simulator.VolumeVerdict | app/simulate_prediction.py:284-297 | the volume note is an issue exactly when both the post count and the historical count are below 10 |
| Simulator.Grade | app/simulate_prediction.py:299-305 | high exactly from 70, moderate exactly from 50 to 69, low exactly below 50 |
| Simulator.QualityOf | app/simulate_prediction.py:239-311 | failed exactly when success is missing or false, with score 0, the single issue "Prediction process failed" and no grade; otherwise a score from 20 to 80, graded by Grade, three notes each filed as an issue or a strength according to its verdict |
| Simulator.JudgeConfidence | app/simulate_prediction.py:256-265 | the note and points agree with ConfidenceVerdict and the 30/20/10 scale |
| Simulator.JudgeCoverage | app/simulate_prediction.py:268-282 | the note and points agree with CoverageVerdict and the 30/20/15/5 scale |
| Simulator.JudgeVolume | app/simulate_prediction.py:284-297 | the note and points agree with VolumeVerdict and the 20/15/5 scale |
| Simulator.AnalyzePredictionQuality | app/simulate_prediction.py:239-311 | the analysis built step by step is QualityOf the result |
| Simulator.QualityMonotone | app/simulate_prediction.py:256-297 | among successful results, more confidence, more sources and more data never lower the quality score |
| Simulator.RoundHalfEven | app/simulate_prediction.py:346 | Python's round to an integer lands within one half of its argument |
| Common.Round2Close | app/simulate_prediction.py:346 | round(x, 2) lies within 0.005 of x |
| Simulator.Round1 | app/simulate_prediction.py:353 | round(x, 1) lies within 0.05 of x |
| Simulator.RoundingStaysWithin | app/simulate_prediction.py:346-353 | rounding to one or two places never leaves an interval with integer bounds |
| Simulator.Reliability | app/simulate_prediction.py:348-353 | a source gets a reliability figure exactly when it has at least one attempt |
| Simulator.Recommendation | app/simulate_prediction.py:355-365 | each of the five recommendations is given exactly under its condition, in priority order: all failed, average below 0.3, Twitter below 50%, Reddit below 50%, otherwise healthy; a source without a figure counts as 0% |
| Simulator.CountOutcomes | app/simulate_prediction.py:335-343 | successes are the entries without an error, each contributing its confidence (0 when missing); successes plus failures are all entries |
| Simulator.CollectReliability | app/simulate_prediction.py:348-353 | the loop builds exactly the Reliability map |
| Simulator.GenerateSimulationSummary | app/simulate_prediction.py:324-367 | the totals add up, the average is that of the successes' confidences (0 when none), the reliability map is Reliability, and the single recommendation is Recommendation of those figures |
| Simulator.AverageConfidenceWithin | app/simulate_prediction.py:345-346 | when every confidence lies in [0, 1] so does the rounded average |
| Simulator.ReliabilityWithin | app/simulate_prediction.py:349-353 | every reliability figure lies between 0 and 100 while successes never exceed attempts |
| Simulator.RateWithin | app/simulate_prediction.py:352-353 | a success rate with successes at most attempts lies between 0 and 100 |
| Simulator.NoSuccessRate | app/simulate_prediction.py:352-353 | a source that never succeeded has reliability 0 |
| Simulator.ReplayedReliability | app/simulate_prediction.py:349-353 | after at least one run every source's reliability is the rounded share of runs that used it |
| Simulator.AiPredictionAnalysedAsFailed | app/simulate_prediction.py:250-253 | as written: a result of the service instantiated at line 31 has no success key, so it is analysed as failed and no source is ever credited |
| Simulator.AsWrittenNeverHealthy | app/simulate_prediction.py:355-365 | as written: runs that credit no source leave Twitter at 0%, so the summary never calls the system healthy |
| Simulator.NeverUsed | app/simulate_prediction.py:236-237 | runs with no sources used count no success for any source |
| Simulator.ReportAnalysedBySuccess | app/simulate_prediction.py:228-253 | corrected: fed the report it expects, the analysis succeeds exactly when the report succeeded and each source is credited exactly when the report used it |
| Simulator.FullReportGradedHigh | app/simulate_prediction.py:256-305 | corrected: a successful report with confidence at least 0.7, four sources and 20 posts scores 80 and is graded high |
| Simulator.CreateSentimentSummary | app/simulate_prediction.py:313-322 | the summary copies the analysis's sentiment, impact and confidence labels, and its key factors are the first three (all of them when there are at most three) joined by ", " |
| Simulator.SentimentSummaryLabels | app/simulate_prediction.py:313-322 | the summary of any analysis the AI service returns carries normalised labels, and with no posts it is neutral, minimal change, low with the fallback key factor |

## Left out

- The clock, `time.sleep` and `datetime.now`: the current time is the parameter `now`, and the sleeps of the Twitter retry loop are returned as a list of durations. The `prediction_time`, `timestamp` and `simulation_start` fields are left out of the modelled results.
- `_is_recent_post` and the recent-post count in `_assess_data_quality` are left out, because they depend on `datetime.now()` and `fromisoformat`.
- `strptime` on the bar dates in `calculate_technical_prediction` is left out. Bars are modelled by their closes only.
- Post dates are ISO 8601 strings compared lexicographically. They are modelled as an abstract, totally ordered integer key.
- JSON decoding (`json.loads`) and the regular expression that finds a JSON object in a reply are abstracted. Their outcome is an input: a decoded record, a value that is not a dictionary, or a decode error.
- Floating point is modelled as exact reals.
  - `round(x, n)` is round-half-even on reals, and its distance from `x` is proved.
  - `numpy` means and sums are exact real sums.
  - `round(confidence, 2)` in `prediction_service._generate_prediction` is left out, because there the confidence is a sum of multiples of 0.1, which rounding leaves unchanged on reals.
- `TechnicalAnalyzer.CalculateTechnicalIndicators` carries the variance rather than the standard deviation, because the square root is not modelled. The volatility class compares the variance with (0.02·mean)² and (0.05·mean)², and a lemma ties this to the ratio test for every square root of the variance.
- f-string number formatting (`{x:.2f}`, `{x:.1f}`) inside notes and reasoning lines is kept as structured data rather than text. `format_currency`, `format_percentage` and `safe_json_dumps` are left out, because they only format numbers or serialise JSON.
- Logging and `print` are left out, because they change no state the core reads.
- The network clients are abstracted: HistoricalDataService, RedditClient, the language-model client and the HTTP layer under `TwitterClient._make_request`. Each call's outcome is an input (posts, or the text of the exception raised), and the call itself is recorded in a returned log.
- The outcome of each network call is an unconstrained input, so the model also covers calls that raise. HistoricalDataService.get_historical_data (app/data/historical_data.py:33-56), TwitterClient.get_posts_for_ticker (app/social_media/twitter_client.py:67-69) and the SocialMediaService collectors (app/social_media/social_media_service.py:57-67) catch their own exceptions and return an empty list. Against those implementations the failure branches for a raising fetch, and the breakers' trips, are reachable only through an error they let through, such as the `TypeError` of a wrong call.
- Text operations are ASCII-only: `lower`, `upper`, `title`, `split`, `isalpha` and `isupper` are modelled on ASCII letters and ASCII white space. CPython's versions also act on other Unicode letters and spaces.
- Closes from yfinance are `numpy.float64` values (app/data/historical_data.py:159). Dividing one by a zero close gives inf or nan rather than `ZeroDivisionError`, so on that path the raising branch of `calculate_technical_prediction` is not taken. The model treats every close as a Python float, as the Alpha Vantage and Finnhub paths produce.
- Exceptions are modelled by their message text. Only the texts the breakers inspect matter.
- The two `TypeError` texts of the 3-argument calls use the wording of CPython 3.10 and later.
- A JSON body that fails to decode after a 400 in `_make_request` is not modelled. Only the status code and the Retry-After header of each response are inputs.
- `int()` is modelled on ASCII decimal text with optional surrounding whitespace and sign. Underscore separators and non-ASCII digits are not accepted by the model.
- `TwitterClient.get_influencer_posts`, `validate_credentials` and `PredictionService.get_available_tickers` are left out. The first two are single API requests with no logic beyond the request, and the last returns a constant.
- A dictionary passed as `influencers` to `SocialMediaService.get_influencer_posts` is not modelled. The model takes the account list, or an empty list for the defaults.
- A tweet whose `text` is JSON `null` yields `None` in the source; the model treats it like a missing text and yields "".
- A user record in `includes.users` without an `id` raises `KeyError` in `_process_tweets_response`; the model's users always carry an id.
- The `except` branch of `_analyze_prediction_quality` (app/simulate_prediction.py:307-309) is not modelled. `Simulator.View` holds what the `.get` chains found, so the non-dictionary values that would make them raise cannot be expressed.
- SignalCombiner.PredictionReasoning: the closing justification (`_get_prediction_reasoning`) is a choice among fixed texts and carries no contract of its own; the combiner's contract states that it is always the last reason.
- The simulator's `run_comprehensive_simulation`, `run_social_media_analysis_test`, `_check_service_status` and `main` are left out. They drive live services and print results.
- Concurrency is absent from the source, so the model has none. Every collection step is sequential.

## Findings

| source | as written | input that shows it | evidently intended | confidence | as-written member | corrected member |
|---|---|---|---|---|---|---|
| app/social_media/social_media_service.py:58-60 | `get_posts_for_ticker`, `get_twitter_posts_only` and `get_influencer_posts` pass three arguments to TwitterClient methods that take two (app/social_media/twitter_client.py:31, :73); the resulting `TypeError` is caught, mentions neither "rate limit" nor "429", so no Twitter post is ever returned and the breaker never trips | any call with the Twitter breaker open, e.g. `get_posts_for_ticker("AAPL")` right after construction | call the client with (ticker, limit) and (ticker, accounts), so that its posts are returned; the client catches its own request errors (app/social_media/twitter_client.py:67-69), so the corrected breaker trips only on an error the client lets through | high (not executed) | SocialMediaService.SocialMediaService.GetPostsForTickerAsWritten | SocialMediaService.SocialMediaService.GetPostsForTicker |
| app/prediction/ai_prediction_service.py:125-127 | `_create_error_response` is defined at module level (line 196), so `self._create_error_response` in the `except` branch raises `AttributeError` instead of returning the error response | five daily bars whose first close is 0, e.g. an Alpha Vantage day without a "4. close" value, which app/data/historical_data.py:85 reads as 0; the daily returns at app/utils/price_prediction.py:62 then divide by zero | return the error response for the failed step | high (not executed) | AiPredictionService.PredictPriceMovementAsWritten | AiPredictionService.PredictPriceMovement |
| app/simulate_prediction.py:250-253 | the simulator instantiates AIPredictionService (line 31) but reads "success" and "supporting_data.sources_used", which only PredictionService's report carries (app/prediction_service.py:137-152); every prediction is judged failed and no source is ever credited, so Twitter reliability is 0% and the summary is never "functioning well" | any completed AIPredictionService result | read the result shape the instantiated service returns, or instantiate PredictionService | high (not executed) | Simulator.AiPredictionAnalysedAsFailed | Simulator.ReportAnalysedBySuccess |

The lemmas that exhibit each row are listed in the model table:
- row 1: `SocialMediaService.ArityErrorsNeverTrip` with `SocialMediaService.RateLimitTextsTrip`;
- row 2: `AiPredictionService.ZeroCloseRaises` with `AiPredictionService.AsWrittenRaisesWhereErrorResponseIntended`;
- row 3: `Simulator.AsWrittenNeverHealthy` with `Simulator.FullReportGradedHigh`.

## Notes on the source

Where the repository's own description of the system and its code differ, the model follows the code:
- With no successful source the confidence is 0.0, not 0.1 (app/prediction_service.py:141-157).
- The combiner's reasoning list puts the AI's reasoning first, then at most three key factors, then at most two patterns (app/prediction/signal_combiner.py:73-88).
- Posts are sorted by the pair (date, engagement), descending, with Python's stable sort and no tie-break on id (app/social_media/social_media_service.py:89-90).
- The Twitter breaker trips only on "rate limit" (any case) or "429", and the Reddit breaker only on "403".
- Collection is sequential.
- The prediction service's report always carries the timeframe "1d", whatever was asked (app/prediction_service.py:137-152).
- `successful_predictions` in the simulator's summary counts the entries without an "error" key, whatever their own success flag says.
- The "unknown" defaults of `_create_sentiment_summary` never apply to a response of the AI service, which always carries its analysis.
- In app/prediction/ai_prediction_service.py a second `get_service_status` (line 229) is nested after the `return` of the module-level `_create_error_response`, so it is never defined. AIPredictionService therefore answers `get_service_status` with the method it inherits from PredictionService, which is what `PredictionService.PredictionService.GetServiceStatus` models.
