/** Technical indicators over daily closes: trend, percentage change,
    five- and ten-bar moving averages and a volatility class. */
module TechnicalAnalyzer {
  import opened Common
  import opened Posts

  const MinDataPoints: nat := 2
  const GoodDataThreshold: nat := 10

  /** The indicator record. The optional fields are the ones the source only
      adds when there are enough bars. The source stores the volatility (a
      standard deviation); the model stores its square, the variance, and
      classifies by comparing squares. */
  datatype TechnicalSignals = TechnicalSignals(
    trend: string,
    latestPrice: real,
    priceChange: real,
    priceChangePercent: real,
    dataQuality: string,
    dataPoints: nat,
    sma5: Option<real>,
    priceVsSma: Option<string>,
    sma10: Option<real>,
    volatilityVariance: Option<real>,
    volatilityLevel: Option<string>)

  /** The result for fewer than two bars. */
  const Insufficient := TechnicalSignals("neutral", 0.0, 0.0, 0.0, "insufficient", 0, None, None, None, None, None)

  /** The last `k` elements of `s`. */
  function Last(s: seq<real>, k: nat): (r: seq<real>)
    requires k <= |s|
    ensures |r| == k
    ensures forall i :: 0 <= i < k ==> r[i] == s[|s| - k + i]
  {
    s[|s| - k..]
  }

  function Trend(latest: real, previous: real): (r: string)
    ensures r == "up" <==> latest > previous
    ensures r == "down" <==> latest < previous
    ensures r == "neutral" <==> latest == previous
  {
    if latest > previous then "up"
    else if latest < previous then "down"
    else "neutral"
  }

  /** Percentage change, with 0.0 when the previous price is zero. */
  function PercentageChange(latest: real, previous: real): (r: real)
    ensures previous == 0.0 ==> r == 0.0
    ensures previous != 0.0 ==> r * previous == (latest - previous) * 100.0
    ensures previous > 0.0 ==> (r > 0.0 <==> latest > previous) && (r < 0.0 <==> latest < previous)
  {
    if previous == 0.0 then 0.0 else ((latest - previous) / previous) * 100.0
  }

  /** Sum of squared deviations from `m`. */
  function SumSquares(s: seq<real>, m: real): real
  {
    if |s| == 0 then 0.0 else SumSquares(s[..|s| - 1], m) + (s[|s| - 1] - m) * (s[|s| - 1] - m)
  }

  lemma {:induction false} SumSquaresNonNegative(s: seq<real>, m: real)
    ensures SumSquares(s, m) >= 0.0
  {
    if |s| > 0 {
      SumSquaresNonNegative(s[..|s| - 1], m);
      var d := s[|s| - 1] - m;
      assert d * d >= 0.0;
    }
  }

  /** Population variance of a non-empty sequence. */
  function Variance(s: seq<real>): (r: real)
    requires |s| > 0
    ensures r >= 0.0
  {
    SumSquaresNonNegative(s, Mean(s));
    SumSquares(s, Mean(s)) / (|s| as real)
  }

  /** The source's classification, stated over the standard deviation `v`
      itself: the ratio `v / mean * 100` against 2 and 5. */
  function ClassifyByRatio(v: real, mean: real): string
  {
    if mean == 0.0 then "unknown"
    else if (v / mean) * 100.0 < 2.0 then "low"
    else if (v / mean) * 100.0 < 5.0 then "medium"
    else "high"
  }

  /** The same classification computed from the variance, without a square
      root: for a positive mean, `v / mean * 100 < c` is `v*v < (c/100*mean)^2`;
      for a negative mean the ratio is never positive, so the class is low. */
  function ClassifyVolatility(variance: real, mean: real): (r: string)
    requires variance >= 0.0
    ensures r in {"unknown", "low", "medium", "high"}
    ensures r == "unknown" <==> mean == 0.0
  {
    if mean == 0.0 then "unknown"
    else if mean < 0.0 then "low"
    else if variance < (0.02 * mean) * (0.02 * mean) then "low"
    else if variance < (0.05 * mean) * (0.05 * mean) then "medium"
    else "high"
  }

  lemma SquareLess(a: real, b: real)
    requires a >= 0.0 && b >= 0.0
    ensures a < b <==> a * a < b * b
  {
    assert b * b - a * a == (b - a) * (b + a);
    if a < b {
      ProductNonNegative(b - a, b + a);
    } else {
      ProductNonNegative(a - b, a + b);
      assert a * a - b * b == (a - b) * (a + b);
    }
  }

  lemma RatioBelow(v: real, mean: real, c: real)
    requires v >= 0.0 && mean > 0.0 && c > 0.0
    ensures (v / mean) * 100.0 < c <==> v * v < (c / 100.0 * mean) * (c / 100.0 * mean)
  {
    var t := c / 100.0 * mean;
    assert (v / mean) * 100.0 < c <==> v < t by {
      assert (v / mean) * 100.0 * mean == v * 100.0;
      assert t * 100.0 == c * mean;
    }
    SquareLess(v, t);
  }

  /** Classifying by variance agrees with the source's ratio test on the
      standard deviation, for every mean. */
  lemma ClassifyVolatilityMatchesRatio(v: real, mean: real)
    requires v >= 0.0
    ensures ClassifyVolatility(v * v, mean) == ClassifyByRatio(v, mean)
  {
    if mean > 0.0 {
      RatioBelow(v, mean, 2.0);
      RatioBelow(v, mean, 5.0);
      assert 2.0 / 100.0 * mean == 0.02 * mean;
      assert 5.0 / 100.0 * mean == 0.05 * mean;
    } else if mean < 0.0 {
      assert v / mean <= 0.0;
    }
  }

  /** The full indicator record for a list of bars (oldest first). */
  function CalculateTechnicalIndicators(bars: seq<PriceBar>): (r: TechnicalSignals)
    ensures |bars| < MinDataPoints ==> r == Insufficient
    ensures |bars| >= MinDataPoints ==>
      var latest := CloseOf(bars[|bars| - 1]);
      var previous := CloseOf(bars[|bars| - 2]);
      && (r.trend == "up" <==> latest > previous)
      && (r.trend == "down" <==> latest < previous)
      && (r.trend == "neutral" <==> latest == previous)
      && r.latestPrice == latest
      && r.priceChange == latest - previous
      && r.priceChangePercent == PercentageChange(latest, previous)
      && r.dataPoints == |bars|
      && (r.dataQuality == "good" <==> |bars| >= GoodDataThreshold)
      && (r.dataQuality == "limited" <==> |bars| < GoodDataThreshold)
      && (r.sma5.Some? <==> |bars| >= 5)
      && (r.priceVsSma.Some? <==> |bars| >= 5)
      && (r.volatilityLevel.Some? <==> |bars| >= 5)
      && (r.sma10.Some? <==> |bars| >= 10)
    ensures |bars| >= 5 ==>
      && r.sma5 == Some(Mean(Last(Closes(bars), 5)))
      && (r.priceVsSma == Some("above") <==> r.latestPrice > r.sma5.value)
      && (r.priceVsSma == Some("below") <==> r.latestPrice <= r.sma5.value)
      && r.volatilityVariance == Some(Variance(Last(Closes(bars), 5)))
      && r.volatilityLevel == Some(ClassifyVolatility(r.volatilityVariance.value, r.sma5.value))
    ensures |bars| >= 10 ==> r.sma10 == Some(Mean(Last(Closes(bars), 10)))
  {
    if |bars| < MinDataPoints then Insufficient
    else
      var closes := Closes(bars);
      var latest := closes[|closes| - 1];
      var previous := closes[|closes| - 2];
      var quality := if |bars| >= GoodDataThreshold then "good" else "limited";
      var base := TechnicalSignals(Trend(latest, previous), latest, latest - previous,
                                   PercentageChange(latest, previous), quality, |bars|,
                                   None, None, None, None, None);
      if |bars| >= 5 then AdvancedIndicators(base, closes) else base
  }

  /** The moving averages and volatility added when there are five or more bars. */
  function AdvancedIndicators(base: TechnicalSignals, closes: seq<real>): (r: TechnicalSignals)
    requires |closes| >= 5
    ensures r.trend == base.trend && r.latestPrice == base.latestPrice
    ensures r.priceChange == base.priceChange && r.priceChangePercent == base.priceChangePercent
    ensures r.dataQuality == base.dataQuality && r.dataPoints == base.dataPoints
    ensures r.sma5 == Some(Mean(Last(closes, 5)))
    ensures r.priceVsSma == Some(if closes[|closes| - 1] > r.sma5.value then "above" else "below")
    ensures r.sma10.Some? <==> |closes| >= 10
    ensures |closes| >= 10 ==> r.sma10 == Some(Mean(Last(closes, 10)))
    ensures r.volatilityVariance == Some(Variance(Last(closes, 5)))
    ensures r.volatilityLevel == Some(ClassifyVolatility(r.volatilityVariance.value, r.sma5.value))
  {
    var recent := Last(closes, 5);
    var sma5 := Mean(recent);
    var latest := closes[|closes| - 1];
    var variance := Variance(recent);
    base.(sma5 := Some(sma5),
          priceVsSma := Some(if latest > sma5 then "above" else "below"),
          sma10 := if |closes| >= 10 then Some(Mean(Last(closes, 10))) else None,
          volatilityVariance := Some(variance),
          volatilityLevel := Some(ClassifyVolatility(variance, sma5)))
  }

  /** The five-bar average lies between the lowest and highest of those closes. */
  lemma Sma5Bounds(bars: seq<PriceBar>, lo: real, hi: real)
    requires |bars| >= 5
    requires forall i :: |bars| - 5 <= i < |bars| ==> lo <= CloseOf(bars[i]) <= hi
    ensures CalculateTechnicalIndicators(bars).sma5.Some?
    ensures lo <= CalculateTechnicalIndicators(bars).sma5.value <= hi
  {
    var recent := Last(Closes(bars), 5);
    assert forall i :: 0 <= i < 5 ==> recent[i] == CloseOf(bars[|bars| - 5 + i]);
    MeanBounds(recent, lo, hi);
  }

  /** Five equal closes: the average is that close, the variance is zero and
      the volatility class is low for any positive price. */
  lemma {:induction false} SumOfConstant(s: seq<real>, c: real)
    requires forall i :: 0 <= i < |s| ==> s[i] == c
    ensures Sum(s) == (|s| as real) * c
    ensures SumSquares(s, c) == 0.0
  {
    if |s| > 0 {
      SumOfConstant(s[..|s| - 1], c);
    }
  }

  lemma FlatWindowIsLowVolatility(bars: seq<PriceBar>, c: real)
    requires |bars| >= 5 && c > 0.0
    requires forall i :: |bars| - 5 <= i < |bars| ==> CloseOf(bars[i]) == c
    ensures CalculateTechnicalIndicators(bars).volatilityLevel == Some("low")
  {
    var recent := Last(Closes(bars), 5);
    assert forall i :: 0 <= i < 5 ==> recent[i] == CloseOf(bars[|bars| - 5 + i]) == c;
    SumOfConstant(recent, c);
    assert Mean(recent) == c;
    assert Variance(recent) == 0.0;
    ProductNonNegative(0.02 * c, 0.02 * c);
    assert ClassifyVolatility(0.0, c) == "low";
    var r := CalculateTechnicalIndicators(bars);
    assert r.sma5 == Some(c);
    assert r.volatilityVariance == Some(0.0);
  }

  /** The test scenario: closes 153 then 157 give an upward trend, latest
      price 157 and a change of 4. */
  lemma RisingPairExample()
    ensures var r := CalculateTechnicalIndicators([PriceBar(Some(153.0)), PriceBar(Some(157.0))]);
      r.trend == "up" && r.latestPrice == 157.0 && r.priceChange == 4.0
      && r.dataQuality == "limited" && r.dataPoints == 2 && r.sma5.None?
  {
  }

  // ---------------------------------------------------------------------
  // Summary
  // ---------------------------------------------------------------------

  function Abs(x: real): real { if x < 0.0 then -x else x }

  /** Strength of the technical signal: weak for a flat trend, otherwise by
      the size of the percentage change. */
  function SignalStrength(s: TechnicalSignals): (r: string)
    ensures r in {"strong", "moderate", "weak"}
    ensures r == "strong" <==> s.trend != "neutral" && Abs(s.priceChangePercent) > 5.0
    ensures r == "moderate" <==> s.trend != "neutral" && 2.0 < Abs(s.priceChangePercent) <= 5.0
  {
    if s.trend == "neutral" then "weak"
    else if Abs(s.priceChangePercent) > 5.0 then "strong"
    else if Abs(s.priceChangePercent) > 2.0 then "moderate"
    else "weak"
  }

  /** bullish / bearish only for a directional trend of at least moderate strength. */
  function Recommendation(s: TechnicalSignals): (r: string)
    ensures r == "bullish" <==> s.trend == "up" && Abs(s.priceChangePercent) > 2.0
    ensures r == "bearish" <==> s.trend == "down" && Abs(s.priceChangePercent) > 2.0
    ensures r == "neutral" <==> !(s.trend in {"up", "down"} && Abs(s.priceChangePercent) > 2.0)
  {
    var strength := SignalStrength(s);
    if s.trend == "up" && strength in {"strong", "moderate"} then "bullish"
    else if s.trend == "down" && strength in {"strong", "moderate"} then "bearish"
    else "neutral"
  }

  /** A key indicator line; the trend line carries its percentage as a number. */
  datatype KeyIndicator = TrendPoint(trend: string, percent: real) | SmaPoint(position: string) | VolatilityPoint(level: string)

  /** The key indicator lines, in the order trend, moving average, volatility. */
  function KeyIndicators(s: TechnicalSignals): (r: seq<KeyIndicator>)
    ensures |r| <= 3
    ensures |r| == (if s.trend != "neutral" then 1 else 0) + (if s.sma5.Some? then 1 else 0)
                   + (if s.volatilityLevel.Some? then 1 else 0)
    ensures s.trend != "neutral" ==> r[0] == TrendPoint(s.trend, s.priceChangePercent)
    ensures s.sma5.Some? ==> r[if s.trend != "neutral" then 1 else 0] == SmaPoint(GetOr(s.priceVsSma, "unknown"))
    ensures s.volatilityLevel.Some? ==> r[|r| - 1] == VolatilityPoint(s.volatilityLevel.value)
    ensures (TrendPoint(s.trend, s.priceChangePercent) in r) <==> s.trend != "neutral"
    ensures (exists p :: SmaPoint(p) in r) <==> s.sma5.Some?
    ensures (exists l :: VolatilityPoint(l) in r) <==> s.volatilityLevel.Some?
  {
    (if s.trend != "neutral" then [TrendPoint(s.trend, s.priceChangePercent)] else [])
    + (if s.sma5.Some? then [SmaPoint(if s.priceVsSma.Some? then s.priceVsSma.value else "unknown")] else [])
    + (if s.volatilityLevel.Some? then [VolatilityPoint(s.volatilityLevel.value)] else [])
  }

  datatype TechnicalSummary = TechnicalSummary(
    trend: string, percent: real, signalStrength: string, recommendation: string,
    dataReliability: string, keyIndicators: seq<KeyIndicator>)

  /** `get_technical_summary`: the summary line's trend and percentage, the
      strength, the recommendation, the reliability and the key lines. */
  function GetTechnicalSummary(s: TechnicalSignals): (r: TechnicalSummary)
    ensures r.trend == s.trend && r.percent == s.priceChangePercent
    ensures r.signalStrength == SignalStrength(s) && r.recommendation == Recommendation(s)
    ensures r.keyIndicators == KeyIndicators(s)
    ensures r.recommendation != "neutral" ==> r.signalStrength in {"strong", "moderate"}
    ensures r.recommendation == "bullish" ==> r.trend == "up"
    ensures r.recommendation == "bearish" ==> r.trend == "down"
    ensures r.dataReliability == s.dataQuality
  {
    TechnicalSummary(s.trend, s.priceChangePercent, SignalStrength(s), Recommendation(s),
                     s.dataQuality, KeyIndicators(s))
  }

  /** The summary read back against the bars themselves: the
      recommendation follows the last two closes and the size of their
      change, there is one key line per present indicator, and the
      reliability is the bar-count quality. */
  lemma SummaryOfBars(bars: seq<PriceBar>)
    ensures |bars| < MinDataPoints ==>
      var t := GetTechnicalSummary(CalculateTechnicalIndicators(bars));
      t.recommendation == "neutral" && t.keyIndicators == [] && t.dataReliability == "insufficient"
    ensures |bars| >= MinDataPoints ==>
      var t := GetTechnicalSummary(CalculateTechnicalIndicators(bars));
      var latest := CloseOf(bars[|bars| - 1]);
      var previous := CloseOf(bars[|bars| - 2]);
      && (t.recommendation == "bullish" <==> latest > previous && Abs(PercentageChange(latest, previous)) > 2.0)
      && (t.recommendation == "bearish" <==> latest < previous && Abs(PercentageChange(latest, previous)) > 2.0)
      && |t.keyIndicators| == (if latest != previous then 1 else 0) + (if |bars| >= 5 then 2 else 0)
      && t.dataReliability == (if |bars| >= GoodDataThreshold then "good" else "limited")
  {
    var r := CalculateTechnicalIndicators(bars);
    if |bars| >= MinDataPoints {
      assert r.sma5.Some? <==> |bars| >= 5;
      assert r.volatilityLevel.Some? <==> |bars| >= 5;
    }
  }
}
