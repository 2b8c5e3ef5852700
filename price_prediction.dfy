/** Price projection by ordinary least squares over the last closes, and
    the 70/30 blend of that projection with the direction the signal
    combiner chose (app/utils/price_prediction.py). */
module PricePrediction {
  import opened Common
  import opened Posts
  import TechnicalAnalyzer
  import SentimentAnalyzer

  // ---------------------------------------------------------------------
  // Centred sums
  // ---------------------------------------------------------------------

  /** Σ (x_i − cx)·(y_i − cy). With `x == y` and `cx == cy` it is the sum
      of squared deviations. */
  function CrossSum(x: seq<real>, y: seq<real>, cx: real, cy: real): real
    requires |x| == |y|
  {
    if |x| == 0 then 0.0
    else CrossSum(x[..|x| - 1], y[..|y| - 1], cx, cy) + Prod(x[|x| - 1] - cx, y[|y| - 1] - cy)
  }

  /** A sum of squares is never negative. */
  lemma {:induction false} SquaresNonNegative(x: seq<real>, c: real)
    ensures CrossSum(x, x, c, c) >= 0.0
  {
    if |x| > 0 {
      SquaresNonNegative(x[..|x| - 1], c);
      SquareNonNegative(x[|x| - 1] - c);
    }
  }

  /** One term off the centre makes the sum of squares positive. */
  lemma {:induction false} SquaresPositive(x: seq<real>, c: real, i: nat)
    requires i < |x| && x[i] != c
    ensures CrossSum(x, x, c, c) > 0.0
  {
    var n := |x| - 1;
    var p := x[..n];
    if i == n {
      SquaresNonNegative(p, c);
      SquarePositive(x[n] - c);
    } else {
      assert p[i] == x[i];
      SquaresPositive(p, c, i);
      SquareNonNegative(x[n] - c);
    }
  }

  /** A sum of squares vanishes only when every term does. */
  lemma SquaresZero(x: seq<real>, c: real)
    requires CrossSum(x, x, c, c) == 0.0
    ensures forall i :: 0 <= i < |x| ==> x[i] == c
  {
    forall i | 0 <= i < |x|
      ensures x[i] == c
    {
      if x[i] != c {
        SquaresPositive(x, c, i);
      }
    }
  }

  /** A cross sum against a sequence sitting exactly at its own centre
      vanishes. */
  lemma {:induction false} CrossSumAgainstConstant(x: seq<real>, y: seq<real>, cx: real, cy: real)
    requires |x| == |y|
    requires forall i :: 0 <= i < |x| ==> x[i] == cx
    ensures CrossSum(x, y, cx, cy) == 0.0
  {
    if |x| > 0 {
      var n := |x| - 1;
      CrossSumAgainstConstant(x[..n], y[..n], cx, cy);
      ProdZero(y[n] - cy);
    }
  }

  /** If y − cy = b·(x − cx) pointwise then Σ(x − cx)(y − cy) = b·Σ(x − cx)². */
  lemma {:induction false} CrossSumScaled(x: seq<real>, y: seq<real>, cx: real, cy: real, b: real)
    requires |x| == |y|
    requires forall i :: 0 <= i < |x| ==> y[i] - cy == Prod(b, x[i] - cx)
    ensures CrossSum(x, y, cx, cy) == Prod(b, CrossSum(x, x, cx, cx))
  {
    if |x| > 0 {
      var n := |x| - 1;
      CrossSumScaled(x[..n], y[..n], cx, cy, b);
      var d := x[n] - cx;
      ProdSwap(d, b, d);
      ProdAdd(b, CrossSum(x[..n], x[..n], cx, cx), Prod(d, d));
    } else {
      ProdZero(b);
    }
  }

  /** Under the same hypothesis Σ(y − cy)² = b²·Σ(x − cx)². */
  lemma {:induction false} SquaresScaled(x: seq<real>, y: seq<real>, cx: real, cy: real, b: real)
    requires |x| == |y|
    requires forall i :: 0 <= i < |x| ==> y[i] - cy == Prod(b, x[i] - cx)
    ensures CrossSum(y, y, cy, cy) == Prod(Prod(b, b), CrossSum(x, x, cx, cx))
  {
    if |x| > 0 {
      var n := |x| - 1;
      SquaresScaled(x[..n], y[..n], cx, cy, b);
      var d := x[n] - cx;
      SquareOfProduct(b, d);
      ProdAdd(Prod(b, b), CrossSum(x[..n], x[..n], cx, cx), Prod(d, d));
    } else {
      ProdZero(Prod(b, b));
    }
  }

  /** If z = (y − cy) − b·(x − cx) pointwise then
      Σ(x − cx)·z = Σ(x − cx)(y − cy) − b·Σ(x − cx)². */
  lemma {:induction false} CrossSumOfDifference(x: seq<real>, y: seq<real>, z: seq<real>, cx: real, cy: real, b: real)
    requires |x| == |y| == |z|
    requires forall i :: 0 <= i < |x| ==> z[i] == (y[i] - cy) - Prod(b, x[i] - cx)
    ensures CrossSum(x, z, cx, 0.0) == CrossSum(x, y, cx, cy) - Prod(b, CrossSum(x, x, cx, cx))
  {
    if |x| > 0 {
      var n := |x| - 1;
      CrossSumOfDifference(x[..n], y[..n], z[..n], cx, cy, b);
      var d := x[n] - cx;
      ProdSub(d, y[n] - cy, Prod(b, d));
      ProdSwap(d, b, d);
      ProdAdd(b, CrossSum(x[..n], x[..n], cx, cx), Prod(d, d));
      assert z[n] - 0.0 == (y[n] - cy) - Prod(b, d);
    } else {
      ProdZero(b);
    }
  }

  /** If z = y − (a + b·x) pointwise then Σz = Σy − n·a − b·Σx. */
  lemma {:induction false} SumOfDifference(x: seq<real>, y: seq<real>, z: seq<real>, a: real, b: real)
    requires |x| == |y| == |z|
    requires forall i :: 0 <= i < |x| ==> z[i] == y[i] - (a + Prod(b, x[i]))
    ensures Sum(z) == Sum(y) - Prod(|x| as real, a) - Prod(b, Sum(x))
  {
    if |x| > 0 {
      var n := |x| - 1;
      SumOfDifference(x[..n], y[..n], z[..n], a, b);
      assert Sum(z) == Sum(z[..n]) + z[n];
      assert Sum(y) == Sum(y[..n]) + y[n];
      assert Sum(x) == Sum(x[..n]) + x[n];
      ProdAdd(b, Sum(x[..n]), x[n]);
      ProdAddLeft(n as real, 1.0, a);
      ProdOne(a);
    } else {
      ProdZero(a);
      ProdZero(b);
    }
  }

  /** `sum(s) == len(s) * mean(s)`. */
  lemma SumIsCountTimesMean(s: seq<real>)
    requires |s| > 0
    ensures Sum(s) == Prod(|s| as real, Mean(s))
  {
    ProdCommutes(|s| as real, Mean(s));
    QuotientTimesDivisor(Sum(s), |s| as real);
  }

  // ---------------------------------------------------------------------
  // linear_regression
  // ---------------------------------------------------------------------

  /** A fitted line `y = intercept + slope·x`. */
  datatype Line = Line(slope: real, intercept: real)

  function ValueAt(l: Line, x: real): real { l.intercept + Prod(l.slope, x) }

  /** `Σ(x − x̄)²`, the guard of the regression. */
  function Spread(x: seq<real>): real
    requires |x| > 0
  {
    CrossSum(x, x, Mean(x), Mean(x))
  }

  /** `linear_regression(x, y)`: the least-squares line, or slope 0 and
      the mean of `y` when the `x` values do not vary. An empty input
      falls into the zero-variance case with intercept 0. */
  function LinearRegression(x: seq<real>, y: seq<real>): (r: Line)
    requires |x| == |y|
    ensures |x| == 0 ==> r == Line(0.0, 0.0)
    ensures |x| > 0 ==> ValueAt(r, Mean(x)) == Mean(y)
    ensures |x| > 0 ==> Prod(r.slope, Spread(x)) == CrossSum(x, y, Mean(x), Mean(y))
    ensures |x| > 0 && Spread(x) == 0.0 ==> r == Line(0.0, Mean(y))
  {
    if |x| == 0 then Line(0.0, 0.0)
    else
      var mx := Mean(x);
      var my := Mean(y);
      var den := CrossSum(x, x, mx, mx);
      if den == 0.0 then
        SquaresZero(x, mx);
        CrossSumAgainstConstant(x, y, mx, my);
        ProdZero(0.0);
        ProdZero(mx);
        Line(0.0, my)
      else
        var slope := CrossSum(x, y, mx, my) / den;
        QuotientTimesDivisor(CrossSum(x, y, mx, my), den);
        Line(slope, my - Prod(slope, mx))
  }

  /** The residuals `y_i − (intercept + slope·x_i)`. */
  function Residuals(x: seq<real>, y: seq<real>, l: Line): (r: seq<real>)
    requires |x| == |y|
    ensures |r| == |x|
    ensures forall i :: 0 <= i < |x| ==> r[i] == y[i] - ValueAt(l, x[i])
  {
    seq(|x|, i requires 0 <= i < |x| => y[i] - ValueAt(l, x[i]))
  }

  /** The fitted line leaves residuals that sum to zero (the first normal
      equation of least squares). */
  lemma ResidualsSumToZero(x: seq<real>, y: seq<real>)
    requires |x| == |y| > 0
    ensures Sum(Residuals(x, y, LinearRegression(x, y))) == 0.0
  {
    var l := LinearRegression(x, y);
    var z := Residuals(x, y, l);
    var n := |x| as real;
    var mx, my := Mean(x), Mean(y);
    SumOfDifference(x, y, z, l.intercept, l.slope);
    SumIsCountTimesMean(x);
    SumIsCountTimesMean(y);
    assert l.intercept == my - Prod(l.slope, mx);
    // Sum(z) = n·ȳ − n·(ȳ − b·x̄) − b·(n·x̄)
    ProdSub(n, my, Prod(l.slope, mx));
    ProdSwap(n, l.slope, mx);
  }

  /** The residuals are uncorrelated with `x` (the second normal equation):
      no other slope fits better along `x`. */
  lemma ResidualsOrthogonal(x: seq<real>, y: seq<real>)
    requires |x| == |y| > 0
    ensures CrossSum(x, Residuals(x, y, LinearRegression(x, y)), Mean(x), 0.0) == 0.0
  {
    var l := LinearRegression(x, y);
    var z := Residuals(x, y, l);
    var mx, my := Mean(x), Mean(y);
    ResidualsCentred(x, y, l, mx, my);
    CrossSumOfDifference(x, y, z, mx, my, l.slope);
  }

  /** A line through the point (mx, my) leaves residuals
      `(y − my) − slope·(x − mx)`. */
  lemma ResidualsCentred(x: seq<real>, y: seq<real>, l: Line, mx: real, my: real)
    requires |x| == |y|
    requires ValueAt(l, mx) == my
    ensures forall i :: 0 <= i < |x| ==> Residuals(x, y, l)[i] == (y[i] - my) - Prod(l.slope, x[i] - mx)
  {
    forall i | 0 <= i < |x|
      ensures Residuals(x, y, l)[i] == (y[i] - my) - Prod(l.slope, x[i] - mx)
    {
      ProdSub(l.slope, x[i], mx);
    }
  }

  /** Points lying exactly on a line with varying `x` are fitted by that
      very line. */
  lemma ExactFit(x: seq<real>, y: seq<real>, a: real, b: real)
    requires |x| == |y| > 0
    requires Spread(x) != 0.0
    requires forall i :: 0 <= i < |x| ==> y[i] == ValueAt(Line(b, a), x[i])
    ensures LinearRegression(x, y) == Line(b, a)
  {
    var mx, my := Mean(x), Mean(y);
    var n := |x| as real;
    var zero := seq(|x|, i => 0.0);
    SumOfDifference(x, y, zero, a, b);
    SumOfZeros(|x|);
    SumIsCountTimesMean(x);
    SumIsCountTimesMean(y);
    // n·ȳ = n·a + b·(n·x̄) = n·(a + b·x̄)
    ProdSwap(b, n, mx);
    ProdAdd(n, a, Prod(b, mx));
    CancelLeft(n, my, a + Prod(b, mx));
    forall i | 0 <= i < |x|
      ensures y[i] - my == Prod(b, x[i] - mx)
    {
      ProdSub(b, x[i], mx);
    }
    CrossSumScaled(x, y, mx, my, b);
    var l := LinearRegression(x, y);
    ProdCommutes(l.slope, Spread(x));
    ProdCommutes(b, Spread(x));
    CancelLeft(Spread(x), l.slope, b);
  }

  lemma {:induction false} SumOfZeros(n: nat)
    ensures Sum(seq(n, i => 0.0)) == 0.0
  {
    if n > 0 {
      assert seq(n, i => 0.0)[..n - 1] == seq(n - 1, i => 0.0);
      SumOfZeros(n - 1);
    }
  }

  // ---------------------------------------------------------------------
  // calculate_technical_prediction
  // ---------------------------------------------------------------------

  const MinBars := 5
  const WindowCap := 30

  /** The regression's x values `0, 1, …, w − 1`. */
  function Indices(w: nat): (r: seq<real>)
    ensures |r| == w
    ensures forall i :: 0 <= i < w ==> r[i] == i as real
  {
    seq(w, i requires 0 <= i < w => i as real)
  }

  /** Two or more index positions always vary, so the zero-variance guard
      of the regression never fires inside the projection. */
  lemma IndicesVary(w: nat)
    requires w >= 2
    ensures Spread(Indices(w)) > 0.0
  {
    var x := Indices(w);
    if Mean(x) != 0.0 {
      SquaresPositive(x, Mean(x), 0);
    } else {
      SquaresPositive(x, Mean(x), 1);
    }
  }

  /** The last `min(30, n)` closes (a missing close counts as 0). */
  function Window(bars: seq<PriceBar>): (r: seq<real>)
    requires |bars| >= MinBars
    ensures |r| == Min(WindowCap, |bars|) && |r| >= MinBars
    ensures forall i :: 0 <= i < |r| ==> r[i] == CloseOf(bars[|bars| - |r| + i])
  {
    TechnicalAnalyzer.Last(Closes(bars), Min(WindowCap, |bars|))
  }

  /** The daily returns divide by every close but the last one; a zero
      there raises `ZeroDivisionError`. */
  predicate DividesByZero(w: seq<real>)
    requires |w| > 0
  {
    0.0 in w[..|w| - 1]
  }

  /** The daily returns `(w[i+1] − w[i]) / w[i]`. */
  function Returns(w: seq<real>): (r: seq<real>)
    requires |w| > 0 && !DividesByZero(w)
    ensures |r| == |w| - 1
  {
    seq(|w| - 1, i requires 0 <= i < |w| - 1 => assert w[i] in w[..|w| - 1]; (w[i + 1] - w[i]) / w[i])
  }

  /** The population variance of the returns, the square of the source's
      `volatility`. */
  function ReturnVariance(rets: seq<real>): (r: real)
    ensures r >= 0.0
  {
    if |rets| == 0 then 0.0
    else
      SquaresNonNegative(rets, Mean(rets));
      QuotientNonNegative(CrossSum(rets, rets, Mean(rets), Mean(rets)), |rets| as real);
      CrossSum(rets, rets, Mean(rets), Mean(rets)) / (|rets| as real)
  }

  /** The projection's result; `slope` and `returnVariance` are absent in
      the insufficient-data result. */
  datatype TechnicalPrediction = TechnicalPrediction(
    predictedPrice: Option<real>,
    confidence: real,
    trend: string,
    slope: Option<real>,
    returnVariance: Option<real>)

  const NoPrediction := TechnicalPrediction(None, 0.0, "neutral", None, None)
  const ZeroDivision := "float division by zero"

  /** `up` for a rising line, `down` for a falling one. */
  function SlopeTrend(slope: real): (r: string)
    ensures r == "up" <==> slope > 0.0
    ensures r == "down" <==> slope < 0.0
    ensures r == "neutral" <==> slope == 0.0
  {
    if slope > 0.0 then "up" else if slope < 0.0 then "down" else "neutral"
  }

  /** Σ(y − ȳ)², the total sum of squares. */
  function TotalSquares(y: seq<real>): real
    requires |y| > 0
  {
    CrossSum(y, y, Mean(y), Mean(y))
  }

  /** Σ(y_i − line(i))², the residual sum of squares at positions 0, 1, … */
  function ResidualSquares(y: seq<real>, l: Line): real
  {
    var z := Residuals(Indices(|y|), y, l);
    CrossSum(z, z, 0.0, 0.0)
  }

  /** The coefficient of determination, 0 when the window is flat. */
  function RSquared(y: seq<real>, l: Line): real
    requires |y| > 0
  {
    if TotalSquares(y) != 0.0 then 1.0 - ResidualSquares(y, l) / TotalSquares(y) else 0.0
  }

  /** `max(0, min(r², 1))`. */
  function FitConfidence(y: seq<real>, l: Line): (r: real)
    requires |y| > 0
    ensures 0.0 <= r <= 1.0
  {
    MaxReal(0.0, MinReal(RSquared(y, l), 1.0))
  }

  /** The confidence is 1 exactly when the line passes through every point
      of a window that is not flat. */
  lemma FitConfidenceOne(y: seq<real>, l: Line)
    requires |y| > 0
    ensures FitConfidence(y, l) == 1.0 <==>
      TotalSquares(y) != 0.0 &&
      (forall i :: 0 <= i < |y| ==> y[i] == ValueAt(l, i as real))
  {
    var z := Residuals(Indices(|y|), y, l);
    var total, residual := TotalSquares(y), ResidualSquares(y, l);
    SquaresNonNegative(y, Mean(y));
    SquaresNonNegative(z, 0.0);
    if total != 0.0 {
      QuotientNonNegative(residual, total);
      if residual == 0.0 {
        SquaresZero(z, 0.0);
        forall i | 0 <= i < |y|
          ensures y[i] == ValueAt(l, i as real)
        {
          assert z[i] == 0.0;
        }
      } else {
        QuotientPositive(residual, total);
        if forall i :: 0 <= i < |y| ==> y[i] == ValueAt(l, i as real) {
          CrossSumAgainstConstant(z, z, 0.0, 0.0);
        }
      }
    }
  }

  /** `calculate_technical_prediction(historical_data, prediction_days)`:
      fewer than five bars give no prediction; otherwise the least-squares
      line through the last `min(30, n)` closes at positions `0 … w − 1`,
      evaluated at `w + days − 1` and rounded to cents. A zero close
      anywhere but at the end of the window raises in the returns. */
  function CalculateTechnicalPrediction(bars: seq<PriceBar>, days: int): (r: Result<TechnicalPrediction>)
    ensures |bars| < MinBars ==> r == Ok(NoPrediction)
    ensures |bars| >= MinBars ==> (r.Err? <==> DividesByZero(Window(bars)))
    ensures r.Err? ==> r.error == ZeroDivision
  {
    if |bars| < MinBars then Ok(NoPrediction)
    else
      var w := Window(bars);
      if DividesByZero(w) then Err(ZeroDivision)
      else
        var l := LinearRegression(Indices(|w|), w);
        var nextX := (|w| + days - 1) as real;
        Ok(TechnicalPrediction(
          Some(Round2(ValueAt(l, nextX))),
          FitConfidence(w, l),
          SlopeTrend(l.slope),
          Some(l.slope),
          Some(ReturnVariance(Returns(w)))))
  }

  /** A successful projection follows the least-squares line of the
      window: the price is that line at `w + days − 1` rounded to cents,
      the trend is the sign of its slope, and the confidence is its
      clamped R², always in [0, 1]. */
  lemma ProjectionFollowsLine(bars: seq<PriceBar>, days: int)
    requires |bars| >= MinBars && !DividesByZero(Window(bars))
    ensures var w := Window(bars);
      var l := LinearRegression(Indices(|w|), w);
      var p := CalculateTechnicalPrediction(bars, days);
      p.Ok? &&
      p.value.slope == Some(l.slope) &&
      (p.value.trend == "up" <==> l.slope > 0.0) &&
      (p.value.trend == "down" <==> l.slope < 0.0) &&
      p.value.predictedPrice == Some(Round2(ValueAt(l, (|w| + days - 1) as real))) &&
      0.0 <= p.value.confidence <= 1.0 &&
      p.value.confidence == FitConfidence(w, l) &&
      p.value.returnVariance.Some? && p.value.returnVariance.value >= 0.0
  {
  }

  /** A window whose closes lie on a non-flat line is projected along that
      line with full confidence: the projection is exact for linear data. */
  lemma LinearWindowProjection(bars: seq<PriceBar>, days: int, a: real, b: real)
    requires |bars| >= MinBars && !DividesByZero(Window(bars))
    requires b != 0.0
    requires forall i :: 0 <= i < |Window(bars)| ==> Window(bars)[i] == ValueAt(Line(b, a), i as real)
    ensures var r := CalculateTechnicalPrediction(bars, days);
      r.Ok? &&
      r.value.predictedPrice == Some(Round2(ValueAt(Line(b, a), (|Window(bars)| + days - 1) as real))) &&
      r.value.confidence == 1.0 &&
      r.value.trend == SlopeTrend(b)
  {
    var w := Window(bars);
    var x := Indices(|w|);
    IndicesVary(|w|);
    ExactFit(x, w, a, b);
    OnLineSquares(x, w, a, b);
    SquarePositive(b);
    SameSignProduct(Prod(b, b), Spread(x));
    FitConfidenceOne(w, Line(b, a));
  }

  /** Points on a line of slope b spread b² times as much as their x values. */
  lemma OnLineSquares(x: seq<real>, y: seq<real>, a: real, b: real)
    requires |x| == |y| > 0
    requires Spread(x) != 0.0
    requires forall i :: 0 <= i < |x| ==> y[i] == ValueAt(Line(b, a), x[i])
    ensures TotalSquares(y) == Prod(Prod(b, b), Spread(x))
  {
    var mx, my := Mean(x), Mean(y);
    ExactFit(x, y, a, b);
    assert my == ValueAt(Line(b, a), mx);
    forall i | 0 <= i < |x|
      ensures y[i] - my == Prod(b, x[i] - mx)
    {
      ProdSub(b, x[i], mx);
    }
    SquaresScaled(x, y, mx, my, b);
  }

  /** A flat window (all closes equal and non-zero) projects that same
      price, with trend neutral and confidence 0. */
  lemma FlatWindowProjection(bars: seq<PriceBar>, days: int, c: real)
    requires |bars| >= MinBars
    requires c != 0.0
    requires forall i :: 0 <= i < |Window(bars)| ==> Window(bars)[i] == c
    ensures var r := CalculateTechnicalPrediction(bars, days);
      r.Ok? && r.value.predictedPrice == Some(Round2(c)) &&
      r.value.confidence == 0.0 && r.value.trend == "neutral"
  {
    var w := Window(bars);
    var x := Indices(|w|);
    IndicesVary(|w|);
    forall i | 0 <= i < |w|
      ensures w[i] == ValueAt(Line(0.0, c), x[i])
    {
      ProdZero(x[i]);
    }
    ExactFit(x, w, c, 0.0);
    ProdZero((|w| + days - 1) as real);
    MeanBounds(w, c, c);
    CrossSumAgainstConstant(w, w, c, c);
  }

  // ---------------------------------------------------------------------
  // combine_predictions
  // ---------------------------------------------------------------------

  const AiBlendWeight := 0.7
  const TechBlendWeight := 0.3
  const DefaultAiConfidence := 0.5

  /** The direction table; an unknown direction moves nothing. */
  function DirectionModifier(direction: string): (r: real)
    ensures -0.05 <= r <= 0.05
    ensures r > 0.0 <==> direction == "strong_buy" || direction == "buy"
    ensures r < 0.0 <==> direction == "strong_sell" || direction == "sell"
    ensures r == 0.05 <==> direction == "strong_buy"
    ensures r == 0.02 <==> direction == "buy"
    ensures r == -0.02 <==> direction == "sell"
    ensures r == -0.05 <==> direction == "strong_sell"
    ensures r == 0.0 <==> direction !in {"strong_buy", "buy", "sell", "strong_sell"}
  {
    match direction
    case "strong_buy" => 0.05
    case "buy" => 0.02
    case "hold" => 0.0
    case "sell" => -0.02
    case "strong_sell" => -0.05
    case _ => 0.0
  }

  /** The blended forecast. */
  datatype CombinedPrediction = CombinedPrediction(
    predictedPrice: real,
    combinedConfidence: real,
    aiContribution: string,
    technicalContribution: string)

  /** `ai_modifier`: the direction's modifier scaled by the AI confidence. */
  function AiModifier(direction: Option<string>, aiConfidence: Option<real>): real
  {
    Prod(DirectionModifier(GetOr(direction, "hold")),
         GetOr(aiConfidence, DefaultAiConfidence))
  }

  /** `combine_predictions`: `direction` and `aiConfidence` are `None` when
      the AI payload lacks them (defaults "hold" and 0.5). A technical
      price against a zero current price raises. */
  function CombinePredictions(direction: Option<string>, aiConfidence: Option<real>,
                              tech: TechnicalPrediction, current: real): (r: Result<CombinedPrediction>)
    ensures r.Err? <==> tech.predictedPrice.Some? && current == 0.0
    ensures r.Err? ==> r.error == ZeroDivision
    ensures r.Ok? ==> r.value.aiContribution == GetOr(direction, "hold")
    ensures r.Ok? && tech.predictedPrice.None? ==>
      r.value.combinedConfidence == GetOr(aiConfidence, DefaultAiConfidence) &&
      r.value.technicalContribution == "unavailable"
    ensures r.Ok? && tech.predictedPrice.Some? ==>
      r.value.technicalContribution == tech.trend &&
      r.value.combinedConfidence ==
        AiBlendWeight * GetOr(aiConfidence, DefaultAiConfidence) + TechBlendWeight * tech.confidence
  {
    var d := GetOr(direction, "hold");
    var c := GetOr(aiConfidence, DefaultAiConfidence);
    var modifier := AiModifier(direction, aiConfidence);
    if tech.predictedPrice.Some? then
      if current == 0.0 then Err(ZeroDivision)
      else
        var techChange := (tech.predictedPrice.value - current) / current;
        var change := modifier * AiBlendWeight + Prod(TechBlendWeight * tech.confidence, techChange);
        Ok(CombinedPrediction(Round2(Prod(current, 1.0 + change)),
                              c * AiBlendWeight + tech.confidence * TechBlendWeight, d, tech.trend))
    else
      Ok(CombinedPrediction(Round2(Prod(current, 1.0 + modifier)), c, d, "unavailable"))
  }

  /** Without a technical price the AI modifier alone moves the price:
      `current·(1 + modifier)`, rounded to cents. */
  lemma AiOnlyPrice(direction: Option<string>, aiConfidence: Option<real>, current: real)
    ensures var r := CombinePredictions(direction, aiConfidence, NoPrediction, current);
      r.Ok? && r.value.predictedPrice == Round2(current + Prod(current, AiModifier(direction, aiConfidence)))
  {
    ProdAdd(current, 1.0, AiModifier(direction, aiConfidence));
    ProdOne(current);
  }

  /** With a technical price the price moves by 0.7 of the AI modifier plus
      0.3 of the technical relative change scaled by the technical
      confidence. */
  lemma BlendedPrice(direction: Option<string>, aiConfidence: Option<real>,
                     tech: TechnicalPrediction, current: real)
    requires tech.predictedPrice.Some? && current != 0.0
    ensures var change := AiBlendWeight * AiModifier(direction, aiConfidence) +
        Prod(TechBlendWeight * tech.confidence, (tech.predictedPrice.value - current) / current);
      var r := CombinePredictions(direction, aiConfidence, tech, current);
      r.Ok? && r.value.predictedPrice == Round2(Prod(current, 1.0 + change))
  {
  }

  /** Combined confidence is a convex combination: it stays in [0, 1] when
      both inputs do. */
  lemma CombinedConfidenceBounds(direction: Option<string>, aiConfidence: Option<real>,
                                 tech: TechnicalPrediction, current: real)
    requires CombinePredictions(direction, aiConfidence, tech, current).Ok?
    requires 0.0 <= GetOr(aiConfidence, DefaultAiConfidence) <= 1.0
    requires 0.0 <= tech.confidence <= 1.0
    ensures 0.0 <= CombinePredictions(direction, aiConfidence, tech, current).value.combinedConfidence <= 1.0
  {
  }

  /** Without a technical price, with a positive current price and a
      non-negative AI confidence, a buy-family direction never rounds below
      the current price and a sell-family direction never rounds above
      it. */
  lemma DirectionMovesPrice(direction: string, aiConfidence: real, current: real)
    requires current > 0.0 && aiConfidence >= 0.0
    ensures var r := CombinePredictions(Some(direction), Some(aiConfidence), NoPrediction, current);
      r.Ok? &&
      (DirectionModifier(direction) >= 0.0 ==> r.value.predictedPrice >= Round2(current)) &&
      (DirectionModifier(direction) <= 0.0 ==> r.value.predictedPrice <= Round2(current))
  {
    var m := AiModifier(Some(direction), Some(aiConfidence));
    AiOnlyPrice(Some(direction), Some(aiConfidence), current);
    if DirectionModifier(direction) >= 0.0 {
      ProductNonNegative(DirectionModifier(direction), aiConfidence);
      ProductNonNegative(current, m);
      Round2Monotone(current, current + Prod(current, m));
    }
    if DirectionModifier(direction) <= 0.0 {
      ProductNonPositive(DirectionModifier(direction), aiConfidence);
      ProdCommutes(current, m);
      ProductNonPositive(m, current);
      Round2Monotone(current + Prod(current, m), current);
    }
  }

  /** "hold" without a technical price keeps the current price, rounded. */
  lemma HoldKeepsPrice(aiConfidence: Option<real>, current: real)
    ensures var r := CombinePredictions(Some("hold"), aiConfidence, NoPrediction, current);
      r.Ok? && r.value.predictedPrice == Round2(current) && r.value.technicalContribution == "unavailable"
  {
    AiOnlyPrice(Some("hold"), aiConfidence, current);
    ProdZero(GetOr(aiConfidence, DefaultAiConfidence));
    ProdZero(current);
  }
}
