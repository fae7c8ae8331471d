/** `predictPriceChange`: an ordinary-least-squares line through the last (at most 30)
    prices, extrapolated one step, and a confidence score from the volatility of the
    price changes and the strength of the slope, clamped to [30, 85] and rounded. */
module TrendPredictor {
  import opened Series
  import opened JsMath

  datatype Forecast = Forecast(prediction: real, confidence: int)

  /** Below this many prices the predictor returns its neutral fallback. */
  const MinPoints: nat := 5
  /** The regression uses at most this many of the latest prices. */
  const MaxWindow: nat := 30

  /** The term `i * y` that the loop adds to `sumXY` (and, with `y = i`, to `sumXX`). */
  function Moment(i: nat, y: real): real
  {
    i as real * y
  }

  /** `sumX` after the loop: 0 + 1 + ... + (n - 1). */
  function SumIndex(n: nat): real
  {
    if n == 0 then 0.0 else SumIndex(n - 1) + (n - 1) as real
  }

  /** `sumXX` after the loop: the sum of i * i for i < n. */
  function SumIndexSquared(n: nat): real
  {
    if n == 0 then 0.0 else SumIndexSquared(n - 1) + Moment(n - 1, (n - 1) as real)
  }

  /** `sumXY` after the loop: the sum of i * s[i]. */
  function WeightedSum(s: seq<real>): real
    decreases |s|
  {
    if |s| == 0 then 0.0 else WeightedSum(s[..|s| - 1]) + Moment(|s| - 1, s[|s| - 1])
  }

  /** The closed forms of the index sums. */
  lemma {:induction false} SumIndexClosed(n: nat)
    ensures SumIndex(n) == (n as real) * (n as real - 1.0) / 2.0
    ensures SumIndexSquared(n) == (n as real - 1.0) * (n as real) * (2.0 * n as real - 1.0) / 6.0
  {
    if n > 0 {
      SumIndexClosed(n - 1);
    }
  }

  /** The denominator `n * sumXX - sumX * sumX` of the normal equations. */
  function Determinant(n: real, sumX: real, sumXX: real): real
  {
    n * sumXX - sumX * sumX
  }

  /** With two or more points the denominator is n^2 (n^2 - 1) / 12, which is positive,
      so the slope is always defined for the windows of 5 to 30 prices the predictor uses. */
  lemma RegressionDenominatorPositive(n: nat)
    requires n >= 2
    ensures Determinant(n as real, SumIndex(n), SumIndexSquared(n)) > 0.0
  {
    SumIndexClosed(n);
    var x := n as real;
    DeterminantClosed(x);
    ClosedFormPositive(x);
  }

  lemma ClosedFormPositive(x: real)
    requires x >= 2.0
    ensures (x * x) * (x * x - 1.0) / 12.0 > 0.0
  {
    assert x * x >= 4.0 by { MulNonNegative(x - 2.0, x + 2.0); }
    MulPositive(x * x, x * x - 1.0);
  }

  /** The polynomial identity behind the closed form of the denominator. */
  lemma DeterminantClosed(x: real)
    ensures Determinant(x, x * (x - 1.0) / 2.0, (x - 1.0) * x * (2.0 * x - 1.0) / 6.0)
         == (x * x) * (x * x - 1.0) / 12.0
  {
  }

  /** A fitted line `y = slope * x + intercept`. */
  datatype Fit = Fit(slope: real, intercept: real)
  {
    /** The line's value at `x`. */
    function At(x: real): real
    {
      slope * x + intercept
    }
  }

  /** The change from `current` to `next`, relative to `current`. */
  function RelativeChange(current: real, next: real): real
    requires current != 0.0
  {
    (next - current) / current
  }

  /** The normal equations of a least-squares line through `n` points, solved from the
      four sums: `slope = (n * sumXY - sumX * sumY) / (n * sumXX - sumX^2)` and
      `intercept = (sumY - slope * sumX) / n`. */
  function LeastSquares(n: real, sumX: real, sumY: real, sumXY: real, sumXX: real): Fit
    requires n > 0.0 && Determinant(n, sumX, sumXX) != 0.0
  {
    var slope := (n * sumXY - sumX * sumY) / Determinant(n, sumX, sumXX);
    Fit(slope, (sumY - slope * sumX) / n)
  }

  /** The fitted line satisfies both normal equations of least squares:
      `n * intercept + sumX * slope == sumY` and `sumX * intercept + sumXX * slope == sumXY`. */
  lemma LeastSquaresSolves(n: real, sumX: real, sumY: real, sumXY: real, sumXX: real)
    requires n > 0.0 && Determinant(n, sumX, sumXX) != 0.0
    ensures var fit := LeastSquares(n, sumX, sumY, sumXY, sumXX);
      fit.intercept * n + fit.slope * sumX == sumY &&
      fit.slope * sumXX + fit.intercept * sumX == sumXY
  {
    var fit := LeastSquares(n, sumX, sumY, sumXY, sumXX);
    var a, b := fit.intercept, fit.slope;
    assert b * Determinant(n, sumX, sumXX) == n * sumXY - sumX * sumY;
    assert a * n == sumY - b * sumX;
    calc {
      n * (b * sumXX + a * sumX);
      b * (n * sumXX) + (a * n) * sumX;
      b * (n * sumXX) + (sumY - b * sumX) * sumX;
      b * (n * sumXX - sumX * sumX) + sumX * sumY;
      b * Determinant(n, sumX, sumXX) + sumX * sumY;
      n * sumXY;
    }
  }

  /** The regression line through the points `(i, w[i])`. */
  function RegressionFit(w: seq<real>): Fit
    requires |w| >= 2
  {
    RegressionDenominatorPositive(|w|);
    LeastSquares(|w| as real, SumIndex(|w|), Sum(w), WeightedSum(w), SumIndexSquared(|w|))
  }

  /** The population standard deviation (through `sqrt`) of the successive price changes. */
  function Volatility(sqrt: real -> real, w: seq<real>): real
    requires |w| >= 2
  {
    var changes := Changes(w);
    var avgChange := Sum(changes) / |changes| as real;
    var variance := Sum(SquaredDeviations(changes, avgChange)) / |changes| as real;
    sqrt(variance)
  }

  function Abs(x: real): real
  {
    if x < 0.0 then -x else x
  }

  /** `Math.max(30, Math.min(85, 70 - volatility / last * 1000 + trendStrength * 100))`,
      where `trendStrength = |slope| / last`. */
  function ConfidenceScore(volatility: real, slope: real, last: real): (c: real)
    requires last != 0.0
    ensures 30.0 <= c <= 85.0
  {
    var trendStrength := Abs(slope) / last;
    var raw := 70.0 - (volatility / last * 1000.0) + (trendStrength * 100.0);
    var capped := if raw < 85.0 then raw else 85.0;
    if capped > 30.0 then capped else 30.0
  }

  /** The score is the raw value when that lies in [30, 85], and the nearer bound otherwise. */
  lemma ConfidenceScoreClamp(volatility: real, slope: real, last: real)
    requires last != 0.0
    ensures var raw := 70.0 - (volatility / last * 1000.0) + (Abs(slope) / last * 100.0);
      var c := ConfidenceScore(volatility, slope, last);
      (30.0 <= raw <= 85.0 ==> c == raw) && (raw < 30.0 ==> c == 30.0) && (raw > 85.0 ==> c == 85.0)
  {
  }

  /** `Math.min(prices.length, 30)`. */
  function WindowSize(len: nat): (n: nat)
    ensures n <= len && n <= MaxWindow
    ensures n == len || n == MaxWindow
  {
    if len < MaxWindow then len else MaxWindow
  }

  /** The prices the source accepts: the window's last price is the divisor of the forecast. */
  ghost predicate Predictable(prices: seq<real>)
  {
    |prices| >= MinPoints ==> prices[|prices| - 1] != 0.0
  }

  /** The last (at most 30) prices, `prices.slice(-n)`. */
  function Window(prices: seq<real>): (w: seq<real>)
    ensures |w| == WindowSize(|prices|)
    ensures |prices| > 0 ==> w[|w| - 1] == prices[|prices| - 1]
  {
    prices[|prices| - WindowSize(|prices|)..]
  }

  /** `predictPriceChange`: the neutral fallback below five prices, otherwise the
      forecast from the latest window. */
  function PriceChange(sqrt: real -> real, prices: seq<real>): Forecast
    requires Predictable(prices)
  {
    if |prices| < MinPoints then Forecast(0.0, 30) else WindowForecast(sqrt, Window(prices))
  }

  /** The forecast from a window: the relative change from its last price to the regression
      line one step past it, and the rounded clamped confidence. */
  function WindowForecast(sqrt: real -> real, w: seq<real>): Forecast
    requires |w| >= 2 && w[|w| - 1] != 0.0
  {
    var fit := RegressionFit(w);
    var last := w[|w| - 1];
    var confidence := ConfidenceScore(Volatility(sqrt, w), fit.slope, last);
    Forecast(RelativeChange(last, fit.At(|w| as real)), Round(confidence))
  }

  /** The regression loop of `predictPriceChange`: `sumX`, `sumY`, `sumXY`, `sumXX`. */
  method RegressionSums(recentPrices: seq<real>) returns (sumX: real, sumY: real, sumXY: real, sumXX: real)
    ensures sumX == SumIndex(|recentPrices|) && sumY == Sum(recentPrices)
    ensures sumXY == WeightedSum(recentPrices) && sumXX == SumIndexSquared(|recentPrices|)
  {
    sumX, sumY, sumXY, sumXX := 0.0, 0.0, 0.0, 0.0;
    var i := 0;
    while i < |recentPrices|
      invariant 0 <= i <= |recentPrices|
      invariant sumX == SumIndex(i) && sumXX == SumIndexSquared(i)
      invariant sumY == Sum(recentPrices[..i]) && sumXY == WeightedSum(recentPrices[..i])
    {
      assert recentPrices[..i + 1] == recentPrices[..i] + [recentPrices[i]];
      SumSnoc(recentPrices[..i], recentPrices[i]);
      WeightedSumSnoc(recentPrices[..i], recentPrices[i]);
      sumX := sumX + i as real;
      sumY := sumY + recentPrices[i];
      assert i as real * recentPrices[i] == Moment(i, recentPrices[i]);
      sumXY := sumXY + i as real * recentPrices[i];
      assert i as real * i as real == Moment(i, i as real);
      sumXX := sumXX + i as real * i as real;
      i := i + 1;
    }
    assert recentPrices[..i] == recentPrices;
  }

  lemma WeightedSumSnoc(s: seq<real>, x: real)
    ensures WeightedSum(s + [x]) == WeightedSum(s) + Moment(|s|, x)
  {
    assert (s + [x])[..|s|] == s;
  }

  /** The regression part of `predictPriceChange`: the sums, then the normal equations. */
  method FitLine(recentPrices: seq<real>) returns (fit: Fit)
    requires |recentPrices| >= 2
    ensures fit == RegressionFit(recentPrices)
  {
    var n := |recentPrices|;
    var sumX, sumY, sumXY, sumXX := RegressionSums(recentPrices);
    RegressionDenominatorPositive(n);
    var slope, intercept := SolveNormalEquations(n, sumX, sumY, sumXY, sumXX);
    fit := Fit(slope, intercept);
  }

  /** The two assignments after the loop: `slope` and then `intercept` from the sums. */
  method SolveNormalEquations(n: nat, sumX: real, sumY: real, sumXY: real, sumXX: real) returns (slope: real, intercept: real)
    requires n > 0 && Determinant(n as real, sumX, sumXX) != 0.0
    ensures Fit(slope, intercept) == LeastSquares(n as real, sumX, sumY, sumXY, sumXX)
  {
    slope := (n as real * sumXY - sumX * sumY) / (n as real * sumXX - sumX * sumX);
    intercept := (sumY - slope * sumX) / n as real;
  }

  /** The imperative `predictPriceChange`: the fallback, or the forecast from the window. */
  method PredictPriceChange(sqrt: real -> real, prices: seq<real>) returns (prediction: real, confidence: int)
    requires Predictable(prices)
    ensures Forecast(prediction, confidence) == PriceChange(sqrt, prices)
    ensures 30 <= confidence <= 85
  {
    if |prices| < MinPoints {
      return 0.0, 30;
    }
    var n := if |prices| < MaxWindow then |prices| else MaxWindow;
    var recentPrices := prices[|prices| - n..];
    assert recentPrices == Window(prices);
    prediction, confidence := PredictFromWindow(sqrt, recentPrices);
  }

  /** The body of `predictPriceChange` after the window is taken: the regression loop, the
      price-change loop, and the forecast built from them. */
  method PredictFromWindow(sqrt: real -> real, recentPrices: seq<real>) returns (prediction: real, confidence: int)
    requires |recentPrices| >= 2 && recentPrices[|recentPrices| - 1] != 0.0
    ensures Forecast(prediction, confidence) == WindowForecast(sqrt, recentPrices)
    ensures 30 <= confidence <= 85
  {
    var n := |recentPrices|;
    var fit := FitLine(recentPrices);
    var predictedPrice := fit.At(n as real);
    var currentPrice := recentPrices[n - 1];
    var volatility := MeasureVolatility(sqrt, recentPrices);
    var score := ConfidenceScore(volatility, fit.slope, currentPrice);
    prediction := (predictedPrice - currentPrice) / currentPrice;
    assert prediction == RelativeChange(currentPrice, predictedPrice);
    confidence := Round(score);
    RoundWithin(score, 30, 85);
  }

  /** The price-change loop and the volatility computed from its result. */
  method MeasureVolatility(sqrt: real -> real, recentPrices: seq<real>) returns (volatility: real)
    requires |recentPrices| >= 2
    ensures volatility == Volatility(sqrt, recentPrices)
  {
    var priceChanges := CollectChanges(recentPrices);
    var avgChange := Sum(priceChanges) / |priceChanges| as real;
    var variance := Sum(SquaredDeviations(priceChanges, avgChange)) / |priceChanges| as real;
    volatility := sqrt(variance);
  }

  /** Fewer than five prices give the neutral fallback, whatever their values. */
  lemma PriceChangeFallback(sqrt: real -> real, prices: seq<real>)
    requires |prices| < MinPoints
    ensures PriceChange(sqrt, prices) == Forecast(0.0, 30)
  {
  }

  /** The confidence is always an integer in [30, 85]. */
  lemma PriceChangeConfidence(sqrt: real -> real, prices: seq<real>)
    requires Predictable(prices)
    ensures 30 <= PriceChange(sqrt, prices).confidence <= 85
  {
    if |prices| >= MinPoints {
      var w := Window(prices);
      var c := ConfidenceScore(Volatility(sqrt, w), RegressionFit(w).slope, w[|w| - 1]);
      RoundWithin(c, 30, 85);
    }
  }

  /** The sum of the points of a line `a + d * i`. */
  lemma {:induction false} SumOfLine(w: seq<real>, a: real, d: real)
    requires OnLine(w, a, d)
    ensures Sum(w) == |w| as real * a + d * SumIndex(|w|)
    decreases |w|
  {
    if |w| > 0 {
      var k := |w| - 1;
      assert OnLine(w[..k], a, d);
      SumOfLine(w[..k], a, d);
      SumStep(k, |w|, a, d, w[k], Sum(w[..k]), SumIndex(k), SumIndex(|w|));
    }
  }

  /** The weighted sum of the points of a line `a + d * i`. */
  lemma {:induction false} WeightedSumOfLine(w: seq<real>, a: real, d: real)
    requires OnLine(w, a, d)
    ensures WeightedSum(w) == a * SumIndex(|w|) + d * SumIndexSquared(|w|)
    decreases |w|
  {
    if |w| > 0 {
      var k := |w| - 1;
      assert OnLine(w[..k], a, d);
      WeightedSumOfLine(w[..k], a, d);
      WeightedSumStep(k, a, d, w[k], WeightedSum(w[..k]), SumIndex(k), SumIndexSquared(k),
        SumIndex(|w|), SumIndexSquared(|w|));
    }
  }

  /** The induction step of `SumOfLine`, on plain reals: `sx'` is the index sum one point further on. */
  lemma SumStep(k: nat, m: nat, a: real, d: real, y: real, s: real, sx: real, sx': real)
    requires m == k + 1 && y == a + d * k as real
    requires s == k as real * a + d * sx
    requires sx' == sx + k as real
    ensures s + y == m as real * a + d * sx'
  {
  }

  /** The induction step of `WeightedSumOfLine`, on plain reals. */
  lemma WeightedSumStep(k: nat, a: real, d: real, y: real, ws: real, sx: real, sxx: real, sx': real, sxx': real)
    requires y == a + d * k as real
    requires ws == a * sx + d * sxx
    requires sx' == sx + k as real && sxx' == sxx + Moment(k, k as real)
    ensures ws + Moment(k, y) == a * sx' + d * sxx'
  {
  }

  /** The normal equations on the sums of a line `a + d * i` give back slope `d` and intercept `a`. */
  lemma LeastSquaresOfLine(n: real, a: real, d: real, sx: real, sxx: real, s: real, ws: real)
    requires s == n * a + d * sx && ws == a * sx + d * sxx
    requires n > 0.0 && Determinant(n, sx, sxx) != 0.0
    ensures LeastSquares(n, sx, s, ws, sxx) == Fit(d, a)
  {
    NumeratorOfLine(n, a, d, sx, sxx, s, ws);
    DivOfMultiple(n * ws - sx * s, Determinant(n, sx, sxx), d);
    DivOfMultiple(s - d * sx, n, a);
  }

  /** On the sums of a line, the slope numerator is `d` times the determinant. */
  lemma NumeratorOfLine(n: real, a: real, d: real, sx: real, sxx: real, s: real, ws: real)
    requires s == n * a + d * sx && ws == a * sx + d * sxx
    ensures n * ws - sx * s == d * Determinant(n, sx, sxx)
  {
  }

  /** On an exact line `a + d * i` the regression recovers the line: slope `d`, intercept `a`. */
  lemma FitOfLine(w: seq<real>, a: real, d: real)
    requires |w| >= 2
    requires OnLine(w, a, d)
    ensures RegressionFit(w) == Fit(d, a)
  {
    SumOfLine(w, a, d);
    WeightedSumOfLine(w, a, d);
    RegressionDenominatorPositive(|w|);
    LeastSquaresOfLine(|w| as real, a, d, SumIndex(|w|), SumIndexSquared(|w|), Sum(w), WeightedSum(w));
  }

  lemma DivOfMultiple(x: real, m: real, d: real)
    requires m != 0.0 && x == m * d
    ensures x / m == d
  {
  }

  /** Equal steps have no volatility. */
  lemma VolatilityOfEqualSteps(sqrt: real -> real, w: seq<real>, d: real)
    requires IsSqrt(sqrt) && |w| >= 2
    requires forall i :: 0 <= i < |w| - 1 ==> w[i + 1] - w[i] == d
    ensures Volatility(sqrt, w) == 0.0
  {
    var changes := Changes(w);
    MeanOfEqualSteps(changes, d);
    SquaredDeviationsZero(changes, d);
    DivOfMultiple(Sum(SquaredDeviations(changes, d)), |changes| as real, 0.0);
  }

  lemma MeanOfEqualSteps(changes: seq<real>, d: real)
    requires |changes| > 0 && AllEqual(changes, d)
    ensures Sum(changes) / |changes| as real == d
  {
    SumConstant(changes, d);
    DivOfMultiple(Sum(changes), |changes| as real, d);
  }

  /** Points on a line `a + d * i`. */
  ghost predicate OnLine(w: seq<real>, a: real, d: real)
  {
    forall i :: 0 <= i < |w| ==> w[i] == a + d * i as real
  }

  /** A tail of a line is a line with the same step, starting further along. */
  lemma OnLineSuffix(w: seq<real>, a: real, d: real, start: nat)
    requires OnLine(w, a, d) && start <= |w|
    ensures OnLine(w[start..], a + d * start as real, d)
  {
    forall i | 0 <= i < |w| - start
      ensures w[start..][i] == (a + d * start as real) + d * i as real
    {
      assert w[start..][i] == a + d * (start + i) as real;
    }
  }

  /** The line one step past its last point `last` is `last + d`. */
  lemma OneStepAhead(a: real, d: real, n: nat, last: real)
    requires n >= 1 && last == a + d * (n - 1) as real && last != 0.0
    ensures RelativeChange(last, Fit(d, a).At(n as real)) == d / last
  {
    assert Fit(d, a).At(n as real) - last == d;
  }

  /** Consecutive points of a line differ by its step. */
  lemma OnLineSteps(w: seq<real>, a: real, d: real)
    requires OnLine(w, a, d)
    ensures forall i :: 0 <= i < |w| - 1 ==> w[i + 1] - w[i] == d
  {
    forall i | 0 <= i < |w| - 1
      ensures w[i + 1] - w[i] == d
    {
      assert w[i + 1] == a + d * (i + 1) as real && w[i] == a + d * i as real;
    }
  }

  /** On a window that rises or falls by the same step `d` each time, the forecast is one
      step relative to the last price, and the confidence comes from the trend strength alone. */
  lemma WindowForecastOnLine(sqrt: real -> real, w: seq<real>, a: real, d: real)
    requires IsSqrt(sqrt) && |w| >= 2 && w[|w| - 1] != 0.0
    requires OnLine(w, a, d)
    ensures var last := w[|w| - 1];
      WindowForecast(sqrt, w) == Forecast(d / last, Round(ConfidenceScore(0.0, d, last)))
  {
    var n := |w|;
    FitOfLine(w, a, d);
    OnLineSteps(w, a, d);
    VolatilityOfEqualSteps(sqrt, w, d);
    OneStepAhead(a, d, n, w[n - 1]);
  }

  /** On prices that rise or fall by the same step `d` each time, the forecast is one
      step relative to the last price, and the confidence comes from the trend strength alone. */
  lemma PriceChangeOnLine(sqrt: real -> real, prices: seq<real>, a: real, d: real)
    requires IsSqrt(sqrt) && |prices| >= MinPoints && prices[|prices| - 1] != 0.0
    requires OnLine(prices, a, d)
    ensures var last := prices[|prices| - 1];
      PriceChange(sqrt, prices) == Forecast(d / last, Round(ConfidenceScore(0.0, d, last)))
  {
    var start := |prices| - WindowSize(|prices|);
    OnLineSuffix(prices, a, d, start);
    WindowForecastOnLine(sqrt, Window(prices), a + d * start as real, d);
  }

  /** A constant window (the last 30 prices, or all of them when there are fewer) gives
      no predicted change and confidence 70, whatever came before it. */
  lemma PriceChangeConstant(sqrt: real -> real, prices: seq<real>, c: real)
    requires IsSqrt(sqrt) && |prices| >= MinPoints && c != 0.0
    requires AllEqual(Window(prices), c)
    ensures PriceChange(sqrt, prices) == Forecast(0.0, 70)
  {
    assert OnLine(Window(prices), c, 0.0);
    WindowForecastOnLine(sqrt, Window(prices), c, 0.0);
  }
}
