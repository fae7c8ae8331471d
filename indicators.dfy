/** The technical indicators of `PredictionService`: simple and exponential moving
    averages, RSI, MACD and Bollinger bands, each computed from one price series. */
module Indicators {
  import opened Series
  import opened JsMath

  datatype Bands = Bands(upper: real, lower: real, middle: real)

  /** The `TechnicalIndicators` record. */
  datatype Technicals = Technicals(sma20: real, sma50: real, rsi: real, macd: real, bollinger: Bands)

  // ---------------------------------------------------------------------------
  // Simple moving average

  /** `calculateSMA`: the mean of the last `period` prices; with fewer prices than
      `period`, the last price, or 0 for an empty series. */
  function Sma(prices: seq<real>, period: nat): real
    requires period > 0
  {
    if |prices| < period then
      (if |prices| == 0 then 0.0 else prices[|prices| - 1])
    else
      TrailingMean(prices, period)
  }

  /** The moving average lies within the range of the window it averages
      (the last `period` prices, or all of them when there are fewer). */
  lemma SmaWithinWindow(prices: seq<real>, period: nat, lo: real, hi: real)
    requires period > 0 && |prices| > 0
    requires Within(TakeLast(prices, period), lo, hi)
    ensures lo <= Sma(prices, period) <= hi
  {
    if |prices| >= period {
      TrailingMeanWithin(prices, period, lo, hi);
    } else {
      assert TakeLast(prices, period) == prices;
    }
  }

  /** A constant window averages to that constant. */
  lemma SmaConstantWindow(prices: seq<real>, period: nat, c: real)
    requires period > 0 && |prices| > 0
    requires AllEqual(TakeLast(prices, period), c)
    ensures Sma(prices, period) == c
  {
    SmaWithinWindow(prices, period, c, c);
  }

  // ---------------------------------------------------------------------------
  // Relative strength index

  /** `changes.map(c => c > 0 ? c : 0)`. */
  function Gains(c: seq<real>): (g: seq<real>)
    ensures |g| == |c|
    ensures forall i :: 0 <= i < |c| ==> g[i] == (if c[i] > 0.0 then c[i] else 0.0) && g[i] >= 0.0
  {
    seq(|c|, i requires 0 <= i < |c| => if c[i] > 0.0 then c[i] else 0.0)
  }

  /** `changes.map(c => c < 0 ? -c : 0)`. */
  function Losses(c: seq<real>): (l: seq<real>)
    ensures |l| == |c|
    ensures forall i :: 0 <= i < |c| ==> l[i] == (if c[i] < 0.0 then -c[i] else 0.0) && l[i] >= 0.0
  {
    seq(|c|, i requires 0 <= i < |c| => if c[i] < 0.0 then -c[i] else 0.0)
  }

  /** The last step of `calculateRSI`, from the average gain and loss:
      100 when there is no loss, otherwise `100 - 100 / (1 + avgGain / avgLoss)`. */
  function RsiFromAverages(avgGain: real, avgLoss: real): (r: real)
    requires avgGain >= 0.0 && avgLoss >= 0.0
    ensures 0.0 <= r <= 100.0
    ensures r == 100.0 <==> avgLoss == 0.0
  {
    if avgLoss == 0.0 then 100.0
    else
      var rs := avgGain / avgLoss;
      assert 0.0 < 100.0 / (1.0 + rs) <= 100.0;
      100.0 - 100.0 / (1.0 + rs)
  }

  /** `calculateRSI`: 50 below `period + 1` prices; otherwise plain (not smoothed) means
      of the last `period` gains and losses of the whole series of differences. */
  function Rsi(prices: seq<real>, period: nat): real
    requires period > 0
  {
    if |prices| < period + 1 then 50.0
    else
      var changes := Changes(prices);
      TrailingMeanZeroIff(Gains(changes), period);
      TrailingMeanZeroIff(Losses(changes), period);
      RsiFromAverages(TrailingMean(Gains(changes), period), TrailingMean(Losses(changes), period))
  }

  /** The imperative `calculateRSI`: the differences are pushed one by one by `CollectChanges`. */
  method CalculateRsi(prices: seq<real>, period: nat) returns (rsi: real)
    requires period > 0
    ensures rsi == Rsi(prices, period)
    ensures 0.0 <= rsi <= 100.0
  {
    if |prices| < period + 1 {
      return 50.0;
    }
    var changes := CollectChanges(prices);
    var gains := Gains(changes);
    var losses := Losses(changes);
    TrailingMeanZeroIff(gains, period);
    TrailingMeanZeroIff(losses, period);
    var avgGain := TrailingMean(gains, period);
    var avgLoss := TrailingMean(losses, period);
    rsi := RsiFromAverages(avgGain, avgLoss);
  }

  /** RSI is neutral (50) on short input and always lies in [0, 100]. */
  lemma RsiRange(prices: seq<real>, period: nat)
    requires period > 0
    ensures |prices| < period + 1 ==> Rsi(prices, period) == 50.0
    ensures 0.0 <= Rsi(prices, period) <= 100.0
  {
  }

  /** RSI is exactly 100 if and only if there are enough prices and none of the
      last `period` price changes is a fall. */
  lemma RsiHundredIff(prices: seq<real>, period: nat)
    requires period > 0
    ensures Rsi(prices, period) == 100.0 <==>
      |prices| >= period + 1 &&
      forall j :: |prices| - period <= j < |prices| ==> prices[j - 1] <= prices[j]
  {
    if |prices| >= period + 1 {
      var changes := Changes(prices);
      var losses := Losses(changes);
      var l := TakeLast(losses, period);
      var base := |changes| - period;
      TrailingMeanZeroIff(losses, period);
      if AllEqual(l, 0.0) {
        forall j | |prices| - period <= j < |prices|
          ensures prices[j - 1] <= prices[j]
        {
          assert l[j - 1 - base] == losses[j - 1] == 0.0;
        }
      } else {
        var i :| 0 <= i < period && l[i] != 0.0;
        assert l[i] == losses[base + i];
        assert prices[base + i] > prices[base + i + 1];
      }
    }
  }

  // ---------------------------------------------------------------------------
  // Exponential moving average and MACD

  /** The smoothing factor `2 / (period + 1)`. */
  function Multiplier(period: nat): (m: real)
    ensures 0.0 < m <= 2.0
    ensures period > 0 ==> m <= 1.0
  {
    2.0 / (period as real + 1.0)
  }

  /** One update of the running EMA by the next price. */
  function EmaStep(price: real, ema: real, m: real): real
  {
    price * m + ema * (1.0 - m)
  }

  /** The EMA walk: seeded with the first price, then one `EmaStep` for every later price. */
  function EmaRun(s: seq<real>, m: real): real
    requires |s| > 0
    decreases |s|
  {
    if |s| == 1 then s[0] else EmaStep(s[|s| - 1], EmaRun(s[..|s| - 1], m), m)
  }

  /** `calculateEMA`: 0 for an empty series, otherwise the walk over the whole series. */
  function Ema(prices: seq<real>, period: nat): real
  {
    if |prices| == 0 then 0.0 else EmaRun(prices, Multiplier(period))
  }

  /** The imperative `calculateEMA`, updating `ema` in a loop. */
  method CalculateEma(prices: seq<real>, period: nat) returns (ema: real)
    ensures ema == Ema(prices, period)
  {
    if |prices| == 0 {
      return 0.0;
    }
    if |prices| == 1 {
      return prices[0];
    }
    var multiplier := 2.0 / (period as real + 1.0);
    ema := prices[0];
    var i := 1;
    while i < |prices|
      invariant 1 <= i <= |prices|
      invariant ema == EmaRun(prices[..i], multiplier)
    {
      assert prices[..i + 1][..i] == prices[..i] && prices[..i + 1][i] == prices[i];
      ema := (prices[i] * multiplier) + (ema * (1.0 - multiplier));
      assert ema == EmaRun(prices[..i + 1], multiplier);
      i := i + 1;
    }
    assert prices[..i] == prices;
  }

  /** With a multiplier in [0, 1] the EMA is a weighted average of the prices, so it stays in their range. */
  lemma {:induction false} EmaRunWithin(s: seq<real>, m: real, lo: real, hi: real)
    requires |s| > 0 && 0.0 <= m <= 1.0
    requires Within(s, lo, hi)
    ensures lo <= EmaRun(s, m) <= hi
    decreases |s|
  {
    if |s| > 1 {
      var k := |s| - 1;
      EmaRunWithin(s[..k], m, lo, hi);
      EmaStepWithin(s[k], EmaRun(s[..k], m), m, lo, hi);
    }
  }

  /** One EMA step is a weighted average, so it stays between the bounds of its two inputs. */
  lemma EmaStepWithin(x: real, e: real, m: real, lo: real, hi: real)
    requires 0.0 <= m <= 1.0 && lo <= x <= hi && lo <= e <= hi
    ensures lo <= EmaStep(x, e, m) <= hi
  {
    MulNonNegative(x - lo, m);
    MulNonNegative(e - lo, 1.0 - m);
    MulNonNegative(hi - x, m);
    MulNonNegative(hi - e, 1.0 - m);
  }

  /** The EMA of a constant series is that constant, whatever the period. */
  lemma {:induction false} EmaRunConstant(s: seq<real>, m: real, c: real)
    requires |s| > 0 && AllEqual(s, c)
    ensures EmaRun(s, m) == c
    decreases |s|
  {
    if |s| > 1 {
      EmaRunConstant(s[..|s| - 1], m, c);
    }
  }

  ghost predicate Rising(s: seq<real>)
  {
    forall i, j :: 0 <= i < j < |s| ==> s[i] < s[j]
  }

  /** On a rising series the faster EMA (larger multiplier) never runs below the slower one,
      and strictly above it once there are two or more prices. */
  lemma {:induction false} EmaRunFasterAbove(s: seq<real>, m1: real, m2: real)
    requires |s| > 0 && 0.0 < m2 < m1 <= 1.0
    requires Rising(s)
    ensures EmaRun(s, m1) >= EmaRun(s, m2)
    ensures |s| >= 2 ==> EmaRun(s, m1) > EmaRun(s, m2)
    decreases |s|
  {
    if |s| > 1 {
      var k := |s| - 1;
      var pre := s[..k];
      EmaRunFasterAbove(pre, m1, m2);
      var e1, e2 := EmaRun(pre, m1), EmaRun(pre, m2);
      assert Within(pre, s[0], s[k - 1]);
      EmaRunWithin(pre, m2, s[0], s[k - 1]);
      EmaRunStepGap(s, m1, m2);
    }
  }

  /** One EMA step keeps the faster average strictly above when the new price is above the slower one. */
  lemma EmaStepGap(x: real, e1: real, e2: real, m1: real, m2: real)
    requires 0.0 < m2 < m1 <= 1.0 && e2 <= e1 && e2 < x
    ensures EmaStep(x, e1, m1) > EmaStep(x, e2, m2)
  {
    MulNonNegative(1.0 - m1, e1 - e2);
    MulPositive(m1 - m2, x - e2);
    EmaGapIdentity(x, e1, e2, m1, m2);
  }

  /** The difference of two EMA steps, regrouped. */
  lemma EmaGapIdentity(x: real, e1: real, e2: real, m1: real, m2: real)
    ensures EmaStep(x, e1, m1) - EmaStep(x, e2, m2) == (1.0 - m1) * (e1 - e2) + (m1 - m2) * (x - e2)
  {
  }

  lemma EmaRunStepGap(s: seq<real>, m1: real, m2: real)
    requires |s| > 1 && 0.0 < m2 < m1 <= 1.0
    requires EmaRun(s[..|s| - 1], m2) <= EmaRun(s[..|s| - 1], m1)
    requires EmaRun(s[..|s| - 1], m2) < s[|s| - 1]
    ensures EmaRun(s, m1) > EmaRun(s, m2)
  {
    EmaStepGap(s[|s| - 1], EmaRun(s[..|s| - 1], m1), EmaRun(s[..|s| - 1], m2), m1, m2);
  }

  /** `calculateMACD`: EMA12 - EMA26. */
  function Macd(prices: seq<real>): real
  {
    Ema(prices, 12) - Ema(prices, 26)
  }

  /** The imperative `calculateMACD`: the two EMA loops, then their difference. */
  method CalculateMacd(prices: seq<real>) returns (macd: real)
    ensures macd == Macd(prices)
  {
    var ema12 := CalculateEma(prices, 12);
    var ema26 := CalculateEma(prices, 26);
    macd := ema12 - ema26;
  }

  /** MACD of a constant series is 0. */
  lemma MacdConstant(prices: seq<real>, c: real)
    requires AllEqual(prices, c)
    ensures Macd(prices) == 0.0
  {
    if |prices| > 0 {
      EmaRunConstant(prices, Multiplier(12), c);
      EmaRunConstant(prices, Multiplier(26), c);
    }
  }

  /** MACD never exceeds the spread of the prices. */
  lemma MacdBounded(prices: seq<real>, lo: real, hi: real)
    requires |prices| > 0 && Within(prices, lo, hi)
    ensures -(hi - lo) <= Macd(prices) <= hi - lo
  {
    EmaRunWithin(prices, Multiplier(12), lo, hi);
    EmaRunWithin(prices, Multiplier(26), lo, hi);
  }

  /** A strictly rising series of two or more prices has positive MACD. */
  lemma MacdPositiveOnRise(prices: seq<real>)
    requires |prices| >= 2 && Rising(prices)
    ensures Macd(prices) > 0.0
  {
    EmaRunFasterAbove(prices, Multiplier(12), Multiplier(26));
  }

  /** `b` raised to the power `k`. */
  function Pow(b: real, k: nat): real
  {
    if k == 0 then 1.0 else Pow(b, k - 1) * b
  }

  lemma PowStep(b: real, k: nat)
    requires k > 0
    ensures Pow(b, k) == Pow(b, k - 1) * b
  {
  }

  lemma {:induction false} PowNonZero(b: real, k: nat)
    requires b != 0.0
    ensures Pow(b, k) != 0.0
  {
    if k > 0 {
      PowNonZero(b, k - 1);
    }
  }

  /** `w * (x - f)`: the gap between a prepended price `x` and the old first price `f`,
      as it survives with weight `w` in the EMA. */
  function Decayed(w: real, x: real, f: real): real
  {
    w * (x - f)
  }

  /** Two walks that receive the same price carry their gap with weight `w * (1 - m)`. */
  lemma EmaStepShrinks(y: real, e1: real, e2: real, m: real, w: real, p: real, x: real, f: real)
    requires e1 - e2 == Decayed(w, x, f) && p == w * (1.0 - m)
    ensures EmaStep(y, e1, m) - EmaStep(y, e2, m) == Decayed(p, x, f)
  {
    assert EmaStep(y, e1, m) - EmaStep(y, e2, m) == (e1 - e2) * (1.0 - m);
  }

  /** A walk already at the price stays there. */
  lemma EmaStepFixed(y: real, m: real)
    ensures EmaStep(y, y, m) == y
  {
  }

  /** Prepending a price `x` to a series shifts its EMA by `(1 - m)^|s| * (x - s[0])`:
      the seed is the first price of the whole series, and its weight decays by `1 - m`
      at every later price but never vanishes unless `m = 1`. */
  lemma {:induction false} EmaRunPrepend(x: real, s: seq<real>, m: real)
    requires |s| > 0
    ensures EmaRun([x] + s, m) - EmaRun(s, m) == Decayed(Pow(1.0 - m, |s|), x, s[0])
    decreases |s|
  {
    if |s| == 1 {
      PrependOne(x, s, m);
    } else {
      var u := s[..|s| - 1];
      EmaRunPrepend(x, u, m);
      PowStep(1.0 - m, |s|);
      PrependStep(x, s, u, m, Pow(1.0 - m, |u|), Pow(1.0 - m, |s|));
    }
  }

  /** The base case: one price after the prepended one, with weight `1 - m`. */
  lemma PrependOne(x: real, s: seq<real>, m: real)
    requires |s| == 1
    ensures EmaRun([x] + s, m) - EmaRun(s, m) == Decayed(Pow(1.0 - m, |s|), x, s[0])
  {
    var t := [x] + s;
    var y := s[0];
    assert EmaRun(t, m) == EmaStep(y, x, m) by { assert t[..|t| - 1] == [x]; }
    EmaStepFixed(y, m);
    assert Pow(1.0 - m, 1) == 1.0 * (1.0 - m);
    EmaStepShrinks(y, x, y, m, 1.0, Pow(1.0 - m, |s|), x, y);
  }

  /** The inductive step: one more price after the prepended one turns the gap's weight
      `w` into `p = w * (1 - m)`. */
  lemma PrependStep(x: real, s: seq<real>, u: seq<real>, m: real, w: real, p: real)
    requires |s| > 1 && u == s[..|s| - 1] && p == w * (1.0 - m)
    requires EmaRun([x] + u, m) - EmaRun(u, m) == Decayed(w, x, u[0])
    ensures EmaRun([x] + s, m) - EmaRun(s, m) == Decayed(p, x, s[0])
  {
    var t := [x] + s;
    var y := s[|s| - 1];
    assert EmaRun(t, m) == EmaStep(y, EmaRun([x] + u, m), m) by { assert t[..|t| - 1] == [x] + u; }
    assert EmaRun(s, m) == EmaStep(y, EmaRun(u, m), m);
    assert u[0] == s[0];
    EmaStepShrinks(y, EmaRun([x] + u, m), EmaRun(u, m), m, w, p, x, s[0]);
  }

  /** `calculateEMA` depends on the whole history: prepending a price `x` leaves the
      EMA unchanged exactly when `x` equals the old first price, or when the period is
      1 (multiplier 1), where the EMA is just the last price. */
  lemma {:induction false} EmaRemembersFirstPrice(x: real, s: seq<real>, period: nat)
    requires |s| > 0
    ensures Ema([x] + s, period) == Ema(s, period) <==> x == s[0] || period == 1
  {
    EmaPrependGap(x, s, period);
    DecayVanishes(period, |s|);
    GapZero(Ema([x] + s, period), Ema(s, period), Pow(1.0 - Multiplier(period), |s|), x, s[0]);
  }

  /** The same shift for `calculateEMA`, whose multiplier is `2 / (period + 1)`. */
  lemma EmaPrependGap(x: real, s: seq<real>, period: nat)
    requires |s| > 0
    ensures Ema([x] + s, period) - Ema(s, period) == Decayed(Pow(1.0 - Multiplier(period), |s|), x, s[0])
  {
    EmaRunPrepend(x, s, Multiplier(period));
  }

  /** The seed's weight `(1 - m)^k` after `k >= 1` steps is 0 exactly when the period is 1. */
  lemma {:induction false} DecayVanishes(period: nat, k: nat)
    requires k > 0
    ensures Pow(1.0 - Multiplier(period), k) == 0.0 <==> period == 1
  {
    var m := Multiplier(period);
    if period == 1 {
      assert Pow(0.0, k) == Pow(0.0, k - 1) * 0.0;
    } else {
      assert m != 1.0;
      PowNonZero(1.0 - m, k);
    }
  }

  /** Two values whose difference is `w * (x - f)` are equal exactly when `w` is 0 or `x = f`. */
  lemma GapZero(a: real, b: real, w: real, x: real, f: real)
    requires a - b == Decayed(w, x, f)
    ensures a == b <==> w == 0.0 || x == f
  {
  }

  // ---------------------------------------------------------------------------
  // Bollinger bands

  /** `calculateBollingerBands`: the SMA plus and minus two standard deviations of the
      last `period` prices around it; the variance is divided by `period` even when
      fewer prices exist. */
  function BollingerBands(sqrt: real -> real, prices: seq<real>, period: nat): Bands
    requires period > 0
  {
    var middle := Sma(prices, period);
    var recent := TakeLast(prices, period);
    var variance := Sum(SquaredDeviations(recent, middle)) / period as real;
    var stdDev := sqrt(variance);
    Bands(middle + 2.0 * stdDev, middle - 2.0 * stdDev, middle)
  }

  /** The middle band is the SMA, and the bands sit symmetrically around it in order. */
  lemma BollingerOrdered(sqrt: real -> real, prices: seq<real>, period: nat)
    requires IsSqrt(sqrt) && period > 0
    ensures BollingerBands(sqrt, prices, period).middle == Sma(prices, period)
    ensures var b := BollingerBands(sqrt, prices, period);
      b.lower <= b.middle <= b.upper && b.upper - b.middle == b.middle - b.lower
  {
    var middle := Sma(prices, period);
    var sq := SquaredDeviations(TakeLast(prices, period), middle);
    SquaredDeviationsNonNegative(TakeLast(prices, period), middle);
    DivNonNegative(Sum(sq), period as real);
    var stdDev := sqrt(Sum(sq) / period as real);
    assert stdDev >= 0.0;
  }

  /** When the window is constant the three bands collapse onto that constant. */
  lemma BollingerCollapse(sqrt: real -> real, prices: seq<real>, period: nat, c: real)
    requires IsSqrt(sqrt) && period > 0 && |prices| > 0
    requires AllEqual(TakeLast(prices, period), c)
    ensures BollingerBands(sqrt, prices, period) == Bands(c, c, c)
  {
    var recent := TakeLast(prices, period);
    SmaConstantWindow(prices, period, c);
    NoSpread(recent, period, c);
    assert Sum(SquaredDeviations(recent, Sma(prices, period))) / period as real == 0.0;
    assert sqrt(0.0) == 0.0;
  }

  /** Values all equal to the centre have zero variance around it. */
  lemma NoSpread(recent: seq<real>, period: nat, c: real)
    requires period > 0 && AllEqual(recent, c)
    ensures Sum(SquaredDeviations(recent, c)) / period as real == 0.0
  {
    SquaredDeviationsZero(recent, c);
  }
}
