/** `generatePrediction`: the technical indicators of a price history, the trend
    forecast, its classification and the reasons shown beside it, gathered into one
    `PredictionData` record. */
module PredictionService {
  import opened Series
  import opened JsMath
  import opened Indicators
  import opened Rationale
  import opened TrendPredictor

  datatype Trend = Bullish | Bearish | Neutral

  /** The `PredictionData` record; `factors` are the texts shown to the user. */
  datatype Prediction = Prediction(
    symbol: string,
    currentPrice: real,
    predictedPrice: real,
    confidence: int,
    trend: Trend,
    timeframe: string,
    factors: seq<string>,
    technicals: Technicals)

  /** Every prediction is made for the same horizon. */
  const Timeframe: string := "7 days"

  /** A predicted change above +2% is bullish, below -2% bearish, anything in between neutral. */
  function TrendOf(prediction: real): (t: Trend)
    ensures t == Bullish <==> prediction > 0.02
    ensures t == Bearish <==> prediction < -0.02
    ensures t == Neutral <==> -0.02 <= prediction <= 0.02
  {
    if prediction > 0.02 then Bullish else if prediction < -0.02 then Bearish else Neutral
  }

  /** Bearish < neutral < bullish. */
  function Rank(t: Trend): int
  {
    match t
    case Bearish => -1
    case Neutral => 0
    case Bullish => 1
  }

  /** A larger predicted change never gives a more bearish trend. */
  lemma TrendMonotone(p: real, q: real)
    requires p <= q
    ensures Rank(TrendOf(p)) <= Rank(TrendOf(q))
  {
  }

  /** The indicators `generatePrediction` computes: SMA 20 and 50, RSI 14, MACD and 20-day Bollinger bands. */
  function TechnicalsOf(sqrt: real -> real, history: seq<real>): Technicals
  {
    Technicals(Sma(history, 20), Sma(history, 50), Rsi(history, 14), Macd(history), BollingerBands(sqrt, history, 20))
  }

  /** `currentPrice * (1 + prediction)`: the current price moved by the predicted relative change. */
  function ForecastPrice(currentPrice: real, change: real): real
  {
    currentPrice * (1.0 + change)
  }

  /** What `generatePrediction` returns for a symbol, its price history and its current price. */
  function PredictionOf(sqrt: real -> real, symbol: string, history: seq<real>, currentPrice: real): Prediction
    requires Predictable(history)
  {
    var technicals := TechnicalsOf(sqrt, history);
    var forecast := PriceChange(sqrt, history);
    Prediction(symbol, currentPrice, ToFixed2(ForecastPrice(currentPrice, forecast.prediction)),
      forecast.confidence, TrendOf(forecast.prediction), Timeframe,
      Messages(Factors(technicals, currentPrice)), technicals)
  }

  /** The imperative `generatePrediction`: indicators, forecast, the trend set by two
      tests, then the reasons. */
  method GeneratePrediction(sqrt: real -> real, symbol: string, historicalPrices: seq<real>, currentPrice: real)
    returns (result: Prediction)
    requires Predictable(historicalPrices)
    ensures result == PredictionOf(sqrt, symbol, historicalPrices, currentPrice)
  {
    var technicals := ComputeTechnicals(sqrt, historicalPrices);

    var prediction, confidence := PredictPriceChange(sqrt, historicalPrices);
    var predictedPrice := ForecastPrice(currentPrice, prediction);

    var trend := ClassifyTrend(prediction);

    var factors := GenerateFactors(technicals, currentPrice);
    result := Prediction(symbol, currentPrice, ToFixed2(predictedPrice), confidence, trend,
      Timeframe, Messages(factors), technicals);
  }

  /** The indicator block of `generatePrediction`. */
  method ComputeTechnicals(sqrt: real -> real, historicalPrices: seq<real>) returns (technicals: Technicals)
    ensures technicals == TechnicalsOf(sqrt, historicalPrices)
  {
    var sma20 := Sma(historicalPrices, 20);
    var sma50 := Sma(historicalPrices, 50);
    var rsi := CalculateRsi(historicalPrices, 14);
    var macd := CalculateMacd(historicalPrices);
    var bollinger := BollingerBands(sqrt, historicalPrices, 20);
    technicals := Technicals(sma20, sma50, rsi, macd, bollinger);
  }

  /** The trend starts neutral and is overwritten by the first of two tests that holds. */
  method ClassifyTrend(prediction: real) returns (trend: Trend)
    ensures trend == TrendOf(prediction)
  {
    trend := Neutral;
    if prediction > 0.02 {
      trend := Bullish;
    } else if prediction < -0.02 {
      trend := Bearish;
    }
  }

  /** The indicators are in range: RSI in [0, 100], and the Bollinger bands ordered around the SMA 20. */
  lemma TechnicalsInRange(sqrt: real -> real, history: seq<real>)
    requires IsSqrt(sqrt)
    ensures var t := TechnicalsOf(sqrt, history);
      0.0 <= t.rsi <= 100.0 &&
      t.bollinger.lower <= t.bollinger.middle <= t.bollinger.upper &&
      t.bollinger.middle == t.sma20
  {
    RsiRange(history, 14);
    BollingerOrdered(sqrt, history, 20);
  }

  /** What every prediction promises: it echoes its inputs, its confidence lies in [30, 85],
      its price is whole cents within half a cent of the forecast price, its trend agrees
      with the forecast, its indicators are in range, and it shows one to four reasons,
      never the neutral one. */
  lemma PredictionContract(sqrt: real -> real, symbol: string, history: seq<real>, currentPrice: real)
    requires IsSqrt(sqrt) && Predictable(history)
    ensures var p := PredictionOf(sqrt, symbol, history, currentPrice);
      var change := PriceChange(sqrt, history).prediction;
      p.symbol == symbol && p.currentPrice == currentPrice && p.timeframe == "7 days" &&
      30 <= p.confidence <= 85 &&
      IsCents(p.predictedPrice) &&
      -0.005 <= p.predictedPrice - ForecastPrice(currentPrice, change) <= 0.005 &&
      (p.trend == Bullish <==> change > 0.02) &&
      (p.trend == Bearish <==> change < -0.02) &&
      0.0 <= p.technicals.rsi <= 100.0 &&
      p.technicals.bollinger.lower <= p.technicals.bollinger.middle <= p.technicals.bollinger.upper &&
      p.technicals.bollinger.middle == p.technicals.sma20 &&
      1 <= |p.factors| <= 4 &&
      Message(NeutralFallback) !in p.factors
  {
    TechnicalsInRange(sqrt, history);
    PriceChangeConfidence(sqrt, history);
    NeutralNeverShown(TechnicalsOf(sqrt, history), currentPrice);
  }

  /** The current price only positions the forecast: the indicators, the confidence and the
      trend come from the history alone. */
  lemma HistoryAlone(sqrt: real -> real, symbol: string, history: seq<real>, price1: real, price2: real)
    requires Predictable(history)
    ensures var p, q := PredictionOf(sqrt, symbol, history, price1), PredictionOf(sqrt, symbol, history, price2);
      p.technicals == q.technicals && p.confidence == q.confidence && p.trend == q.trend
  {
  }

  /** The neutral text never appears among the shown texts. */
  lemma NeutralNeverShown(t: Technicals, price: real)
    ensures Message(NeutralFallback) !in Messages(Factors(t, price))
  {
    FallbackUnreachable(t, price);
    var ms := Messages(Factors(t, price));
    forall i | 0 <= i < |ms|
      ensures ms[i] != Message(NeutralFallback)
    {
      MessageInjective(Factors(t, price)[i], NeutralFallback);
    }
  }

  /** Below five prices the forecast is flat: neutral trend, confidence 30, and the
      current price (in cents) as the predicted one. */
  lemma ShortHistoryPrediction(sqrt: real -> real, symbol: string, history: seq<real>, currentPrice: real)
    requires |history| < MinPoints
    ensures var p := PredictionOf(sqrt, symbol, history, currentPrice);
      p.trend == Neutral && p.confidence == 30 && p.predictedPrice == ToFixed2(currentPrice)
  {
    PriceChangeFallback(sqrt, history);
  }

  /** A flat history of at least 15 prices, quoted at that same price: RSI reads 100 because
      no change is a loss, so the reasons are "Overbought" and (MACD being 0) "Negative
      momentum"; the forecast is a neutral 0% at confidence 70. */
  lemma FlatHistoryPrediction(sqrt: real -> real, symbol: string, history: seq<real>, c: real)
    requires IsSqrt(sqrt) && |history| >= 15 && c != 0.0 && AllEqual(history, c)
    ensures var p := PredictionOf(sqrt, symbol, history, c);
      p.factors == [Message(Overbought), Message(NegativeMomentum)] &&
      p.trend == Neutral && p.confidence == 70 && p.predictedPrice == ToFixed2(c)
  {
    FlatReasons(sqrt, history, c);
    assert AllEqual(Window(history), c) by {
      var w := Window(history);
      forall i | 0 <= i < |w| ensures w[i] == c {
        assert w[i] == history[|history| - |w| + i];
      }
    }
    PriceChangeConstant(sqrt, history, c);
    NoChange(c);
  }

  /** On a flat history quoted at its own price, only the RSI and MACD checks fire. */
  lemma FlatReasons(sqrt: real -> real, history: seq<real>, c: real)
    requires IsSqrt(sqrt) && |history| >= 15 && AllEqual(history, c)
    ensures Messages(Factors(TechnicalsOf(sqrt, history), c)) == [Message(Overbought), Message(NegativeMomentum)]
  {
    FlatTechnicals(sqrt, history, c);
    ReasonsAtRest(c);
  }

  /** Indicators at rest on the price, with RSI 100 and MACD 0. */
  lemma ReasonsAtRest(c: real)
    ensures Messages(Factors(Technicals(c, c, 100.0, 0.0, Bands(c, c, c)), c))
         == [Message(Overbought), Message(NegativeMomentum)]
  {
    assert Factors(Technicals(c, c, 100.0, 0.0, Bands(c, c, c)), c) == [Overbought, NegativeMomentum];
    MessagesOfTwo(Overbought, NegativeMomentum);
  }

  lemma MessagesOfTwo(f: Factor, g: Factor)
    ensures Messages([f, g]) == [Message(f), Message(g)]
  {
  }

  /** A predicted change of 0 leaves the price where it is. */
  lemma NoChange(price: real)
    ensures ForecastPrice(price, 0.0) == price
  {
  }

  /** On a flat history of at least 15 prices both averages and all three bands sit on the
      price, MACD is 0, and RSI is 100. */
  lemma FlatTechnicals(sqrt: real -> real, history: seq<real>, c: real)
    requires IsSqrt(sqrt) && |history| >= 15 && AllEqual(history, c)
    ensures TechnicalsOf(sqrt, history) == Technicals(c, c, 100.0, 0.0, Bands(c, c, c))
  {
    FlatRsi(history, c);
    FlatWindow(history, 20, c);
    FlatWindow(history, 50, c);
    SmaConstantWindow(history, 20, c);
    SmaConstantWindow(history, 50, c);
    MacdConstant(history, c);
    BollingerCollapse(sqrt, history, 20, c);
  }

  /** With no change a loss, RSI is 100. */
  lemma FlatRsi(history: seq<real>, c: real)
    requires |history| >= 15 && AllEqual(history, c)
    ensures Rsi(history, 14) == 100.0
  {
    RsiHundredIff(history, 14);
  }

  lemma FlatWindow(history: seq<real>, period: nat, c: real)
    requires period > 0 && AllEqual(history, c)
    ensures AllEqual(TakeLast(history, period), c)
  {
  }

  /** A history rising by `d` per step, quoted at its last price: the forecast is `d / last`,
      the MACD reason is positive momentum, and the trend is bullish exactly when `d / last`
      exceeds 2%. */
  lemma RisingHistoryPrediction(sqrt: real -> real, symbol: string, history: seq<real>, a: real, d: real)
    requires IsSqrt(sqrt) && |history| >= MinPoints && d > 0.0
    requires OnLine(history, a, d) && history[|history| - 1] != 0.0
    ensures var last := history[|history| - 1];
      var p := PredictionOf(sqrt, symbol, history, last);
      Message(PositiveMomentum) in p.factors &&
      (p.trend == Bullish <==> d / last > 0.02)
  {
    var last := history[|history| - 1];
    var t := TechnicalsOf(sqrt, history);
    OnLineRising(history, a, d);
    MacdPositiveOnRise(history);
    MomentumReasons(t, last);
    MessageShown(Factors(t, last), PositiveMomentum);
    PriceChangeOnLine(sqrt, history, a, d);
  }

  /** The prices 100, 101, ..., 110 quoted at 111: the forecast is +1/110 (under 1%), so the
      trend is neutral although every price rose; the price is above both averages (each is
      the last price, 110, as there are fewer than 20 prices) and momentum is positive. */
  lemma ElevenRisingPrices(sqrt: real -> real, symbol: string)
    requires IsSqrt(sqrt)
    ensures var history := seq(11, i => 100.0 + i as real);
      var p := PredictionOf(sqrt, symbol, history, 111.0);
      PriceChange(sqrt, history).prediction == 1.0 / 110.0 && p.trend == Neutral &&
      Message(AboveAverages) in p.factors && Message(PositiveMomentum) in p.factors
  {
    var history := seq(11, i => 100.0 + i as real);
    assert OnLine(history, 100.0, 1.0);
    ElevenRisingForecast(sqrt, history);
    ElevenRisingReasons(sqrt, history);
    var fs := Factors(TechnicalsOf(sqrt, history), 111.0);
    MessageShown(fs, AboveAverages);
    MessageShown(fs, PositiveMomentum);
  }

  lemma ElevenRisingForecast(sqrt: real -> real, history: seq<real>)
    requires IsSqrt(sqrt) && |history| == 11 && OnLine(history, 100.0, 1.0)
    ensures PriceChange(sqrt, history).prediction == 1.0 / 110.0
  {
    PriceChangeOnLine(sqrt, history, 100.0, 1.0);
  }

  lemma ElevenRisingReasons(sqrt: real -> real, history: seq<real>)
    requires |history| == 11 && OnLine(history, 100.0, 1.0)
    ensures var fs := Factors(TechnicalsOf(sqrt, history), 111.0);
      AboveAverages in fs && PositiveMomentum in fs
  {
    var t := TechnicalsOf(sqrt, history);
    OnLineRising(history, 100.0, 1.0);
    MacdPositiveOnRise(history);
    assert t.sma20 == 110.0 && t.sma50 == 110.0;
    AverageReasons(t, 111.0);
    MomentumReasons(t, 111.0);
  }

  /** A reason in the list has its text among the shown texts. */
  lemma MessageShown(fs: seq<Factor>, f: Factor)
    requires f in fs
    ensures Message(f) in Messages(fs)
  {
    var i :| 0 <= i < |fs| && fs[i] == f;
    assert Messages(fs)[i] == Message(f);
  }

  /** Points on a line with a positive step rise strictly. */
  lemma OnLineRising(w: seq<real>, a: real, d: real)
    requires OnLine(w, a, d) && d > 0.0
    ensures Rising(w)
  {
    forall i, j | 0 <= i < j < |w|
      ensures w[i] < w[j]
    {
      MulPositive(d, (j - i) as real);
    }
  }
}
