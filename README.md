# PredictionService in Dafny

This project models the stock-prediction engine `PredictionService` (`src/services/predictionService.ts`) and proves properties of it. The engine is a stateless class. From one series of historical prices it computes:

- the technical indicators: SMA 20 and 50, RSI 14, MACD and 20-day Bollinger bands;
- a price-change forecast from a least-squares line through the last (at most) 30 prices, with a clamped confidence score;
- the list of reasons shown next to the forecast;
- a bullish, bearish or neutral trend.

`generatePrediction` assembles all of these into one `PredictionData` record.

Numbers are exact `real`s. `Math.round` is modelled as `floor(x + 0.5)`. `parseFloat(x.toFixed(2))` is modelled as rounding to whole cents, halves away from zero. `Math.sqrt` cannot be computed on reals, so it is a parameter `sqrt`. The model requires only `IsSqrt(sqrt)`: `sqrt(0) = 0`, and `sqrt(x) >= 0` for every `x >= 0`.

The source is mixed in style, and the model follows it:

- The code that pushes or accumulates in loops becomes methods with loop invariants, each proved against a specification function:
  - the RSI and volatility change lists (`Series.CollectChanges`, proved equal to `Changes`);
  - the EMA (`Indicators.CalculateEma`, proved equal to `Ema`);
  - the regression sums (`TrendPredictor.RegressionSums`, proved equal to the four sum functions).
- The straight-line statement sequences become straight-line methods, each proved equal to a function: the reason pushes (`Rationale.GenerateFactors`, equal to `Factors`) and the whole prediction (`PredictionService.GeneratePrediction`, equal to `PredictionOf`).
- The slice/reduce/map code becomes functions: SMA, the Bollinger bands and MACD.

Modules:

- `Series` and `JsMath` (`series.dfy`): sums, `slice(-k)`, successive differences, squared deviations, rounding.
- `Indicators` (`indicators.dfy`): SMA, RSI, EMA, MACD, Bollinger bands.
- `TrendPredictor` (`trend_predictor.dfy`): `predictPriceChange`.
- `Rationale` (`rationale.dfy`): `generateFactors`. The reasons are a datatype. `Message` gives each reason's exact text.
- `PredictionService` (`prediction.dfy`): `generatePrediction`.

Two worked examples of what the code computes, each proved as a lemma (the second one only in part):

- **Flat series `[50] * 20`, current price 50.** The RSI is 100, not a neutral 50: 20 prices are enough (at least 15), and with no loss at all `avgLoss === 0` returns 100. So the reasons are "Overbought conditions (RSI > 70)" and "Negative momentum (MACD)", and the trend is neutral at confidence 70. See `PredictionService.FlatHistoryPrediction`.
- **Series `100, ..., 110`, current price 111.** Although every price rises, the forecast is 1/110, below the 2% threshold, so the trend is neutral, not bullish. The reasons include "Price above key moving averages" and "Positive momentum (MACD)". Whether a Bollinger band reason joins them depends on the square root, which the model takes as a parameter, so the lemma does not state the whole list. See `PredictionService.ElevenRisingPrices`.

## Model

| member | source | states |
|---|---|---|
| Series.CollectChanges | src/services/predictionService.ts:37-40 | the push loop yields exactly the successive differences `s[i+1] - s[i]` |
| Series.TrailingMeanWithin | src/services/predictionService.ts:29-30 | the mean of a full window of values in [lo, hi] lies in [lo, hi] |
| Series.TrailingMeanZeroIff | src/services/predictionService.ts:45-46 | a trailing mean of non-negative values is non-negative, and 0 exactly when every value in the window is 0 |
| JsMath.Round | src/services/predictionService.ts:168 | `Math.round` lands within half of its argument |
| JsMath.RoundWithin | src/services/predictionService.ts:164-168 | rounding a value that lies between two integers stays between them |
| JsMath.ToFixed2 | src/services/predictionService.ts:206 | `toFixed(2)` gives whole cents, within half a cent of the value |
| JsMath.ToFixed2Idempotent | src/services/predictionService.ts:206 | rounding to cents twice is the same as rounding once |
| Indicators.Sma | src/services/predictionService.ts:27-31 | `calculateSMA`: the last price (0 for none) below `period` prices, otherwise the mean of the last `period`; its range is stated by `SmaWithinWindow` |
| Indicators.SmaWithinWindow | src/services/predictionService.ts:27-31 | the SMA lies in the range of its window: the last `period` prices, or all of them when there are fewer |
| Indicators.SmaConstantWindow | src/services/predictionService.ts:27-31 | a constant window averages to that constant |
| Indicators.Rsi | src/services/predictionService.ts:34-51 | `calculateRSI`: 50 below `period + 1` prices, otherwise the RSI of the plain means of the last `period` gains and losses; range and the 100 case are stated by `RsiRange` and `RsiHundredIff` |
| Indicators.RsiFromAverages | src/services/predictionService.ts:48-50 | the RSI formula lies in [0, 100], and is 100 exactly when the average loss is 0 |
| Indicators.CalculateRsi | src/services/predictionService.ts:34-51 | the imperative RSI equals `Rsi` and lies in [0, 100] |
| Indicators.RsiRange | src/services/predictionService.ts:34-51 | RSI is exactly 50 below `period + 1` prices, and always in [0, 100] |
| Indicators.RsiHundredIff | src/services/predictionService.ts:35-48 | RSI is 100 exactly when there are enough prices and none of the last `period` changes is a fall |
| Indicators.Multiplier | src/services/predictionService.ts:65 | `2 / (period + 1)` lies in (0, 1] for a positive period |
| Indicators.Ema | src/services/predictionService.ts:61-73 | `calculateEMA`: 0 for no prices, otherwise the walk seeded with the first price and stepped by `2 / (period + 1)` over every later price |
| Indicators.CalculateEma | src/services/predictionService.ts:61-73 | the loop returns 0 on an empty series, the sole price on one price, and otherwise the walk seeded with the first price and updated once per later price |
| Indicators.EmaRunWithin | src/services/predictionService.ts:66-70 | the EMA stays within the range of the prices |
| Indicators.EmaRunConstant | src/services/predictionService.ts:66-70 | the EMA of a constant series is that constant |
| Indicators.EmaRunFasterAbove | src/services/predictionService.ts:65-70 | on a strictly rising series of two or more prices, the EMA with the larger multiplier is strictly above the other (and never below it on any rising series) |
| Indicators.EmaRunPrepend | src/services/predictionService.ts:66-70 | prepending a price `x` to a non-empty series shifts the EMA by exactly `(1 - m)^len * (x - first price)`: the seed's weight decays but never vanishes unless `m = 1` |
| Indicators.EmaRemembersFirstPrice | src/services/predictionService.ts:61-73 | prepending a price leaves `calculateEMA` unchanged exactly when it equals the old first price or the period is 1 |
| Indicators.Macd | src/services/predictionService.ts:54-58 | `calculateMACD`: EMA12 - EMA26 of the whole series |
| Indicators.CalculateMacd | src/services/predictionService.ts:54-58 | MACD is EMA12 - EMA26 |
| Indicators.MacdConstant | src/services/predictionService.ts:54-58 | MACD of a constant series is 0 |
| Indicators.MacdBounded | src/services/predictionService.ts:54-58 | MACD is bounded by the spread of the prices |
| Indicators.MacdPositiveOnRise | src/services/predictionService.ts:54-58 | a strictly rising series of two or more prices has positive MACD |
| Indicators.BollingerBands | src/services/predictionService.ts:76-88 | `calculateBollingerBands`: the SMA, plus and minus twice the square root of the sum of the squared deviations of the last `period` prices divided by `period` |
| Indicators.BollingerOrdered | src/services/predictionService.ts:76-88 | the middle band is the SMA, `lower <= middle <= upper`, and the bands are symmetric |
| Indicators.BollingerCollapse | src/services/predictionService.ts:76-88 | a constant window collapses all three bands onto that constant |
| TrendPredictor.SumIndexClosed | src/services/predictionService.ts:137-142 | closed forms of `sumX` and `sumXX` after the loop |
| TrendPredictor.RegressionDenominatorPositive | src/services/predictionService.ts:144 | for n >= 2 points, `n * sumXX - sumX * sumX` is positive, so the slope is defined |
| TrendPredictor.LeastSquaresSolves | src/services/predictionService.ts:144-145 | the slope and intercept satisfy both normal equations of least squares: `n * intercept + sumX * slope = sumY` and `sumX * intercept + sumXX * slope = sumXY` |
| TrendPredictor.ConfidenceScore | src/services/predictionService.ts:163-164 | the clamped score lies in [30, 85] |
| TrendPredictor.ConfidenceScoreClamp | src/services/predictionService.ts:163-164 | the score is the raw value when that lies in [30, 85], and the nearer bound otherwise |
| TrendPredictor.WindowSize | src/services/predictionService.ts:132 | `n = min(length, 30)` |
| TrendPredictor.Window | src/services/predictionService.ts:133 | the window has `n` prices and ends with the last price |
| TrendPredictor.RegressionSums | src/services/predictionService.ts:135-142 | the loop's four sums are the index sum, the price sum, the index-weighted price sum and the index-square sum |
| TrendPredictor.SolveNormalEquations | src/services/predictionService.ts:144-145 | the two assignments compute the least-squares line |
| TrendPredictor.FitLine | src/services/predictionService.ts:135-145 | the sums loop, then the two assignments, give the regression line of the window |
| TrendPredictor.MeasureVolatility | src/services/predictionService.ts:153-160 | the change loop and the two means give the standard deviation of the price changes |
| TrendPredictor.PredictFromWindow | src/services/predictionService.ts:148-169 | the prediction is the relative change from the last price to the line one step ahead, and the confidence is the rounded clamped score, in [30, 85] |
| TrendPredictor.WindowForecast | src/services/predictionService.ts:144-169 | the forecast from a window: the relative change from its last price to the regression line at `x = n`, and the rounded, clamped confidence |
| TrendPredictor.PriceChange | src/services/predictionService.ts:126-170 | `predictPriceChange`: `{0, 30}` below 5 prices, otherwise `WindowForecast` of the last (at most) 30 prices |
| TrendPredictor.PredictPriceChange | src/services/predictionService.ts:126-170 | the imperative method equals `PriceChange`, and its confidence lies in [30, 85] |
| TrendPredictor.PriceChangeFallback | src/services/predictionService.ts:127-129 | below 5 prices the result is `{0, 30}`, whatever the values |
| TrendPredictor.PriceChangeConfidence | src/services/predictionService.ts:163-168 | the confidence is always an integer in [30, 85] |
| TrendPredictor.FitOfLine | src/services/predictionService.ts:135-145 | on points of an exact line `a + d*i`, the regression recovers slope `d` and intercept `a` |
| TrendPredictor.VolatilityOfEqualSteps | src/services/predictionService.ts:153-160 | equal steps have zero volatility |
| TrendPredictor.WindowForecastOnLine | src/services/predictionService.ts:144-169 | on an exact line, the forecast is `d / last` and the confidence comes from the trend strength alone |
| TrendPredictor.PriceChangeOnLine | src/services/predictionService.ts:126-170 | the same result for a whole series on a line, whatever its length beyond the 30-price window |
| TrendPredictor.PriceChangeConstant | src/services/predictionService.ts:126-170 | a series of at least 5 prices whose window (its last 30 prices, or all of them when there are fewer) is constant and non-zero forecasts a change of 0 at confidence 70, whatever came before the window |
| Rationale.Message | src/services/predictionService.ts:96-122 | the exact text the source pushes for each reason |
| Rationale.MessageInjective | src/services/predictionService.ts:96-122 | different reasons have different texts |
| Rationale.Factors | src/services/predictionService.ts:91-123 | the list has between 1 and 4 reasons |
| Rationale.FallbackUnreachable | src/services/predictionService.ts:108-122 | the MACD check always contributes, so the "Technical analysis neutral" fallback is never used |
| Rationale.RsiReasons | src/services/predictionService.ts:94-99 | overbought exactly when RSI > 70; oversold exactly when RSI < 30 |
| Rationale.AverageReasons | src/services/predictionService.ts:101-106 | above exactly when the price is strictly above both SMAs; below exactly when it is strictly below both |
| Rationale.MomentumReasons | src/services/predictionService.ts:108-113 | positive momentum exactly when MACD > 0; negative momentum exactly when MACD <= 0 |
| Rationale.BandReasons | src/services/predictionService.ts:115-120 | near resistance exactly when the price is above the upper band; near support exactly when it is below the lower band and not above the upper one |
| Rationale.MessagesInjective | src/services/predictionService.ts:96-122 | the shown texts determine the list of reasons |
| Rationale.FactorsOrdered | src/services/predictionService.ts:91-123 | at most one reason per check, in the order RSI, averages, MACD, bands |
| Rationale.GenerateFactors | src/services/predictionService.ts:91-123 | the push sequence yields exactly `Factors` |
| PredictionService.TrendOf | src/services/predictionService.ts:196-198 | bullish iff the prediction > 0.02, bearish iff it is < -0.02, neutral otherwise (both boundaries are neutral) |
| PredictionService.ClassifyTrend | src/services/predictionService.ts:196-198 | the trend, set to neutral and overwritten by the first test that holds, is `TrendOf` |
| PredictionService.TrendMonotone | src/services/predictionService.ts:196-198 | a larger predicted change never gives a more bearish trend |
| PredictionService.TechnicalsOf | src/services/predictionService.ts:175-187 | the indicator record: SMA 20 and 50, RSI 14, MACD and Bollinger 20 of the history |
| PredictionService.ComputeTechnicals | src/services/predictionService.ts:175-187 | the indicator block computes SMA 20 and 50, RSI 14, MACD and Bollinger 20 of the history |
| PredictionService.PredictionOf | src/services/predictionService.ts:173-213 | `generatePrediction`'s record: the inputs echoed, the current price moved by the forecast and rounded to cents, the forecast's confidence, its trend, "7 days", the reason texts and the indicators |
| PredictionService.GeneratePrediction | src/services/predictionService.ts:173-213 | the imperative method returns exactly `PredictionOf` |
| PredictionService.TechnicalsInRange | src/services/predictionService.ts:175-187 | RSI is in [0, 100] and the bands are ordered around the SMA 20 |
| PredictionService.PredictionContract | src/services/predictionService.ts:173-213 | the record echoes symbol and current price, has timeframe "7 days" and confidence in [30, 85], a whole-cents price within half a cent of `currentPrice * (1 + prediction)`, a trend that agrees with the forecast, in-range indicators, and 1 to 4 reasons, never the neutral one |
| PredictionService.HistoryAlone | src/services/predictionService.ts:175-198 | indicators, confidence and trend do not depend on the current price |
| PredictionService.NeutralNeverShown | src/services/predictionService.ts:122 | "Technical analysis neutral" never appears among the shown texts |
| PredictionService.ShortHistoryPrediction | src/services/predictionService.ts:127-129 | below 5 prices: neutral, confidence 30, and the current price in cents as the predicted price |
| PredictionService.FlatHistoryPrediction | src/services/predictionService.ts:173-213 | a flat history of at least 15 prices, quoted at that price, shows "Overbought" and "Negative momentum", and is neutral at confidence 70 |
| PredictionService.FlatReasons | src/services/predictionService.ts:91-123 | a flat history quoted at its own price shows exactly "Overbought conditions (RSI > 70)" and "Negative momentum (MACD)" |
| PredictionService.FlatTechnicals | src/services/predictionService.ts:175-187 | on a flat history both SMAs and all bands sit on the price, MACD is 0 and RSI is 100 |
| PredictionService.FlatRsi | src/services/predictionService.ts:34-48 | a flat history of at least 15 prices has RSI 100, because no change is a loss |
| PredictionService.RisingHistoryPrediction | src/services/predictionService.ts:173-213 | on a history rising by `d` per step, quoted at its last price, momentum is positive, and the trend is bullish exactly when `d / last > 0.02` |
| PredictionService.ElevenRisingPrices | src/services/predictionService.ts:173-213 | 100..110 quoted at 111: forecast 1/110, a neutral trend, and "Price above key moving averages" and "Positive momentum (MACD)" among the reasons |
| PredictionService.ElevenRisingForecast | src/services/predictionService.ts:126-170 | eleven prices rising by 1 from 100 forecast a change of 1/110 |
| PredictionService.ElevenRisingReasons | src/services/predictionService.ts:91-123 | at 111, those prices give "above key moving averages" and "positive momentum" |

## Left out

- TrendPredictor.PriceChange: requires a non-zero last price once there are at least 5 prices (`Predictable`). The source divides by that price (lines 163, 164 and 167). At 0 it produces `Infinity` or `NaN`, and real numbers cannot represent those.
- TrendPredictor.PredictPriceChange: has the same requirement as `PriceChange`, for the same reason.
- PredictionService.GeneratePrediction: inherits the same requirement through `predictPriceChange`.
- IEEE-754 floating point: rounding error, `NaN` and infinities. The `|| 0` in `calculateSMA` guards an empty series; this is modelled. It also turns a `NaN` last price into 0; this is not modelled.
- `Math.sqrt` is a parameter. Only `sqrt(0) = 0` and non-negativity are required of it, so no lemma depends on particular square-root values.
- The reasons are a datatype whose `Message` is the exact text the source pushes. `GenerateFactors` pushes reasons, not strings. `Messages` maps them to the strings, and `MessagesInjective` shows that no information is lost.
- `predictPriceChange` is split into helper methods: `RegressionSums`, `SolveNormalEquations`, `FitLine`, `MeasureVolatility` and `PredictFromWindow`. Together they run the source's statements in its order.
- `generatePrediction` is modelled as a plain method. Its `async`/`Promise` wrapper never awaits.
- The callers are not part of this model: the React hooks that append the live price and skip series shorter than 5 prices, the Supabase edge function with its simulated prices, and the UI components.
