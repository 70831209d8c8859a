# Stock-analysis indicators, modelled in Dafny

This project models the indicator arithmetic of the four stock-analysis
services of the repository: YahooFinanceService, StockAnalysisService,
IEXCloudService and StockService. Prices are `real`, volumes are `int`
with Java `long` wrap-around written out, and the `HashMap<String, Object>`
each service fills is a `map<Key, Value>` whose keys and advisory strings
are enum constructors.

Modules:

- `Series` holds the sums, means and extrema of a series (`Collections.max` / `min`). It also holds the `long` arithmetic: `LongStream.sum` wrapping at 64 bits and `long` division truncating toward zero.
- `Report` is the vocabulary of the result maps: keys, values, advice labels, Fibonacci ratios, the RSI reading, and the Java exception a call ends in.
- `Indicators` holds the kernels the services share. These are the `calculateSMA` loop, the `calculateRSI` loop, the Fibonacci level `max - (max - min) * r`, the integer average volume, and the SMA, RSI and volume labels. The services carry verbatim copies of `calculateSMA` and `calculateRSI`; each copy is modelled once, here, with the lines of every copy cited below.
- `YahooFinance`, `StockAnalysis`, `IexCloud` and `StockService` hold one service each.

Each analysis that fills a `HashMap` is a `method` that `put`s entry by entry, in the source's order. A Java exception is modelled as the `Failure` of an `Outcome`, raised at the statement that throws it. Each such method is proved equal to a declarative function describing the finished map, and the properties are lemmas about that function.

The RSI follows the Java `double` rules where the formula divides by a zero
loss. When gains are positive, `rs` is +Infinity and the RSI is exactly 100.
When both gains and losses are zero, the result is `0/0`, i.e. NaN. Every comparison with NaN is false, so a NaN RSI gives the Neutral signal and no
`RSI Signal` entry in StockAnalysisService.

## Model

| member | source | states |
|---|---|---|
| Series.Max | stockanalysis/src/main/java/com/personal/stockanalysis/service/YahooFinanceService.java:154 | the largest price is one of the prices and bounds every price (Collections.max) |
| Series.Min | stockanalysis/src/main/java/com/personal/stockanalysis/service/YahooFinanceService.java:155 | the smallest price is one of the prices and bounds every price (Collections.min) |
| Series.MeanBounds | stockanalysis/src/main/java/com/personal/stockanalysis/service/StockAnalysisService.java:77 | a mean lies between the minimum and the maximum of what it averages |
| Series.WrapLong | stockanalysis/src/main/java/com/personal/stockanalysis/service/YahooFinanceService.java:240 | reduction to a Java `long`: in range, identity on values that fit, congruent modulo 2^64 |
| Series.LongSum | stockanalysis/src/main/java/com/personal/stockanalysis/service/YahooFinanceService.java:240 | `LongStream.sum` wraps at every addition and always yields a `long` |
| Series.LongSumIsExact | stockanalysis/src/main/java/com/personal/stockanalysis/service/YahooFinanceService.java:240 | for non-negative volumes whose total fits a `long`, the wrapped sum is the exact sum |
| Series.IntSumNonNegative | stockanalysis/src/main/java/com/personal/stockanalysis/service/IEXCloudService.java:116 | non-negative volumes have a non-negative total that bounds every prefix total |
| Series.JavaDivide | stockanalysis/src/main/java/com/personal/stockanalysis/service/YahooFinanceService.java:240 | `long` division truncates toward zero: floor bounds for a non-negative dividend, ceiling bounds for a negative one |
| Report.Ratio.Value | stockanalysis/src/main/java/com/personal/stockanalysis/service/YahooFinanceService.java:158-162 | every Fibonacci ratio lies strictly between 0 and 1 |
| Indicators.CalculateSma | stockanalysis/src/main/java/com/personal/stockanalysis/service/YahooFinanceService.java:217-224 | 0 when fewer than `period` prices, otherwise the mean of the last `period` prices; the loop keeps `sum` equal to the sum of the prices added so far; the same code is at StockAnalysisService.java:148-155 |
| Indicators.SmaWithinWindow | stockanalysis/src/main/java/com/personal/stockanalysis/service/YahooFinanceService.java:217-224 | with enough history the SMA lies between the lowest and highest price of its window |
| Indicators.SmaSentinel | stockanalysis/src/main/java/com/personal/stockanalysis/service/StockAnalysisService.java:148-155 | for positive prices the SMA is 0 exactly when the history is shorter than the period |
| Indicators.Gain | stockanalysis/src/main/java/com/personal/stockanalysis/service/YahooFinanceService.java:228-232 | the accumulated upward moves are never negative |
| Indicators.Loss | stockanalysis/src/main/java/com/personal/stockanalysis/service/YahooFinanceService.java:228-232 | the accumulated downward moves are never negative |
| Indicators.CalculateRsi | stockanalysis/src/main/java/com/personal/stockanalysis/service/YahooFinanceService.java:226-237 | the loop keeps `gain` and `loss` equal to the upward and downward moves so far; the result is `100*gain/(gain+loss)` when `loss > 0`, 100 when only gains, NaN when neither; the same code is at StockAnalysisService.java:157-168 and IEXCloudService.java:102-113 |
| Indicators.RsiAlgebra | stockanalysis/src/main/java/com/personal/stockanalysis/service/YahooFinanceService.java:233-236 | the `/ prices.size()` factors cancel: `100 - 100/(1 + rs)` equals `100*gain/(gain+loss)` |
| Indicators.GainMinusLoss | stockanalysis/src/main/java/com/personal/stockanalysis/service/YahooFinanceService.java:228-232 | gains minus losses telescope to the last price minus the first |
| Indicators.RsiRange | stockanalysis/src/main/java/com/personal/stockanalysis/service/YahooFinanceService.java:233-236 | the RSI is in [0, 100]; in [0, 100) when `loss > 0`, and 0 then exactly when there was no gain; NaN exactly when there was no gain and no loss; the same code is at StockAnalysisService.java:164-167 and IEXCloudService.java:109-112 |
| Indicators.RsiAgainstMidpoint | stockanalysis/src/main/java/com/personal/stockanalysis/service/YahooFinanceService.java:226-237 | the RSI is above 50 exactly when the last price is above the first, below 50 exactly when it is below |
| Indicators.NoLossWhenNonDecreasing | stockanalysis/src/main/java/com/personal/stockanalysis/service/YahooFinanceService.java:228-232 | a series that never falls accumulates no loss |
| Indicators.NoGainWhenNonIncreasing | stockanalysis/src/main/java/com/personal/stockanalysis/service/YahooFinanceService.java:228-232 | a series that never rises accumulates no gain |
| Indicators.RsiOfRisingSeries | stockanalysis/src/main/java/com/personal/stockanalysis/service/YahooFinanceService.java:233-236 | a series that never falls and ends higher has RSI exactly 100 |
| Indicators.RsiOfFallingSeries | stockanalysis/src/main/java/com/personal/stockanalysis/service/YahooFinanceService.java:233-236 | a series that never rises and ends lower has RSI exactly 0 |
| Indicators.RsiOfFlatSeries | stockanalysis/src/main/java/com/personal/stockanalysis/service/YahooFinanceService.java:233-236 | a flat series gives 0/0, i.e. NaN |
| Indicators.SmaAdviceIsBinary | stockanalysis/src/main/java/com/personal/stockanalysis/service/YahooFinanceService.java:144-145 | the SMA signal is Buy exactly when short > long, Sell otherwise, equality included; the same code is at IEXCloudService.java:72-73 |
| Indicators.RsiAdviceClassification | stockanalysis/src/main/java/com/personal/stockanalysis/service/YahooFinanceService.java:150-151 | the RSI signal is exhaustive and exclusive: Buy below 30, Sell above 70, Neutral for [30, 70] and for NaN; the same code is at IEXCloudService.java:77-78 |
| Indicators.RetracementLevels | stockanalysis/src/main/java/com/personal/stockanalysis/service/YahooFinanceService.java:157-163 | the level map has exactly the given ratios as keys; the same code is at StockAnalysisService.java:119-124 and StockService.java:67-72 |
| Indicators.LevelWithinRange | stockanalysis/src/main/java/com/personal/stockanalysis/service/YahooFinanceService.java:156-162 | every level lies in [min, max] |
| Indicators.LevelsDecrease | stockanalysis/src/main/java/com/personal/stockanalysis/service/StockAnalysisService.java:113-117 | a larger ratio never gives a higher level, strictly lower when max > min, and every level is max when max == min |
| Indicators.LevelLadder | stockanalysis/src/main/java/com/personal/stockanalysis/service/YahooFinanceService.java:156-162 | max >= 23.6% >= 38.2% >= 50.0% >= 61.8% >= 78.6% >= min, strictly when max > min, every level equal to max when max == min |
| Indicators.MidpointLevel | stockanalysis/src/main/java/com/personal/stockanalysis/service/YahooFinanceService.java:160 | the 50.0% level is `(max + min) / 2` |
| Indicators.AverageVolumeIsFlooredMean | stockanalysis/src/main/java/com/personal/stockanalysis/service/YahooFinanceService.java:239-241 | for non-negative volumes whose total fits a `long`, `avg*n <= sum < (avg+1)*n` |
| Indicators.AboveAverageVolume | stockanalysis/src/main/java/com/personal/stockanalysis/service/YahooFinanceService.java:181-183 | the volume signal is High exactly when `latest * n > sum`, i.e. when latest is above the exact mean |
| YahooFinance.MomentumIsNetMoveOfLastFive | stockanalysis/src/main/java/com/personal/stockanalysis/service/YahooFinanceService.java:190-192 | with five or more prices the momentum is the net move over the last four steps and its sign picks the label; with fewer it is Neutral (calculateMomentum, YahooFinanceService.java:201-205) |
| YahooFinance.TrendClassification | stockanalysis/src/main/java/com/personal/stockanalysis/service/YahooFinanceService.java:207-215 | Uptrend exactly when all three strict up-conditions hold, Downtrend exactly when all three opposite ones hold, never both, Neutral otherwise |
| YahooFinance.TrendIgnoresPrices | stockanalysis/src/main/java/com/personal/stockanalysis/service/YahooFinanceService.java:207-215 | the latest and previous prices never affect the trend |
| YahooFinance.CandlestickBands | stockanalysis/src/main/java/com/personal/stockanalysis/service/YahooFinanceService.java:168-171 | Hammer exactly above previous*1.02, Shooting Star exactly below previous*0.98, Doji in between, also as a relative change |
| YahooFinance.TodayDecisionClassification | stockanalysis/src/main/java/com/personal/stockanalysis/service/YahooFinanceService.java:195-196 | buy exactly below min*1.05, not advisable exactly above max*0.95 otherwise, Neutral in between |
| YahooFinance.PerformAnalysis | stockanalysis/src/main/java/com/personal/stockanalysis/service/YahooFinanceService.java:136-199 | no prices throws NoSuchElement, one price throws IndexOutOfBounds, no volumes throws Arithmetic; otherwise exactly the sixteen entries of the analysis |
| YahooFinance.ResultsKeys | stockanalysis/src/main/java/com/personal/stockanalysis/service/YahooFinanceService.java:137-196 | a successful analysis holds the sixteen keys and nothing else |
| YahooFinance.ResultsMovingAverages | stockanalysis/src/main/java/com/personal/stockanalysis/service/YahooFinanceService.java:140-145 | with ten or more prices the SMAs are the means of the last five and ten; with fewer than five both are 0 and the signal reads Sell |
| YahooFinance.ResultsPricesBracketed | stockanalysis/src/main/java/com/personal/stockanalysis/service/YahooFinanceService.java:154-165 | Max and Min Price are prices that bound every price, the five levels keyed 23.6%..78.6% lie between them |
| YahooFinance.ResultsDecisionMatchesOptimalPrices | stockanalysis/src/main/java/com/personal/stockanalysis/service/YahooFinanceService.java:173-196 | the today decision compares the price with the optimal buy and sell prices stored beside it |
| YahooFinance.ResultsTrendAgreesWithSignals | stockanalysis/src/main/java/com/personal/stockanalysis/service/YahooFinanceService.java:185-187 | an Uptrend comes with a Buy SMA signal, High volume and no Sell RSI signal; a Downtrend with the opposite ones |
| YahooFinance.TrendAgainstNetMove | stockanalysis/src/main/java/com/personal/stockanalysis/service/YahooFinanceService.java:186-187 | an Uptrend is reported only for a series whose last price is below its first, a Downtrend only for one that rose (through the whole-series RSI of YahooFinanceService.java:226-237) |
| StockAnalysis.AggregateWeeklyData | stockanalysis/src/main/java/com/personal/stockanalysis/service/StockAnalysisService.java:66-83 | `floor(n/5)` weekly values, value j the mean of closes [5j, 5j+5) and between their min and max; the loop keeps size k/5, count k%5 and the running sum of the open group |
| StockAnalysis.AnalyzeTrends | stockanalysis/src/main/java/com/personal/stockanalysis/service/StockAnalysisService.java:85-146 | an empty weekly series throws NoSuchElement; otherwise exactly the entries of the trend analysis, put conditionally |
| StockAnalysis.TrendsSignalKeys | stockanalysis/src/main/java/com/personal/stockanalysis/service/StockAnalysisService.java:95-108 | SMA Signal present exactly when the SMAs differ, RSI Signal exactly when the RSI is below 30 or above 70; the other ten keys always, nothing else |
| StockAnalysis.SignalEntriesKeys | stockanalysis/src/main/java/com/personal/stockanalysis/service/StockAnalysisService.java:88-108 | after the signal puts: the two SMAs and the RSI always, SMA Signal exactly when the SMAs differ, RSI Signal exactly when the RSI is below 30 or above 70 |
| StockAnalysis.TrendsFibonacciOrdering | stockanalysis/src/main/java/com/personal/stockanalysis/service/StockAnalysisService.java:111-133 | the Fibonacci Levels entry is keyed 23.6%..61.8% with max >= 23.6% >= 38.2% >= 50.0% >= 61.8% >= min; the optimal buy and sell prices are the stored 38.2% and 61.8% levels |
| StockAnalysis.TodayDecisionClassification | stockanalysis/src/main/java/com/personal/stockanalysis/service/StockAnalysisService.java:137-143 | buy exactly below the 38.2% level, not advisable exactly above the 61.8% level otherwise, Neutral in between |
| StockAnalysis.NeutralDecisionOnlyOnFlatRange | stockanalysis/src/main/java/com/personal/stockanalysis/service/StockAnalysisService.java:136-143 | the Neutral decision occurs exactly when every weekly price and today's price are one value |
| StockAnalysis.NeutralOnlyWithinFlatRange | stockanalysis/src/main/java/com/personal/stockanalysis/service/StockAnalysisService.java:130-143 | against the 38.2% and 61.8% levels of a range, the Neutral decision holds exactly when the range is one point and today's price is that point |
| StockAnalysis.TrendsMovingAverages | stockanalysis/src/main/java/com/personal/stockanalysis/service/StockAnalysisService.java:89-92 | with ten or more weeks the SMAs are the means of the last five and ten weeks |
| IexCloud.SmaMatchesLoop | stockanalysis/src/main/java/com/personal/stockanalysis/service/IEXCloudService.java:97-100 | the subList/stream SMA equals the loop SMA: 0 when too short, otherwise the mean of the last `period` prices |
| IexCloud.VolumeAnalysisAgainstMean | stockanalysis/src/main/java/com/personal/stockanalysis/service/IEXCloudService.java:115-120 | High exactly when the last volume exceeds the floored mean, and for non-negative volumes that fit a `long` exactly when it exceeds the exact mean |
| IexCloud.AnalyzeTrends | stockanalysis/src/main/java/com/personal/stockanalysis/service/IEXCloudService.java:65-95 | no prices throws NoSuchElement, no volumes throws Arithmetic; otherwise exactly the nine entries |
| IexCloud.ResultsKeysAndSmaSignal | stockanalysis/src/main/java/com/personal/stockanalysis/service/IEXCloudService.java:66-92 | the nine keys and nothing else; the SMA signal is Buy exactly when the short SMA is above the long one |
| IexCloud.ResultsRange | stockanalysis/src/main/java/com/personal/stockanalysis/service/IEXCloudService.java:80-91 | Max and Min Price bound every price and the levels are those of their range |
| IexCloud.ResultsLevels | stockanalysis/src/main/java/com/personal/stockanalysis/service/IEXCloudService.java:80-89 | the five levels lie in [min, max], fall as the ratio grows, and the 50.0% level is the midpoint |
| StockService.PerformFibonacciAnalysis | stockanalysis/src/main/java/com/personal/stockanalysis/service/StockService.java:61-79 | an empty list throws NoSuchElement and nothing else does; otherwise min <= max, both are prices bounding every price, and the levels are keyed 23.6%..61.8% |
| StockService.LevelsOrdered | stockanalysis/src/main/java/com/personal/stockanalysis/service/StockService.java:67-72 | each level in [min, max]; 23.6% >= 38.2% >= 50.0% >= 61.8%, strictly when max > min, all equal to max when max == min; 50.0% is the midpoint |
| StockService.FlatPricesCollapse | stockanalysis/src/main/java/com/personal/stockanalysis/service/StockService.java:62-72 | a list of one repeated price has that price as max, min and every level |

## Left out

- HTTP fetching (`fetchStockData` and its connection and reader loops) is network I/O and is not modelled.
- JSON navigation is not modelled. This covers `extractClosingPrices`, `extractVolumes`, `fetchLatestPrice`, `fetchTodaysPrice` and the `dataPoints` loop of `IEXCloudService.performAnalysis`. The model takes the lists they produce as parameters, together with today's price, the latest volume and the latest date.
- The order of `JSONObject.keySet()` is not specified, so `AggregateWeeklyData` takes the closes in whatever order they are iterated.
- `fetchLatestDate` is not modelled; its date formatting and time zone come from the library. The Current Price entry of YahooFinanceService is a pair of the price and the date, not the concatenated string.
- The controllers and FinnhubService only route and fetch. The vocabulary application (Word, WordController, WordService, WordRepository) is JPA delegation with no logic. None of them is part of this model.
- Java `double` rounding is not modelled: prices are exact reals. Where the code divides by a zero loss, the model follows the IEEE outcome (100 or NaN) as a named policy, not bit for bit. The IEX stream average and the loop average are equal over the reals, but in `double` they may round differently.
- The advisory strings are enum constructors, not text.
- There are no open/high/low candlestick rules in the code. The "candlestick" label compares only two closes, and that comparison is what is modelled.
- Where the behaviour described for the system and the code disagree, the model follows the code:
  - the RSI of a flat series is NaN, not 50;
  - momentum is 0 with fewer than five prices and otherwise a four-step difference;
  - weekly aggregation has no minimum of ten weeks.
- Indicators.CalculateSma: requires `period > 0`. Every call site passes 5 or 10. With period 0 the Java loop would return `0/0`.
- IexCloud.AnalyzeTrends: `performAnalysis` rethrows every exception wrapped in a RuntimeException. The model reports the underlying exception.
