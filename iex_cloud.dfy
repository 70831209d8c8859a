/** IEXCloudService.analyzeTrends: SMAs computed with subList and a stream
    average, the shared RSI loop, five Fibonacci levels and a volume
    analysis against the integer mean volume. */
module IexCloud {
  import opened Series
  import opened Report
  import opened Indicators

  /** DoubleStream.average: nothing to report for an empty stream. */
  function Average(s: seq<real>): Option<real>
  {
    if |s| == 0 then None else Some(Sum(s) / (|s| as real))
  }

  /** calculateSMA in its stream form: 0 when the list is shorter than the
      period, otherwise the average of the last `period` prices, or 0 when
      that average is empty. */
  function CalculateSma(prices: seq<real>, period: int): real
    requires period > 0
  {
    if |prices| < period then 0.0
    else
      match Average(prices[|prices| - period..])
      case Some(average) => average
      case None => 0.0
  }

  /** The stream form agrees with the loop form of the other services: the
      mean of the last `period` prices, or the 0 sentinel. */
  lemma SmaMatchesLoop(prices: seq<real>, period: int)
    requires period > 0
    ensures CalculateSma(prices, period) == Sma(prices, period)
    ensures |prices| >= period ==> CalculateSma(prices, period) == Mean(prices[|prices| - period..])
    ensures |prices| < period ==> CalculateSma(prices, period) == 0.0
  {
  }

  /** calculateVolumeAnalysis: the last volume against the integer mean
      volume; the `long` division throws on an empty list. */
  function CalculateVolumeAnalysis(volumes: seq<int>): Advice
    requires |volumes| > 0
  {
    var averageVolume := AverageVolume(volumes);
    var latestVolume := volumes[|volumes| - 1];
    VolumeAdvice(latestVolume, averageVolume)
  }

  /** High exactly when the last volume is strictly above the floored mean,
      which for non-negative volumes that fit a `long` is exactly when it is
      above the exact mean. */
  lemma VolumeAnalysisAgainstMean(volumes: seq<int>)
    requires |volumes| > 0
    ensures CalculateVolumeAnalysis(volumes) == HighVolume <==> volumes[|volumes| - 1] > AverageVolume(volumes)
    ensures CalculateVolumeAnalysis(volumes) in {HighVolume, LowVolume}
    ensures (forall i :: 0 <= i < |volumes| ==> volumes[i] >= 0) && IntSum(volumes) <= LongMax ==>
              (CalculateVolumeAnalysis(volumes) == HighVolume <==>
                 volumes[|volumes| - 1] * |volumes| > IntSum(volumes))
  {
    if (forall i :: 0 <= i < |volumes| ==> volumes[i] >= 0) && IntSum(volumes) <= LongMax {
      AboveAverageVolume(volumes[|volumes| - 1], volumes);
    }
  }

  /** The nine entries analyzeTrends puts, as one value. */
  function AnalysisResults(prices: seq<real>, volumes: seq<int>): map<Key, Value>
    requires |prices| > 0 && |volumes| > 0
  {
    var shortTermSma, longTermSma := CalculateSma(prices, 5), CalculateSma(prices, 10);
    var rsi := RsiOf(prices);
    var maxPrice, minPrice := Max(prices), Min(prices);
    map[
      ShortTermSma := Num(shortTermSma),
      LongTermSma := Num(longTermSma),
      SmaSignal := Text(SmaAdvice(shortTermSma, longTermSma)),
      Rsi := Oscillator(rsi),
      RsiSignal := Text(RsiAdvice(rsi)),
      FibonacciLevels := Fib(RetracementLevels(maxPrice, minPrice, FiveRatios)),
      MaxPrice := Num(maxPrice),
      MinPrice := Num(minPrice),
      VolumeAnalysis := Text(CalculateVolumeAnalysis(volumes))
    ]
  }

  /** analyzeTrends: fills a HashMap entry by entry. Collections.max throws
      on no prices and the average volume throws on no volumes (performAnalysis
      rethrows either wrapped in a RuntimeException). */
  method AnalyzeTrends(prices: seq<real>, volumes: seq<int>) returns (r: Outcome<map<Key, Value>>)
    ensures |prices| == 0 ==> r == Failure(NoSuchElement)
    ensures |prices| > 0 && |volumes| == 0 ==> r == Failure(Arithmetic)
    ensures |prices| > 0 && |volumes| > 0 ==> r == Success(AnalysisResults(prices, volumes))
  {
    var results: map<Key, Value> := map[];

    var shortTermSma := CalculateSma(prices, 5);
    var longTermSma := CalculateSma(prices, 10);
    results := results[ShortTermSma := Num(shortTermSma)];
    results := results[LongTermSma := Num(longTermSma)];
    results := results[SmaSignal := Text(SmaAdvice(shortTermSma, longTermSma))];

    var rsi := CalculateRsi(prices);
    results := results[Rsi := Oscillator(rsi)];
    results := results[RsiSignal := Text(RsiAdvice(rsi))];

    if |prices| == 0 {
      return Failure(NoSuchElement);
    }
    var maxPrice := Max(prices);
    var minPrice := Min(prices);
    results := results[FibonacciLevels := Fib(RetracementLevels(maxPrice, minPrice, FiveRatios))];
    results := results[MaxPrice := Num(maxPrice)];
    results := results[MinPrice := Num(minPrice)];

    if |volumes| == 0 {
      return Failure(Arithmetic);
    }
    results := results[VolumeAnalysis := Text(CalculateVolumeAnalysis(volumes))];
    return Success(results);
  }

  // ---------------------------------------------------------------------
  // Properties of the analysis results

  /** The results hold the nine keys and nothing else; the SMA signal is Buy
      exactly when the short SMA is above the long one and Sell otherwise,
      equality included. */
  lemma ResultsKeysAndSmaSignal(prices: seq<real>, volumes: seq<int>)
    requires |prices| > 0 && |volumes| > 0
    ensures var m := AnalysisResults(prices, volumes);
            && m.Keys == {ShortTermSma, LongTermSma, SmaSignal, Rsi, RsiSignal, FibonacciLevels,
                          MaxPrice, MinPrice, VolumeAnalysis}
            && (m[SmaSignal] == Text(SmaBuy) <==> Sma(prices, 5) > Sma(prices, 10))
            && (m[SmaSignal] == Text(SmaSell) <==> Sma(prices, 5) <= Sma(prices, 10))
  {
    SmaMatchesLoop(prices, 5);
    SmaMatchesLoop(prices, 10);
  }

  /** The range entries are the maximum and minimum price, which bound every
      price, and the levels are the five retracements of that range. */
  lemma ResultsRange(prices: seq<real>, volumes: seq<int>)
    requires |prices| > 0 && |volumes| > 0
    ensures var m := AnalysisResults(prices, volumes);
            && m[MaxPrice] == Num(Max(prices)) && m[MinPrice] == Num(Min(prices))
            && m[FibonacciLevels] == Fib(RetracementLevels(Max(prices), Min(prices), FiveRatios))
            && forall i :: 0 <= i < |prices| ==> Min(prices) <= prices[i] <= Max(prices)
  {
  }

  /** The five levels put under Fibonacci Levels lie within [Min Price,
      Max Price] of the prices, fall as the ratio grows, and the 50.0% level
      is the midpoint of the range. */
  lemma ResultsLevels(prices: seq<real>)
    requires |prices| > 0
    ensures var maxPrice, minPrice := Max(prices), Min(prices);
            var levels := RetracementLevels(maxPrice, minPrice, FiveRatios);
            && (forall r :: r in levels ==> minPrice <= levels[r] <= maxPrice)
            && maxPrice >= levels[R236] >= levels[R382] >= levels[R500] >= levels[R618] >= levels[R786] >= minPrice
            && levels[R500] == (maxPrice + minPrice) / 2.0
  {
    var maxPrice, minPrice := Max(prices), Min(prices);
    forall r: Ratio ensures minPrice <= Level(maxPrice, minPrice, r) <= maxPrice {
      LevelWithinRange(maxPrice, minPrice, r);
    }
    LevelLadder(maxPrice, minPrice);
  }
}
