/** StockAnalysisService: daily closes are folded into weekly means, and the
    weekly series is analysed with SMAs, the RSI and Fibonacci levels that
    also set the optimal prices and the today decision. Signal entries are
    put only when a strict comparison holds. */
module StockAnalysis {
  import opened Series
  import opened Report
  import opened Indicators

  /** aggregateWeeklyData over the closes in the order the time series is
      iterated: a running sum and count that emit the mean of every complete
      group of five closes and restart; a trailing partial group is dropped. */
  method AggregateWeeklyData(closes: seq<real>) returns (weeklyPrices: seq<real>)
    ensures |weeklyPrices| == |closes| / 5
    ensures forall j :: 0 <= j < |weeklyPrices| ==> weeklyPrices[j] == Mean(closes[5 * j..5 * j + 5])
    ensures forall j :: 0 <= j < |weeklyPrices| ==>
              Min(closes[5 * j..5 * j + 5]) <= weeklyPrices[j] <= Max(closes[5 * j..5 * j + 5])
  {
    weeklyPrices := [];
    var count := 0;
    var sum := 0.0;
    for k := 0 to |closes|
      invariant |weeklyPrices| == k / 5 && count == k % 5
      invariant sum == Sum(closes[k - count..k])
      invariant forall j :: 0 <= j < |weeklyPrices| ==> weeklyPrices[j] == Mean(closes[5 * j..5 * j + 5])
    {
      var closingPrice := closes[k];
      assert closes[k - count..k + 1] == closes[k - count..k] + [closingPrice];
      SumSnoc(closes[k - count..k], closingPrice);
      sum := sum + closingPrice;
      count := count + 1;
      if count == 5 {
        weeklyPrices := weeklyPrices + [sum / 5.0];
        sum := 0.0;
        count := 0;
      }
    }
    forall j | 0 <= j < |weeklyPrices|
      ensures Min(closes[5 * j..5 * j + 5]) <= weeklyPrices[j] <= Max(closes[5 * j..5 * j + 5])
    {
      MeanBounds(closes[5 * j..5 * j + 5]);
    }
  }

  /** The today decision against the 38.2% and 61.8% levels. */
  function DecideToday(todaysPrice: real, level38: real, level61: real): Advice
  {
    if todaysPrice < level38 then AdvisableToBuy
    else if todaysPrice > level61 then NotAdvisableToBuy
    else NeutralPrice
  }

  /** The entries analyzeTrends always puts. */
  function BaseKeys(): set<Key>
  {
    {ShortTermSma, LongTermSma, Rsi, FibonacciLevels, MaxPrice, MinPrice,
     OptimalBuyPrice, OptimalSellPrice, CurrentPrice, TodayDecision}
  }

  /** The entries analyzeTrends puts before it needs the range: the two
      SMAs, the SMA signal only when they differ, the RSI, and the RSI
      signal only when the RSI is below 30 or above 70. */
  function SignalEntries(weeklyPrices: seq<real>): map<Key, Value>
  {
    var shortTermSma, longTermSma := Sma(weeklyPrices, 5), Sma(weeklyPrices, 10);
    var rsi := RsiOf(weeklyPrices);
    var averages := map[ShortTermSma := Num(shortTermSma), LongTermSma := Num(longTermSma)];
    var withSmaSignal :=
      if shortTermSma > longTermSma then averages[SmaSignal := Text(SmaBuy)]
      else if shortTermSma < longTermSma then averages[SmaSignal := Text(SmaSell)]
      else averages;
    var withRsi := withSmaSignal[Rsi := Oscillator(rsi)];
    if Below(rsi, 30.0) then withRsi[RsiSignal := Text(RsiBuy)]
    else if Above(rsi, 70.0) then withRsi[RsiSignal := Text(RsiSell)]
    else withRsi
  }

  /** The entries analyzeTrends puts once the range is known, on top of
      `m`: the four Fibonacci levels with the range, the 38.2% and 61.8%
      levels as optimal buy and sell prices, today's price and the today
      decision. */
  function RangeEntries(m: map<Key, Value>, maxPrice: real, minPrice: real, todaysPrice: real): map<Key, Value>
  {
    var level38, level61 := Level(maxPrice, minPrice, R382), Level(maxPrice, minPrice, R618);
    m
      [FibonacciLevels := Fib(RetracementLevels(maxPrice, minPrice, FourRatios))]
      [MaxPrice := Num(maxPrice)]
      [MinPrice := Num(minPrice)]
      [OptimalBuyPrice := Num(level38)]
      [OptimalSellPrice := Num(level61)]
      [CurrentPrice := Num(todaysPrice)]
      [TodayDecision := Text(DecideToday(todaysPrice, level38, level61))]
  }

  /** What analyzeTrends returns for a non-empty weekly series. */
  function Trends(weeklyPrices: seq<real>, todaysPrice: real): map<Key, Value>
    requires |weeklyPrices| > 0
  {
    RangeEntries(SignalEntries(weeklyPrices), Max(weeklyPrices), Min(weeklyPrices), todaysPrice)
  }

  /** analyzeTrends: puts the entries one by one; Collections.max throws
      NoSuchElementException when the weekly series is empty. */
  method AnalyzeTrends(weeklyPrices: seq<real>, todaysPrice: real) returns (r: Outcome<map<Key, Value>>)
    ensures |weeklyPrices| == 0 ==> r == Failure(NoSuchElement)
    ensures |weeklyPrices| > 0 ==> r == Success(Trends(weeklyPrices, todaysPrice))
  {
    var results: map<Key, Value> := map[];

    var shortTermSma := CalculateSma(weeklyPrices, 5);
    var longTermSma := CalculateSma(weeklyPrices, 10);
    results := results[ShortTermSma := Num(shortTermSma)];
    results := results[LongTermSma := Num(longTermSma)];

    if shortTermSma > longTermSma {
      results := results[SmaSignal := Text(SmaBuy)];
    } else if shortTermSma < longTermSma {
      results := results[SmaSignal := Text(SmaSell)];
    }

    var rsi := CalculateRsi(weeklyPrices);
    results := results[Rsi := Oscillator(rsi)];
    if Below(rsi, 30.0) {
      results := results[RsiSignal := Text(RsiBuy)];
    } else if Above(rsi, 70.0) {
      results := results[RsiSignal := Text(RsiSell)];
    }

    if |weeklyPrices| == 0 {
      return Failure(NoSuchElement);
    }
    var maxPrice := Max(weeklyPrices);
    var minPrice := Min(weeklyPrices);
    var level38 := Level(maxPrice, minPrice, R382);
    var level61 := Level(maxPrice, minPrice, R618);
    results := results[FibonacciLevels := Fib(RetracementLevels(maxPrice, minPrice, FourRatios))];
    results := results[MaxPrice := Num(maxPrice)];
    results := results[MinPrice := Num(minPrice)];

    var optimalBuyPrice := level38;
    var optimalSellPrice := level61;
    results := results[OptimalBuyPrice := Num(optimalBuyPrice)];
    results := results[OptimalSellPrice := Num(optimalSellPrice)];

    results := results[CurrentPrice := Num(todaysPrice)];
    if todaysPrice < level38 {
      results := results[TodayDecision := Text(AdvisableToBuy)];
    } else if todaysPrice > level61 {
      results := results[TodayDecision := Text(NotAdvisableToBuy)];
    } else {
      results := results[TodayDecision := Text(NeutralPrice)];
    }
    return Success(results);
  }

  // ---------------------------------------------------------------------
  // Properties of the trends map

  /** The SMA signal is present exactly when the two SMAs differ, the RSI
      signal exactly when the RSI is below 30 or above 70 (never for NaN),
      and no other key is optional. */
  lemma TrendsSignalKeys(weeklyPrices: seq<real>, todaysPrice: real)
    requires |weeklyPrices| > 0
    ensures var m := Trends(weeklyPrices, todaysPrice);
            var shortTermSma, longTermSma := Sma(weeklyPrices, 5), Sma(weeklyPrices, 10);
            var rsi := RsiOf(weeklyPrices);
            && BaseKeys() <= m.Keys <= BaseKeys() + {SmaSignal, RsiSignal}
            && (SmaSignal in m <==> shortTermSma != longTermSma)
            && (RsiSignal in m <==> rsi.Number? && (rsi.value < 30.0 || rsi.value > 70.0))
            && (SmaSignal in m ==> (m[SmaSignal] == Text(SmaBuy) <==> shortTermSma > longTermSma))
            && (RsiSignal in m ==> (m[RsiSignal] == Text(RsiBuy) <==> Below(rsi, 30.0)))
  {
    SignalEntriesKeys(weeklyPrices);
    RangeEntriesKeeps(SignalEntries(weeklyPrices), Max(weeklyPrices), Min(weeklyPrices), todaysPrice);
  }

  /** The same, for the entries put before the range is known. */
  lemma SignalEntriesKeys(weeklyPrices: seq<real>)
    ensures var m := SignalEntries(weeklyPrices);
            var shortTermSma, longTermSma := Sma(weeklyPrices, 5), Sma(weeklyPrices, 10);
            var rsi := RsiOf(weeklyPrices);
            && {ShortTermSma, LongTermSma, Rsi} <= m.Keys <= {ShortTermSma, LongTermSma, Rsi, SmaSignal, RsiSignal}
            && (SmaSignal in m <==> shortTermSma != longTermSma)
            && (RsiSignal in m <==> rsi.Number? && (rsi.value < 30.0 || rsi.value > 70.0))
            && (SmaSignal in m ==> (m[SmaSignal] == Text(SmaBuy) <==> shortTermSma > longTermSma))
            && (RsiSignal in m ==> (m[RsiSignal] == Text(RsiBuy) <==> Below(rsi, 30.0)))
  {
  }

  /** The Fibonacci Levels entry holds the four levels of the weekly range,
      ordered max >= 23.6% >= 38.2% >= 50.0% >= 61.8% >= min; the optimal buy
      and sell prices are the 38.2% and 61.8% levels, so the optimal buy
      price is never below the optimal sell price. */
  lemma TrendsFibonacciOrdering(weeklyPrices: seq<real>, todaysPrice: real)
    requires |weeklyPrices| > 0
    ensures var m := Trends(weeklyPrices, todaysPrice);
            var maxPrice, minPrice := Max(weeklyPrices), Min(weeklyPrices);
            && m[FibonacciLevels].Fib?
            && var levels := m[FibonacciLevels].levels;
            && levels.Keys == FourRatios
            && maxPrice >= levels[R236] >= levels[R382] >= levels[R500] >= levels[R618] >= minPrice
            && m[OptimalBuyPrice] == Num(levels[R382])
            && m[OptimalSellPrice] == Num(levels[R618])
  {
    var maxPrice, minPrice := Max(weeklyPrices), Min(weeklyPrices);
    RangeEntriesValues(SignalEntries(weeklyPrices), maxPrice, minPrice, todaysPrice);
    LevelLadder(maxPrice, minPrice);
  }

  /** The values RangeEntries puts. */
  lemma RangeEntriesValues(m: map<Key, Value>, maxPrice: real, minPrice: real, todaysPrice: real)
    ensures var r := RangeEntries(m, maxPrice, minPrice, todaysPrice);
            var level38, level61 := Level(maxPrice, minPrice, R382), Level(maxPrice, minPrice, R618);
            && r[FibonacciLevels] == Fib(RetracementLevels(maxPrice, minPrice, FourRatios))
            && r[MaxPrice] == Num(maxPrice) && r[MinPrice] == Num(minPrice)
            && r[OptimalBuyPrice] == Num(level38) && r[OptimalSellPrice] == Num(level61)
            && r[TodayDecision] == Text(DecideToday(todaysPrice, level38, level61))
  {
  }

  /** RangeEntries adds its seven keys and keeps the earlier entries. */
  lemma RangeEntriesKeeps(m: map<Key, Value>, maxPrice: real, minPrice: real, todaysPrice: real)
    ensures var r := RangeEntries(m, maxPrice, minPrice, todaysPrice);
            && r.Keys == m.Keys + {FibonacciLevels, MaxPrice, MinPrice, OptimalBuyPrice, OptimalSellPrice,
                                   CurrentPrice, TodayDecision}
            && (ShortTermSma in m ==> r[ShortTermSma] == m[ShortTermSma])
            && (LongTermSma in m ==> r[LongTermSma] == m[LongTermSma])
            && (SmaSignal in m ==> r[SmaSignal] == m[SmaSignal])
            && (RsiSignal in m ==> r[RsiSignal] == m[RsiSignal])
  {
  }

  /** The today decision: buy below the 38.2% level, otherwise avoid above
      the 61.8% level, otherwise Neutral. */
  lemma TodayDecisionClassification(todaysPrice: real, level38: real, level61: real)
    ensures DecideToday(todaysPrice, level38, level61) == AdvisableToBuy <==> todaysPrice < level38
    ensures DecideToday(todaysPrice, level38, level61) == NotAdvisableToBuy <==>
              level38 <= todaysPrice && todaysPrice > level61
    ensures DecideToday(todaysPrice, level38, level61) == NeutralPrice <==>
              level38 <= todaysPrice <= level61
  {
  }

  /** Since the 38.2% level is never below the 61.8% level, the Neutral
      decision ("within the Fibonacci range") is reached only when every
      weekly price and today's price are one and the same value; for any
      other input the decision is buy or not advisable. */
  lemma NeutralDecisionOnlyOnFlatRange(weeklyPrices: seq<real>, todaysPrice: real)
    requires |weeklyPrices| > 0
    ensures var m := Trends(weeklyPrices, todaysPrice);
            m[TodayDecision] == Text(NeutralPrice) <==>
              Max(weeklyPrices) == Min(weeklyPrices) == todaysPrice
  {
    var maxPrice, minPrice := Max(weeklyPrices), Min(weeklyPrices);
    RangeEntriesValues(SignalEntries(weeklyPrices), maxPrice, minPrice, todaysPrice);
    assert minPrice <= weeklyPrices[0] <= maxPrice;
    NeutralOnlyWithinFlatRange(maxPrice, minPrice, todaysPrice);
  }

  /** The decision against the two optimal prices of a range [minPrice,
      maxPrice] is Neutral exactly when the range is one point and today's
      price is that point. */
  lemma NeutralOnlyWithinFlatRange(maxPrice: real, minPrice: real, todaysPrice: real)
    requires minPrice <= maxPrice
    ensures var level38, level61 := Level(maxPrice, minPrice, R382), Level(maxPrice, minPrice, R618);
            DecideToday(todaysPrice, level38, level61) == NeutralPrice <==> maxPrice == minPrice == todaysPrice
  {
    var level38, level61 := Level(maxPrice, minPrice, R382), Level(maxPrice, minPrice, R618);
    assert level38 - level61 == (maxPrice - minPrice) * 0.236;
  }

  /** A weekly series long enough for both windows gets the means of its
      last five and last ten weeks. */
  lemma TrendsMovingAverages(weeklyPrices: seq<real>, todaysPrice: real)
    requires |weeklyPrices| >= 10
    ensures var m := Trends(weeklyPrices, todaysPrice);
            && m[ShortTermSma] == Num(Mean(weeklyPrices[|weeklyPrices| - 5..]))
            && m[LongTermSma] == Num(Mean(weeklyPrices[|weeklyPrices| - 10..]))
  {
    SignalEntriesKeys(weeklyPrices);
    RangeEntriesKeeps(SignalEntries(weeklyPrices), Max(weeklyPrices), Min(weeklyPrices), todaysPrice);
  }
}
