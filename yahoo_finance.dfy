/** YahooFinanceService.performAnalysis and the rules only that service has:
    the momentum difference, the conjunctive trend classifier, the
    close-to-close "candlestick" label, the percent-offset optimal prices
    and the today decision. */
module YahooFinance {
  import opened Series
  import opened Report
  import opened Indicators

  // ---------------------------------------------------------------------
  // Momentum

  /** calculateMomentum: 0 with fewer than 5 prices, otherwise the last
      price minus the fifth-to-last one. */
  function CalculateMomentum(prices: seq<real>): real
  {
    if |prices| < 5 then 0.0 else prices[|prices| - 1] - prices[|prices| - 5]
  }

  /** `momentum > 0 ? Positive : momentum < 0 ? Negative : Neutral`. */
  function MomentumAdvice(momentum: real): Advice
  {
    if momentum > 0.0 then PositiveMomentum
    else if momentum < 0.0 then NegativeMomentum
    else NeutralMomentum
  }

  /** The momentum is the net move over the last five closes (four steps):
      their gains minus their losses; its label is the sign of that move,
      and is Neutral whenever fewer than five closes are known. */
  lemma MomentumIsNetMoveOfLastFive(prices: seq<real>)
    ensures |prices| >= 5 ==>
              CalculateMomentum(prices) == Gain(prices[|prices| - 5..]) - Loss(prices[|prices| - 5..])
    ensures |prices| < 5 ==> MomentumAdvice(CalculateMomentum(prices)) == NeutralMomentum
    ensures |prices| >= 5 ==>
              (MomentumAdvice(CalculateMomentum(prices)) == PositiveMomentum <==> prices[|prices| - 1] > prices[|prices| - 5])
    ensures |prices| >= 5 ==>
              (MomentumAdvice(CalculateMomentum(prices)) == NegativeMomentum <==> prices[|prices| - 1] < prices[|prices| - 5])
  {
    if |prices| >= 5 {
      var w := prices[|prices| - 5..];
      GainMinusLoss(w);
      assert w[|w| - 1] == prices[|prices| - 1] && w[0] == prices[|prices| - 5];
    }
  }

  // ---------------------------------------------------------------------
  // Trend

  /** identifyTrend: all three strict conditions for an uptrend, else all
      three opposite ones for a downtrend, else neutral. The latest and
      previous prices are parameters that the rule never reads. */
  function IdentifyTrend(shortTermSma: real, longTermSma: real, rsi: RsiReading,
                         latestPrice: real, previousPrice: real,
                         latestVolume: int, averageVolume: int): Advice
  {
    if shortTermSma > longTermSma && Below(rsi, 50.0) && latestVolume > averageVolume then Uptrend
    else if shortTermSma < longTermSma && Above(rsi, 50.0) && latestVolume < averageVolume then Downtrend
    else NeutralTrend
  }

  /** Uptrend and Downtrend each hold exactly when their own three
      conditions do (the two sets of conditions exclude each other), and
      Neutral covers everything else. */
  lemma TrendClassification(shortTermSma: real, longTermSma: real, rsi: RsiReading,
                            latestPrice: real, previousPrice: real,
                            latestVolume: int, averageVolume: int)
    ensures var t := IdentifyTrend(shortTermSma, longTermSma, rsi, latestPrice, previousPrice, latestVolume, averageVolume);
            && (t == Uptrend <==> shortTermSma > longTermSma && Below(rsi, 50.0) && latestVolume > averageVolume)
            && (t == Downtrend <==> shortTermSma < longTermSma && Above(rsi, 50.0) && latestVolume < averageVolume)
            && (t == NeutralTrend <==> t != Uptrend && t != Downtrend)
            && t in {Uptrend, Downtrend, NeutralTrend}
  {
  }

  /** The latest and previous prices do not affect the trend. */
  lemma TrendIgnoresPrices(shortTermSma: real, longTermSma: real, rsi: RsiReading,
                           latest1: real, previous1: real, latest2: real, previous2: real,
                           latestVolume: int, averageVolume: int)
    ensures IdentifyTrend(shortTermSma, longTermSma, rsi, latest1, previous1, latestVolume, averageVolume)
         == IdentifyTrend(shortTermSma, longTermSma, rsi, latest2, previous2, latestVolume, averageVolume)
  {
  }

  // ---------------------------------------------------------------------
  // Candlestick label and today decision

  /** The "Candlestick Pattern": compares two closes only (open, high and
      low are never consulted). */
  function Candlestick(latestPrice: real, previousPrice: real): Advice
  {
    if latestPrice > previousPrice * 1.02 then Hammer
    else if latestPrice < previousPrice * 0.98 then ShootingStar
    else Doji
  }

  /** For a positive previous close the label is a band test on the
      close-to-close change: Hammer above +2%, Shooting Star below -2%,
      Doji within the band. */
  lemma CandlestickBands(latestPrice: real, previousPrice: real)
    requires previousPrice > 0.0
    ensures Candlestick(latestPrice, previousPrice) == Hammer <==> latestPrice > previousPrice * 1.02
    ensures Candlestick(latestPrice, previousPrice) == ShootingStar <==> latestPrice < previousPrice * 0.98
    ensures Candlestick(latestPrice, previousPrice) == Doji <==>
              previousPrice * 0.98 <= latestPrice <= previousPrice * 1.02
    ensures Candlestick(latestPrice, previousPrice) == Hammer <==>
              (latestPrice - previousPrice) / previousPrice > 0.02
    ensures Candlestick(latestPrice, previousPrice) == ShootingStar <==>
              (latestPrice - previousPrice) / previousPrice < -0.02
  {
    QuotientCompare(latestPrice - previousPrice, previousPrice, 0.02);
    QuotientCompare(latestPrice - previousPrice, previousPrice, -0.02);
  }

  /** The "Today Decision" against the percent-offset optimal prices. */
  function DecideToday(latestPrice: real, minPrice: real, maxPrice: real): Advice
  {
    if latestPrice < minPrice * 1.05 then AdvisableToBuy
    else if latestPrice > maxPrice * 0.95 then NotAdvisableToBuy
    else NeutralPrice
  }

  /** Buy exactly below the optimal buy price; otherwise avoid exactly above
      the optimal sell price; Neutral in between. When the range is wide
      enough for the two offsets not to cross, "not advisable" is simply
      "above the optimal sell price". */
  lemma TodayDecisionClassification(latestPrice: real, minPrice: real, maxPrice: real)
    ensures DecideToday(latestPrice, minPrice, maxPrice) == AdvisableToBuy <==> latestPrice < minPrice * 1.05
    ensures DecideToday(latestPrice, minPrice, maxPrice) == NotAdvisableToBuy <==>
              minPrice * 1.05 <= latestPrice && latestPrice > maxPrice * 0.95
    ensures DecideToday(latestPrice, minPrice, maxPrice) == NeutralPrice <==>
              minPrice * 1.05 <= latestPrice <= maxPrice * 0.95
    ensures minPrice * 1.05 <= maxPrice * 0.95 ==>
              (DecideToday(latestPrice, minPrice, maxPrice) == NotAdvisableToBuy <==> latestPrice > maxPrice * 0.95)
  {
  }

  // ---------------------------------------------------------------------
  // performAnalysis

  /** The sixteen entries performAnalysis puts, as one value. */
  function AnalysisResults(prices: seq<real>, volumes: seq<int>, latestPrice: real,
                           latestVolume: int, latestDate: string): map<Key, Value>
    requires |prices| >= 2 && |volumes| >= 1
  {
    var shortTermSma, longTermSma := Sma(prices, 5), Sma(prices, 10);
    var rsi := RsiOf(prices);
    var maxPrice, minPrice := Max(prices), Min(prices);
    var previousPrice := prices[|prices| - 2];
    var averageVolume := AverageVolume(volumes);
    map[
      ShortTermSma := Num(shortTermSma),
      LongTermSma := Num(longTermSma),
      SmaSignal := Text(SmaAdvice(shortTermSma, longTermSma)),
      Rsi := Oscillator(rsi),
      RsiSignal := Text(RsiAdvice(rsi)),
      FibonacciLevels := Fib(RetracementLevels(maxPrice, minPrice, FiveRatios)),
      MaxPrice := Num(maxPrice),
      MinPrice := Num(minPrice),
      CandlestickPattern := Text(Candlestick(latestPrice, previousPrice)),
      OptimalBuyPrice := Num(minPrice * 1.05),
      OptimalSellPrice := Num(maxPrice * 0.95),
      CurrentPrice := Dated(latestPrice, latestDate),
      VolumeAnalysis := Text(VolumeAdvice(latestVolume, averageVolume)),
      TrendInformation := Text(IdentifyTrend(shortTermSma, longTermSma, rsi, latestPrice, previousPrice,
                                             latestVolume, averageVolume)),
      Momentum := Text(MomentumAdvice(CalculateMomentum(prices))),
      TodayDecision := Text(DecideToday(latestPrice, minPrice, maxPrice))
    ]
  }

  /** performAnalysis: fills a HashMap entry by entry. It throws
      NoSuchElementException from Collections.max on no prices,
      IndexOutOfBoundsException from prices.get(size - 2) on one price, and
      ArithmeticException from the average volume on no volumes; otherwise
      it returns exactly the sixteen entries of AnalysisResults. */
  method PerformAnalysis(prices: seq<real>, volumes: seq<int>, latestPrice: real,
                         latestVolume: int, latestDate: string)
    returns (r: Outcome<map<Key, Value>>)
    ensures |prices| == 0 ==> r == Failure(NoSuchElement)
    ensures |prices| == 1 ==> r == Failure(IndexOutOfBounds)
    ensures |prices| >= 2 && |volumes| == 0 ==> r == Failure(Arithmetic)
    ensures |prices| >= 2 && |volumes| >= 1 ==>
              r == Success(AnalysisResults(prices, volumes, latestPrice, latestVolume, latestDate))
  {
    var results: map<Key, Value> := map[];

    var shortTermSma := CalculateSma(prices, 5);
    var longTermSma := CalculateSma(prices, 10);
    results := results[ShortTermSma := Num(shortTermSma)];
    results := results[LongTermSma := Num(longTermSma)];
    results := results[SmaSignal := Text(SmaAdvice(shortTermSma, longTermSma))];

    var rsi := CalculateRsi(prices);
    results := results[Rsi := Oscillator(rsi)];
    results := results[RsiSignal := Text(RsiAdvice(rsi))];

    if |prices| == 0 {
      return Failure(NoSuchElement);
    }
    var maxPrice := Max(prices);
    var minPrice := Min(prices);
    results := results[FibonacciLevels := Fib(RetracementLevels(maxPrice, minPrice, FiveRatios))];
    results := results[MaxPrice := Num(maxPrice)];
    results := results[MinPrice := Num(minPrice)];

    if |prices| < 2 {
      return Failure(IndexOutOfBounds);
    }
    var previousPrice := prices[|prices| - 2];
    results := results[CandlestickPattern := Text(Candlestick(latestPrice, previousPrice))];

    results := results[OptimalBuyPrice := Num(minPrice * 1.05)];
    results := results[OptimalSellPrice := Num(maxPrice * 0.95)];
    results := results[CurrentPrice := Dated(latestPrice, latestDate)];

    if |volumes| == 0 {
      return Failure(Arithmetic);
    }
    var averageVolume := AverageVolume(volumes);
    results := results[VolumeAnalysis := Text(VolumeAdvice(latestVolume, averageVolume))];

    var trend := IdentifyTrend(shortTermSma, longTermSma, rsi, latestPrice, previousPrice,
                               latestVolume, averageVolume);
    results := results[TrendInformation := Text(trend)];

    var momentum := CalculateMomentum(prices);
    results := results[Momentum := Text(MomentumAdvice(momentum))];

    results := results[TodayDecision := Text(DecideToday(latestPrice, minPrice, maxPrice))];
    return Success(results);
  }

  // ---------------------------------------------------------------------
  // Properties of the analysis results

  /** The results hold the sixteen keys and nothing else. */
  lemma ResultsKeys(prices: seq<real>, volumes: seq<int>, latestPrice: real,
                    latestVolume: int, latestDate: string)
    requires |prices| >= 2 && |volumes| >= 1
    ensures AnalysisResults(prices, volumes, latestPrice, latestVolume, latestDate).Keys ==
              {ShortTermSma, LongTermSma, SmaSignal, Rsi, RsiSignal, FibonacciLevels, MaxPrice,
               MinPrice, CandlestickPattern, OptimalBuyPrice, OptimalSellPrice, CurrentPrice,
               VolumeAnalysis, TrendInformation, Momentum, TodayDecision}
  {
  }

  /** With ten or more prices the two SMAs are the means of the last five
      and last ten; with fewer than five both are the 0 sentinel, and the
      signal then reads "Sell". */
  lemma ResultsMovingAverages(prices: seq<real>, volumes: seq<int>, latestPrice: real,
                              latestVolume: int, latestDate: string)
    requires |prices| >= 2 && |volumes| >= 1
    ensures var m := AnalysisResults(prices, volumes, latestPrice, latestVolume, latestDate);
            |prices| >= 10 ==>
              && m[ShortTermSma] == Num(Mean(prices[|prices| - 5..]))
              && m[LongTermSma] == Num(Mean(prices[|prices| - 10..]))
              && (m[SmaSignal] == Text(SmaBuy) <==> Mean(prices[|prices| - 5..]) > Mean(prices[|prices| - 10..]))
    ensures var m := AnalysisResults(prices, volumes, latestPrice, latestVolume, latestDate);
            |prices| < 5 ==>
              m[ShortTermSma] == Num(0.0) && m[LongTermSma] == Num(0.0) && m[SmaSignal] == Text(SmaSell)
  {
  }

  /** Max Price and Min Price are closes of the series that bound every
      close, and every Fibonacci level lies between them. */
  lemma ResultsPricesBracketed(prices: seq<real>, volumes: seq<int>, latestPrice: real,
                               latestVolume: int, latestDate: string)
    requires |prices| >= 2 && |volumes| >= 1
    ensures var m := AnalysisResults(prices, volumes, latestPrice, latestVolume, latestDate);
            && m[MaxPrice].Num? && m[MinPrice].Num? && m[FibonacciLevels].Fib?
            && m[MaxPrice].x in prices && m[MinPrice].x in prices
            && (forall i :: 0 <= i < |prices| ==> m[MinPrice].x <= prices[i] <= m[MaxPrice].x)
            && m[FibonacciLevels].levels.Keys == FiveRatios
            && (forall r :: r in m[FibonacciLevels].levels ==>
                  m[MinPrice].x <= m[FibonacciLevels].levels[r] <= m[MaxPrice].x)
  {
    var maxPrice, minPrice := Max(prices), Min(prices);
    forall r: Ratio ensures minPrice <= Level(maxPrice, minPrice, r) <= maxPrice {
      LevelWithinRange(maxPrice, minPrice, r);
    }
  }

  /** The today decision agrees with the optimal prices stored beside it. */
  lemma ResultsDecisionMatchesOptimalPrices(prices: seq<real>, volumes: seq<int>, latestPrice: real,
                                            latestVolume: int, latestDate: string)
    requires |prices| >= 2 && |volumes| >= 1
    ensures var m := AnalysisResults(prices, volumes, latestPrice, latestVolume, latestDate);
            && m[OptimalBuyPrice].Num? && m[OptimalSellPrice].Num?
            && (m[TodayDecision] == Text(AdvisableToBuy) <==> latestPrice < m[OptimalBuyPrice].x)
            && (m[TodayDecision] == Text(NotAdvisableToBuy) <==>
                  m[OptimalBuyPrice].x <= latestPrice && latestPrice > m[OptimalSellPrice].x)
  {
  }

  /** The trend never contradicts the signals reported beside it: an uptrend
      comes with a Buy SMA signal, high volume and no overbought RSI, a
      downtrend with a Sell SMA signal, low volume and no oversold RSI. */
  lemma ResultsTrendAgreesWithSignals(prices: seq<real>, volumes: seq<int>, latestPrice: real,
                                      latestVolume: int, latestDate: string)
    requires |prices| >= 2 && |volumes| >= 1
    ensures var m := AnalysisResults(prices, volumes, latestPrice, latestVolume, latestDate);
            m[TrendInformation] == Text(Uptrend) ==>
              m[SmaSignal] == Text(SmaBuy) && m[VolumeAnalysis] == Text(HighVolume) && m[RsiSignal] != Text(RsiSell)
    ensures var m := AnalysisResults(prices, volumes, latestPrice, latestVolume, latestDate);
            m[TrendInformation] == Text(Downtrend) ==>
              m[SmaSignal] == Text(SmaSell) && m[VolumeAnalysis] == Text(LowVolume) && m[RsiSignal] != Text(RsiBuy)
  {
  }

  /** Because the RSI runs over the whole series, its `< 50` condition means
      the last close is below the first: an uptrend is reported only for a
      series that fell overall, and a downtrend only for one that rose. */
  lemma TrendAgainstNetMove(prices: seq<real>, volumes: seq<int>, latestPrice: real,
                            latestVolume: int, latestDate: string)
    requires |prices| >= 2 && |volumes| >= 1
    ensures var m := AnalysisResults(prices, volumes, latestPrice, latestVolume, latestDate);
            m[TrendInformation] == Text(Uptrend) ==> prices[|prices| - 1] < prices[0]
    ensures var m := AnalysisResults(prices, volumes, latestPrice, latestVolume, latestDate);
            m[TrendInformation] == Text(Downtrend) ==> prices[|prices| - 1] > prices[0]
  {
    RsiAgainstMidpoint(prices);
  }
}
