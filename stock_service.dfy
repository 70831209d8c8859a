/** StockService.performFibonacciAnalysis: the range of a price list and four
    Fibonacci retracement levels in it. */
module StockService {
  import opened Series
  import opened Report
  import opened Indicators

  /** The immutable Map.of the analysis returns: "maxPrice", "minPrice" and
      "fibonacciLevels", and nothing else. */
  datatype FibonacciAnalysis = FibonacciAnalysis(maxPrice: real, minPrice: real, fibonacciLevels: map<Ratio, real>)

  /** performFibonacciAnalysis: Collections.max and Collections.min of the
      prices (both throw NoSuchElementException on an empty list) and the
      levels `maxPrice - diff * r` for r in {0.236, 0.382, 0.5, 0.618}. */
  function PerformFibonacciAnalysis(prices: seq<real>): (r: Outcome<FibonacciAnalysis>)
    ensures r.Failure? <==> |prices| == 0
    ensures r.Failure? ==> r.error == NoSuchElement
    ensures r.Success? ==>
              && r.value.minPrice <= r.value.maxPrice
              && r.value.maxPrice in prices && r.value.minPrice in prices
              && (forall i :: 0 <= i < |prices| ==> r.value.minPrice <= prices[i] <= r.value.maxPrice)
              && r.value.fibonacciLevels.Keys == FourRatios
  {
    if |prices| == 0 then Failure(NoSuchElement)
    else
      var maxPrice := Max(prices);
      var minPrice := Min(prices);
      Success(FibonacciAnalysis(maxPrice, minPrice, RetracementLevels(maxPrice, minPrice, FourRatios)))
  }

  /** Every level lies in [minPrice, maxPrice]; 23.6% >= 38.2% >= 50.0% >=
      61.8%, strictly when the prices are not all equal, and all equal
      maxPrice when they are; the 50.0% level is the midpoint. */
  lemma LevelsOrdered(prices: seq<real>)
    requires |prices| > 0
    ensures var a := PerformFibonacciAnalysis(prices).value;
            var levels := a.fibonacciLevels;
            && (forall r :: r in levels ==> a.minPrice <= levels[r] <= a.maxPrice)
            && levels[R236] >= levels[R382] >= levels[R500] >= levels[R618]
            && (a.maxPrice > a.minPrice ==> levels[R236] > levels[R382] > levels[R500] > levels[R618])
            && (a.maxPrice == a.minPrice ==> forall r :: r in levels ==> levels[r] == a.maxPrice)
            && levels[R500] == (a.maxPrice + a.minPrice) / 2.0
  {
    var maxPrice, minPrice := Max(prices), Min(prices);
    forall r: Ratio ensures minPrice <= Level(maxPrice, minPrice, r) <= maxPrice {
      LevelWithinRange(maxPrice, minPrice, r);
    }
    LevelLadder(maxPrice, minPrice);
  }

  /** A list of one repeated price has that price as its range and as every
      level. */
  lemma FlatPricesCollapse(prices: seq<real>, p: real)
    requires |prices| > 0
    requires forall i :: 0 <= i < |prices| ==> prices[i] == p
    ensures var a := PerformFibonacciAnalysis(prices).value;
            && a.maxPrice == p && a.minPrice == p
            && forall r :: r in a.fibonacciLevels ==> a.fibonacciLevels[r] == p
  {
    var a := PerformFibonacciAnalysis(prices).value;
    assert a.maxPrice in prices && a.minPrice in prices;
    LevelsOrdered(prices);
  }
}
