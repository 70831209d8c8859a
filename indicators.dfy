/** The indicator kernels that the stock-analysis services share: the simple
    moving average loop, the whole-series RSI loop, Fibonacci retracement
    levels, the integer average volume, and the signal labels derived from
    them. YahooFinanceService, StockAnalysisService and IEXCloudService
    carry verbatim copies of calculateRSI (and the first two of
    calculateSMA); each copy is modelled once, here. */
module Indicators {
  import opened Series
  import opened Report

  // ---------------------------------------------------------------------
  // Simple moving average

  /** What calculateSMA returns: 0 when fewer than `period` prices are
      known, otherwise the mean of the last `period` prices. */
  function Sma(prices: seq<real>, period: int): real
    requires period > 0
  {
    if |prices| < period then 0.0 else Mean(prices[|prices| - period..])
  }

  /** calculateSMA: one pass adding up the last `period` prices. */
  method CalculateSma(prices: seq<real>, period: int) returns (sma: real)
    requires period > 0
    ensures |prices| < period ==> sma == 0.0
    ensures |prices| >= period ==> sma == Mean(prices[|prices| - period..])
  {
    if |prices| < period {
      return 0.0;
    }
    var start := |prices| - period;
    var sum := 0.0;
    var i := start;
    while i < |prices|
      invariant start <= i <= |prices|
      invariant sum == Sum(prices[start..i])
    {
      assert prices[start..i + 1] == prices[start..i] + [prices[i]];
      SumSnoc(prices[start..i], prices[i]);
      sum := sum + prices[i];
      i := i + 1;
    }
    assert prices[start..i] == prices[start..];
    sma := sum / (period as real);
  }

  /** With enough history the SMA lies between the lowest and the highest
      price of its window. */
  lemma SmaWithinWindow(prices: seq<real>, period: int)
    requires 0 < period <= |prices|
    ensures Min(prices[|prices| - period..]) <= Sma(prices, period) <= Max(prices[|prices| - period..])
  {
    MeanBounds(prices[|prices| - period..]);
  }

  /** For positive prices the 0 sentinel is unambiguous: the SMA is 0
      exactly when the history is shorter than the period. */
  lemma SmaSentinel(prices: seq<real>, period: int)
    requires period > 0
    requires forall i :: 0 <= i < |prices| ==> prices[i] > 0.0
    ensures Sma(prices, period) == 0.0 <==> |prices| < period
  {
    if |prices| >= period {
      var w := prices[|prices| - period..];
      MeanBounds(w);
      assert Min(w) in w;
    }
  }

  // ---------------------------------------------------------------------
  // Relative strength index over the whole series

  /** What `gain += change` adds for one step (`change > 0`). */
  function Rise(previous: real, next: real): real
  {
    if next - previous > 0.0 then next - previous else 0.0
  }

  /** What `loss -= change` adds for one step (`change <= 0`). */
  function Fall(previous: real, next: real): real
  {
    if next - previous > 0.0 then 0.0 else previous - next
  }

  /** The total of the upward moves between consecutive closes. */
  function Gain(s: seq<real>): (g: real)
    ensures g >= 0.0
  {
    if |s| < 2 then 0.0 else Gain(s[..|s| - 1]) + Rise(s[|s| - 2], s[|s| - 1])
  }

  /** The total of the downward moves between consecutive closes. */
  function Loss(s: seq<real>): (l: real)
    ensures l >= 0.0
  {
    if |s| < 2 then 0.0 else Loss(s[..|s| - 1]) + Fall(s[|s| - 2], s[|s| - 1])
  }

  /** What calculateRSI returns, in closed form. When `loss > 0` the
      `/ prices.size()` factors cancel and 100 - 100 / (1 + rs) is
      100 * gain / (gain + loss). When `loss == 0` the `double` division
      gives rs = +Infinity if `gain > 0`, hence exactly 100, and 0 / 0 = NaN
      if `gain == 0` (a flat series, or fewer than two prices). */
  function RsiOf(prices: seq<real>): RsiReading
  {
    var gain, loss := Gain(prices), Loss(prices);
    if loss > 0.0 then Number(100.0 * gain / (gain + loss))
    else if gain > 0.0 then Number(100.0)
    else NaN
  }

  /** The cancellation between the averaged form the code evaluates and the
      closed form. */
  lemma RsiAlgebra(gain: real, loss: real, n: real)
    requires gain >= 0.0 && loss > 0.0 && n > 0.0
    ensures 100.0 - 100.0 / (1.0 + (gain / n) / (loss / n)) == 100.0 * gain / (gain + loss)
  {
    var total := gain + loss;
    var rs := (gain / n) / (loss / n);
    assert rs == gain / loss;
    assert rs * loss == gain;
    var w := 100.0 / (1.0 + rs);
    assert w * (1.0 + rs) == 100.0;
    assert (1.0 + rs) * loss == total;
    assert w * total == 100.0 * loss by {
      assert w * total == w * ((1.0 + rs) * loss) == (w * (1.0 + rs)) * loss;
    }
    var z := 100.0 * gain / total;
    assert z * total == 100.0 * gain;
    assert (100.0 - w) * total == 100.0 * gain;
    var e := z - (100.0 - w);
    assert e * total == 0.0;
    assert e == 0.0;
  }

  /** Comparing a quotient by a positive divisor with a bound. */
  lemma QuotientCompare(a: real, d: real, c: real)
    requires d > 0.0
    ensures a / d > c <==> a > c * d
    ensures a / d < c <==> a < c * d
  {
    var q := a / d;
    assert q * d == a;
    assert (q - c) * d == a - c * d;
  }

  /** calculateRSI: accumulates gains and losses over every consecutive
      pair, averages both over the number of prices, and applies
      100 - 100 / (1 + avgGain / avgLoss). */
  method CalculateRsi(prices: seq<real>) returns (rsi: RsiReading)
    ensures rsi == RsiOf(prices)
  {
    var gain, loss := 0.0, 0.0;
    var i := 1;
    while i < |prices|
      invariant 1 <= i
      invariant gain >= 0.0 && loss >= 0.0
      invariant i <= |prices| ==> gain == Gain(prices[..i]) && loss == Loss(prices[..i])
      invariant i > |prices| ==> i == 1 && gain == 0.0 && loss == 0.0
    {
      assert prices[..i + 1][..i] == prices[..i];
      var change := prices[i] - prices[i - 1];
      if change > 0.0 {
        gain := gain + change;
      } else {
        loss := loss - change;
      }
      i := i + 1;
    }
    assert |prices| > 0 ==> prices[..i] == prices;
    if loss > 0.0 {
      var n := |prices| as real;
      var avgGain := gain / n;
      var avgLoss := loss / n;
      var rs := avgGain / avgLoss;
      RsiAlgebra(gain, loss, n);
      rsi := Number(100.0 - 100.0 / (1.0 + rs));
    } else if gain > 0.0 {
      // avgLoss is 0.0, so rs is +Infinity and 100 - 100 / (1 + rs) is 100.
      rsi := Number(100.0);
    } else {
      // avgGain / avgLoss is 0.0 / 0.0.
      rsi := NaN;
    }
  }

  /** The gains and losses telescope: their difference is the net change
      from the first close to the last. */
  lemma {:induction false} GainMinusLoss(s: seq<real>)
    requires |s| >= 1
    ensures Gain(s) - Loss(s) == s[|s| - 1] - s[0]
  {
    if |s| >= 2 {
      var p := s[..|s| - 1];
      GainMinusLoss(p);
      assert p[0] == s[0] && p[|p| - 1] == s[|s| - 2];
    }
  }

  /** The RSI is a number in [0, 100], NaN only when there was neither gain
      nor loss; with some loss it lies in [0, 100) and is 0 exactly when
      there was no gain. */
  lemma RsiRange(prices: seq<real>)
    ensures RsiOf(prices).Number? ==> 0.0 <= RsiOf(prices).value <= 100.0
    ensures RsiOf(prices).NaN? <==> Gain(prices) == 0.0 && Loss(prices) == 0.0
    ensures Loss(prices) > 0.0 ==> RsiOf(prices).Number? && RsiOf(prices).value < 100.0
    ensures Loss(prices) > 0.0 ==> (RsiOf(prices).value == 0.0 <==> Gain(prices) == 0.0)
  {
    var g, l := Gain(prices), Loss(prices);
    if l > 0.0 {
      QuotientCompare(100.0 * g, g + l, 100.0);
      QuotientCompare(100.0 * g, g + l, 0.0);
    }
  }

  /** Over the whole series the RSI is above 50 exactly when the last close
      is above the first, and below 50 exactly when it is below. */
  lemma RsiAgainstMidpoint(prices: seq<real>)
    requires |prices| >= 1
    ensures Above(RsiOf(prices), 50.0) <==> prices[|prices| - 1] > prices[0]
    ensures Below(RsiOf(prices), 50.0) <==> prices[|prices| - 1] < prices[0]
  {
    GainMinusLoss(prices);
    var g, l := Gain(prices), Loss(prices);
    if l > 0.0 {
      QuotientCompare(100.0 * g, g + l, 50.0);
    }
  }

  /** Every close is at least the one before it. */
  ghost predicate NonDecreasing(s: seq<real>)
  {
    forall i :: 1 <= i < |s| ==> s[i - 1] <= s[i]
  }

  /** Every close is at most the one before it. */
  ghost predicate NonIncreasing(s: seq<real>)
  {
    forall i :: 1 <= i < |s| ==> s[i - 1] >= s[i]
  }

  lemma {:induction false} NoLossWhenNonDecreasing(s: seq<real>)
    requires NonDecreasing(s)
    ensures Loss(s) == 0.0
  {
    if |s| >= 2 {
      var p := s[..|s| - 1];
      assert NonDecreasing(p) by {
        forall i | 1 <= i < |p| ensures p[i - 1] <= p[i] {
          assert p[i - 1] == s[i - 1] && p[i] == s[i];
        }
      }
      NoLossWhenNonDecreasing(p);
    }
  }

  lemma {:induction false} NoGainWhenNonIncreasing(s: seq<real>)
    requires NonIncreasing(s)
    ensures Gain(s) == 0.0
  {
    if |s| >= 2 {
      var p := s[..|s| - 1];
      assert NonIncreasing(p) by {
        forall i | 1 <= i < |p| ensures p[i - 1] >= p[i] {
          assert p[i - 1] == s[i - 1] && p[i] == s[i];
        }
      }
      NoGainWhenNonIncreasing(p);
    }
  }

  /** A series that never falls and ends above where it began has RSI 100. */
  lemma RsiOfRisingSeries(prices: seq<real>)
    requires |prices| >= 2
    requires NonDecreasing(prices)
    requires prices[|prices| - 1] > prices[0]
    ensures RsiOf(prices) == Number(100.0)
  {
    NoLossWhenNonDecreasing(prices);
    GainMinusLoss(prices);
  }

  /** A series that never rises and ends below where it began has RSI 0. */
  lemma RsiOfFallingSeries(prices: seq<real>)
    requires |prices| >= 2
    requires NonIncreasing(prices)
    requires prices[|prices| - 1] < prices[0]
    ensures RsiOf(prices) == Number(0.0)
  {
    NoGainWhenNonIncreasing(prices);
    GainMinusLoss(prices);
  }

  /** A flat series makes the RSI formula divide 0 by 0. */
  lemma RsiOfFlatSeries(prices: seq<real>)
    requires forall i :: 0 <= i < |prices| ==> prices[i] == prices[0]
    ensures RsiOf(prices) == NaN
  {
    NoLossWhenNonDecreasing(prices);
    NoGainWhenNonIncreasing(prices);
  }

  // ---------------------------------------------------------------------
  // Signals shared by YahooFinanceService and IEXCloudService

  /** `shortTermSMA > longTermSMA ? Buy : Sell`. */
  function SmaAdvice(shortTermSma: real, longTermSma: real): Advice
  {
    if shortTermSma > longTermSma then SmaBuy else SmaSell
  }

  /** `rsi < 30 ? Buy : rsi > 70 ? Sell : Neutral`. */
  function RsiAdvice(rsi: RsiReading): Advice
  {
    if Below(rsi, 30.0) then RsiBuy else if Above(rsi, 70.0) then RsiSell else RsiNeutral
  }

  /** The SMA signal is binary: Buy exactly when the short average is above
      the long one, Sell otherwise, equality included. */
  lemma SmaAdviceIsBinary(shortTermSma: real, longTermSma: real)
    ensures SmaAdvice(shortTermSma, longTermSma) in {SmaBuy, SmaSell}
    ensures SmaAdvice(shortTermSma, longTermSma) == SmaBuy <==> shortTermSma > longTermSma
    ensures SmaAdvice(shortTermSma, longTermSma) == SmaSell <==> shortTermSma <= longTermSma
  {
  }

  /** The RSI signal is exhaustive and exclusive: Buy below 30, Sell above
      70, Neutral in [30, 70] and for NaN. */
  lemma RsiAdviceClassification(rsi: RsiReading)
    ensures RsiAdvice(rsi) in {RsiBuy, RsiSell, RsiNeutral}
    ensures RsiAdvice(rsi) == RsiBuy <==> rsi.Number? && rsi.value < 30.0
    ensures RsiAdvice(rsi) == RsiSell <==> rsi.Number? && rsi.value > 70.0
    ensures RsiAdvice(rsi) == RsiNeutral <==> rsi.NaN? || 30.0 <= rsi.value <= 70.0
  {
  }

  // ---------------------------------------------------------------------
  // Fibonacci retracement

  const FiveRatios: set<Ratio> := {R236, R382, R500, R618, R786}
  const FourRatios: set<Ratio> := {R236, R382, R500, R618}

  /** `maxPrice - (diff * r)` with `diff = maxPrice - minPrice`. */
  function Level(maxPrice: real, minPrice: real, r: Ratio): real
  {
    maxPrice - (maxPrice - minPrice) * r.Value()
  }

  /** The Map.of of levels, one entry per ratio. */
  function RetracementLevels(maxPrice: real, minPrice: real, ratios: set<Ratio>): (m: map<Ratio, real>)
    ensures m.Keys == ratios
  {
    map r | r in ratios :: Level(maxPrice, minPrice, r)
  }

  /** Every level lies in [minPrice, maxPrice]. */
  lemma LevelWithinRange(maxPrice: real, minPrice: real, r: Ratio)
    requires minPrice <= maxPrice
    ensures minPrice <= Level(maxPrice, minPrice, r) <= maxPrice
  {
    var d, v := maxPrice - minPrice, r.Value();
    assert 0.0 <= d * v <= d;
  }

  /** The levels fall as the ratio grows, strictly when maxPrice > minPrice,
      and all equal maxPrice when the two are equal. */
  lemma LevelsDecrease(maxPrice: real, minPrice: real, r1: Ratio, r2: Ratio)
    requires minPrice <= maxPrice
    requires r1.Value() <= r2.Value()
    ensures Level(maxPrice, minPrice, r2) <= Level(maxPrice, minPrice, r1)
    ensures maxPrice > minPrice && r1.Value() < r2.Value() ==>
              Level(maxPrice, minPrice, r2) < Level(maxPrice, minPrice, r1)
    ensures maxPrice == minPrice ==> Level(maxPrice, minPrice, r1) == maxPrice
  {
    var d, v1, v2 := maxPrice - minPrice, r1.Value(), r2.Value();
    assert d * v1 <= d * v2;
    assert d > 0.0 && v1 < v2 ==> d * v1 < d * v2;
  }

  /** The five levels in ratio order: maxPrice >= 23.6% >= 38.2% >= 50.0% >=
      61.8% >= 78.6% >= minPrice, strictly when maxPrice > minPrice, and
      all equal to maxPrice when the range is flat. */
  lemma LevelLadder(maxPrice: real, minPrice: real)
    requires minPrice <= maxPrice
    ensures maxPrice >= Level(maxPrice, minPrice, R236) >= Level(maxPrice, minPrice, R382)
    ensures Level(maxPrice, minPrice, R382) >= Level(maxPrice, minPrice, R500) >= Level(maxPrice, minPrice, R618)
    ensures Level(maxPrice, minPrice, R618) >= Level(maxPrice, minPrice, R786) >= minPrice
    ensures maxPrice > minPrice ==>
              && Level(maxPrice, minPrice, R236) > Level(maxPrice, minPrice, R382) > Level(maxPrice, minPrice, R500)
              && Level(maxPrice, minPrice, R500) > Level(maxPrice, minPrice, R618) > Level(maxPrice, minPrice, R786)
    ensures maxPrice == minPrice ==> forall r: Ratio :: Level(maxPrice, minPrice, r) == maxPrice
  {
  }

  /** The 50.0% level is the midpoint of the range. */
  lemma MidpointLevel(maxPrice: real, minPrice: real)
    ensures Level(maxPrice, minPrice, R500) == (maxPrice + minPrice) / 2.0
  {
  }

  // ---------------------------------------------------------------------
  // Volume

  /** calculateAverageVolume: LongStream.sum divided by the count in `long`
      arithmetic. */
  function AverageVolume(volumes: seq<int>): int
    requires |volumes| > 0
  {
    JavaDivide(LongSum(volumes), |volumes|)
  }

  /** `latestVolume > averageVolume ? High : Low`. */
  function VolumeAdvice(latestVolume: int, averageVolume: int): Advice
  {
    if latestVolume > averageVolume then HighVolume else LowVolume
  }

  /** For non-negative volumes whose total fits in a `long`, the average is
      the floored mean. */
  lemma AverageVolumeIsFlooredMean(volumes: seq<int>)
    requires |volumes| > 0
    requires forall i :: 0 <= i < |volumes| ==> volumes[i] >= 0
    requires IntSum(volumes) <= LongMax
    ensures AverageVolume(volumes) * |volumes| <= IntSum(volumes) < (AverageVolume(volumes) + 1) * |volumes|
  {
    LongSumIsExact(volumes);
    IntSumNonNegative(volumes);
  }

  /** Comparing a volume with the floored mean is comparing it with the
      exact mean: High exactly when latest * n exceeds the total. */
  lemma AboveAverageVolume(latestVolume: int, volumes: seq<int>)
    requires |volumes| > 0
    requires forall i :: 0 <= i < |volumes| ==> volumes[i] >= 0
    requires IntSum(volumes) <= LongMax
    ensures VolumeAdvice(latestVolume, AverageVolume(volumes)) == HighVolume <==>
              latestVolume * |volumes| > IntSum(volumes)
  {
    AverageVolumeIsFlooredMean(volumes);
    var a, n := AverageVolume(volumes), |volumes|;
    if latestVolume > a {
      MultiplyMonotone(a + 1, latestVolume, n);
    } else {
      MultiplyMonotone(latestVolume, a, n);
    }
  }

  lemma MultiplyMonotone(x: int, y: int, n: nat)
    requires x <= y
    ensures x * n <= y * n
  {
    assert y * n - x * n == (y - x) * n;
  }
}
