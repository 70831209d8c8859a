/** The vocabulary of the analysis result maps that the stock-analysis
    services return: the keys they put, the kinds of value stored under
    them, the advisory messages, and the Java exceptions that abort an
    analysis. */
module Report {

  /** The exceptions the analysis code can raise on short input. */
  datatype JavaException =
    | NoSuchElement     // Collections.max / Collections.min on an empty list
    | IndexOutOfBounds  // List.get with an index outside the list
    | Arithmetic        // `long` division by zero

  /** A computation that either returns a value or throws. */
  datatype Outcome<+T> = Success(value: T) | Failure(error: JavaException)

  /** OptionalDouble, as returned by DoubleStream.average. */
  datatype Option<+T> = None | Some(value: T)

  /** The `double` the RSI formula yields: a number, or NaN when the formula
      divides zero by zero. Every comparison with NaN is false. */
  datatype RsiReading = Number(value: real) | NaN

  /** `rsi < bound`, false for NaN. */
  predicate Below(r: RsiReading, bound: real) { r.Number? && r.value < bound }

  /** `rsi > bound`, false for NaN. */
  predicate Above(r: RsiReading, bound: real) { r.Number? && r.value > bound }

  /** The Fibonacci ratios under the keys "23.6%" ... "78.6%". */
  datatype Ratio = R236 | R382 | R500 | R618 | R786
  {
    function Value(): (v: real)
      ensures 0.0 < v < 1.0
    {
      match this
      case R236 => 0.236
      case R382 => 0.382
      case R500 => 0.500
      case R618 => 0.618
      case R786 => 0.786
    }
  }

  /** The advisory texts the services store. The same meaning is worded a
      little differently from service to service; each constructor stands
      for all wordings of that meaning. */
  datatype Advice =
    | SmaBuy | SmaSell                                  // "Buy Signal: Short-Term SMA ..." / "Sell Signal: ..."
    | RsiBuy | RsiSell | RsiNeutral                     // oversold / overbought / balanced
    | Hammer | ShootingStar | Doji                      // candlestick labels
    | HighVolume | LowVolume                            // volume analysis
    | Uptrend | Downtrend | NeutralTrend                // trend information
    | PositiveMomentum | NegativeMomentum | NeutralMomentum
    | AdvisableToBuy | NotAdvisableToBuy | NeutralPrice // today decision

  /** The keys of the result maps ("Short-Term SMA", "Long-Term SMA", ...). */
  datatype Key =
    | ShortTermSma | LongTermSma | SmaSignal
    | Rsi | RsiSignal
    | FibonacciLevels | MaxPrice | MinPrice
    | CandlestickPattern
    | OptimalBuyPrice | OptimalSellPrice
    | CurrentPrice
    | VolumeAnalysis
    | TrendInformation
    | Momentum
    | TodayDecision

  /** The values stored under the keys. */
  datatype Value =
    | Num(x: real)                          // a Double
    | Oscillator(reading: RsiReading)       // the RSI Double, possibly NaN
    | Fib(levels: map<Ratio, real>)         // the Map.of of Fibonacci levels
    | Dated(price: real, date: string)      // latestPrice + " (" + latestDate + ")"
    | Text(advice: Advice)                  // an advisory String
}
