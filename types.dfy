/** The records the trading engine passes around (the interfaces at the top of
    src/dataCollection/tradingEngine.ts). */
module Types {
  import opened Common

  /** One OHLCV bar; `timestamp` is the bar-open instant in Unix seconds. */
  datatype Candle = Candle(timestamp: int, open: real, high: real, low: real, close: real, volume: real)

  /** The result of the MACD computation. When there are too few closes the engine returns an
      object without `shortEma` and `longEma`, so those two are optional. */
  datatype MacdLine = MacdLine(macd: real, signal: real, histogram: real, shortEma: Option<real>, longEma: Option<real>)

  /** The per-symbol indicator snapshot, replaced wholesale on every closed bar. */
  datatype Indicators = Indicators(
    currentRsi: real,
    previousRsi: real,
    macd: MacdLine,
    volumeSpike: bool,
    sma: real,
    volatilitySpike: bool,
    atr: real)

  /** An open position. The source also keeps an `order` record that repeats the entry price
      and the quantity; it is read nowhere and is not modelled. `entryTime` is a clock reading. */
  datatype Position = Position(entryPrice: real, quantity: real, strategy: string, entryTime: int, peakPrice: real)

  /** Timestamps strictly increase along a candle history. */
  predicate Chronological(cs: seq<Candle>) {
    forall i, j :: 0 <= i < j < |cs| ==> cs[i].timestamp < cs[j].timestamp
  }
}
