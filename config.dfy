/** The strategy configuration (src/config/tradingConfigurations.ts). `tradeOnKraken`,
    `paperTrade` and `tradeBalance` are read by the engine but missing from the declared
    interface and from every preset; they are added here. */
module TradingConfigs {
  import opened Common

  datatype TradingConfig = TradingConfig(
    strategyType: string,
    rsiThreshold: real,
    macdCrossNeeded: bool,
    allowVolumeSpikes: bool,
    dynamicStopLoss: bool,
    stopLossPct: real,
    takeProfitPct: real,
    intervalMinutes: nat,
    rsiPeriod: nat,
    longEmaPeriod: nat,
    shortEmaPeriod: nat,
    signalEmaPeriod: nat,
    volumeSpikeBarCount: nat,
    volumeSpikeFactor: real,
    volatilityLookback: nat,
    maxPositionSize: real,
    maxPositions: int,
    maxVolatility: real,
    minAtrPercent: real,
    volatilityThreshold: real,
    maxHoldTimeMinutes: real,
    minHoldTimeMinutes: real,
    adjustHoldTimeWithVolatility: bool,
    minimumRequiredCandles: nat,
    maxAtrPercent: Option<real>,
    portfolioId: int,
    tradeOnKraken: bool,
    paperTrade: bool,
    tradeBalance: real)

  /** The configurations for which the engine's arithmetic never divides by zero: every
      period and lookback is positive, there are at least two candles before indicators are
      computed (ATR averages the true ranges of consecutive pairs), and the stop-loss
      percentage and volatility cap used in position sizing are positive. Every preset in
      the configuration file satisfies it. */
  predicate ValidConfig(c: TradingConfig) {
    && c.rsiPeriod > 0
    && c.shortEmaPeriod > 0
    && c.longEmaPeriod > 0
    && c.signalEmaPeriod > 0
    && c.volumeSpikeBarCount > 0
    && c.volatilityLookback > 0
    && c.minimumRequiredCandles >= 2
    && c.stopLossPct > 0.0
    && c.maxVolatility > 0.0
  }

  /** How many closed candles a symbol's buffer keeps. */
  function Capacity(c: TradingConfig): (r: nat)
    ensures r >= 4 * c.longEmaPeriod && r >= c.minimumRequiredCandles
    ensures r == 4 * c.longEmaPeriod || r == c.minimumRequiredCandles
  {
    if 4 * c.longEmaPeriod >= c.minimumRequiredCandles then 4 * c.longEmaPeriod else c.minimumRequiredCandles
  }

  /** The mean-reversion preset. The preset leaves `tradeOnKraken` and `paperTrade`
      undefined, which reads as false; `tradeBalance` is undefined too and is given an
      arbitrary value here. */
  function MeanReversionPreset(): TradingConfig {
    TradingConfig(
      "meanReversion", 25.0, true, true, false, 3.0, 6.0, 5, 14, 26, 12, 9, 20, 2.0, 20,
      0.05, 5, 3.0, 0.8, 2.0, 240.0, 5.0, true, 26, None, 4, false, false, 10000.0)
  }

  /** Every denominator the configuration feeds into the engine is positive for the
      mean-reversion preset, and its buffers hold 104 candles. */
  lemma MeanReversionPresetIsValid()
    ensures ValidConfig(MeanReversionPreset()) && Capacity(MeanReversionPreset()) == 104
  {
  }
}
