/** The entry rules (src/exitsEntries/enter.ts): a dispatch on the configured strategy kind to
    one of four predicates, each returning a decision and a reason.

    The rules compare `indicator.rsi` with numbers, but the engine's snapshot holds the RSI as a
    record `{currentRsi, previousRsi}`; a JavaScript comparison of that record with a number
    converts the record to NaN and is always false. The rules therefore take the RSI operand
    as an `RsiOperand`: the record as the source passes it, or a plain number as intended. */
module Entries {
  import opened Common
  import opened Types
  import opened TradingConfigs

  datatype EntrySignal = EntrySignal(shouldEnter: bool, reason: string)

  /** The left operand of the rules' RSI comparisons. */
  datatype RsiOperand = Plain(value: real) | RsiRecord(currentRsi: real, previousRsi: real)

  /** `rsi < bound`: false for the record, whose numeric conversion is NaN. */
  predicate Below(rsi: RsiOperand, bound: real) {
    rsi.Plain? && rsi.value < bound
  }

  /** `rsi > bound`: false for the record, whose numeric conversion is NaN. */
  predicate Above(rsi: RsiOperand, bound: real) {
    rsi.Plain? && rsi.value > bound
  }

  /** ATR as a percentage of the price. */
  function AtrPercent(atr: real, price: real): real
    requires price != 0.0
  {
    atr / price * 100.0
  }

  /** `meanReversionEntry`. */
  function MeanReversionEntry(rsi: RsiOperand, ind: Indicators, config: TradingConfig): (r: EntrySignal)
    ensures r.shouldEnter <==>
      && rsi.Plain? && rsi.value < config.rsiThreshold
      && (!config.macdCrossNeeded || (ind.macd.macd > ind.macd.signal && ind.macd.histogram > 0.0))
      && (!config.allowVolumeSpikes || ind.volumeSpike)
    ensures !r.shouldEnter ==> r.reason == "Mean reversion conditions not met"
  {
    if Below(rsi, config.rsiThreshold) then
      if !config.macdCrossNeeded || (ind.macd.macd > ind.macd.signal && ind.macd.histogram > 0.0) then
        if !config.allowVolumeSpikes || ind.volumeSpike then
          EntrySignal(true, "Mean reversion entry: RSI oversold, MACD crossing up")
        else EntrySignal(false, "Mean reversion conditions not met")
      else EntrySignal(false, "Mean reversion conditions not met")
    else EntrySignal(false, "Mean reversion conditions not met")
  }

  /** `trendFollowingEntry`. Despite its comment ("not in high volatility") the rule demands a
      volatility spike. */
  function TrendFollowingEntry(rsi: RsiOperand, ind: Indicators, config: TradingConfig): (r: EntrySignal)
    ensures r.shouldEnter <==>
      && rsi.Plain? && config.rsiThreshold < rsi.value < 70.0
      && ind.macd.macd > ind.macd.signal && ind.macd.histogram > 0.0 && ind.macd.macd > 0.0
      && ind.volatilitySpike
    ensures !r.shouldEnter ==> r.reason == "Trend following conditions not met"
  {
    if Above(rsi, config.rsiThreshold) && Below(rsi, 70.0) then
      if ind.macd.macd > ind.macd.signal && ind.macd.histogram > 0.0 && ind.macd.macd > 0.0 then
        if ind.volatilitySpike then
          EntrySignal(true, "Trend following entry: MACD trending up")
        else EntrySignal(false, "Trend following conditions not met")
      else EntrySignal(false, "Trend following conditions not met")
    else EntrySignal(false, "Trend following conditions not met")
  }

  /** `scalpingEntry`: the ATR band (0.1 %, 1.0 %) is fixed and open at both ends. */
  function ScalpingEntry(rsi: RsiOperand, ind: Indicators, config: TradingConfig, price: real): (r: EntrySignal)
    requires price != 0.0
    ensures r.shouldEnter <==>
      && rsi.Plain? && config.rsiThreshold < rsi.value < 75.0
      && ind.macd.macd > ind.macd.signal
      && ind.volumeSpike
      && 0.1 < AtrPercent(ind.atr, price) < 1.0
    ensures !r.shouldEnter ==> r.reason == "Scalping conditions not met"
  {
    if Above(rsi, config.rsiThreshold) && Below(rsi, 75.0) then
      if ind.macd.macd > ind.macd.signal then
        if ind.volumeSpike then
          var atrPercent := AtrPercent(ind.atr, price);
          if atrPercent > 0.1 && atrPercent < 1.0 then
            EntrySignal(true, "Scalp entry: Volume spike confirmed")
          else EntrySignal(false, "Scalping conditions not met")
        else EntrySignal(false, "Scalping conditions not met")
      else EntrySignal(false, "Scalping conditions not met")
    else EntrySignal(false, "Scalping conditions not met")
  }

  /** `volatilityBreakoutEntry`. */
  function VolatilityBreakoutEntry(rsi: RsiOperand, ind: Indicators, config: TradingConfig, price: real): (r: EntrySignal)
    requires price != 0.0
    ensures r.shouldEnter <==>
      && ind.volumeSpike && ind.volatilitySpike
      && rsi.Plain? && 40.0 < rsi.value < 60.0
      && AtrPercent(ind.atr, price) > config.minAtrPercent
    ensures !r.shouldEnter ==> r.reason == "Volatility breakout conditions not met"
  {
    if ind.volumeSpike && ind.volatilitySpike then
      if Above(rsi, 40.0) && Below(rsi, 60.0) then
        if AtrPercent(ind.atr, price) > config.minAtrPercent then
          EntrySignal(true, "Volatility breakout: Volume confirmed")
        else EntrySignal(false, "Volatility breakout conditions not met")
      else EntrySignal(false, "Volatility breakout conditions not met")
    else EntrySignal(false, "Volatility breakout conditions not met")
  }

  /** `config.strategyType || 'meanReversion'`: the empty string is falsy. */
  function EffectiveStrategy(strategyType: string): (r: string)
    ensures strategyType == "" ==> r == "meanReversion"
    ensures strategyType != "" ==> r == strategyType
  {
    if strategyType == "" then "meanReversion" else strategyType
  }

  /** `entranceStrategy`: dispatch on the strategy kind; an unknown kind never enters. */
  function EntranceStrategy(rsi: RsiOperand, ind: Indicators, config: TradingConfig, price: real): (r: EntrySignal)
    requires price != 0.0
    ensures match EffectiveStrategy(config.strategyType)
      case "meanReversion" => r == MeanReversionEntry(rsi, ind, config)
      case "trendFollowing" => r == TrendFollowingEntry(rsi, ind, config)
      case "scalping" => r == ScalpingEntry(rsi, ind, config, price)
      case "volatilityBreakout" => r == VolatilityBreakoutEntry(rsi, ind, config, price)
      case _ => r == EntrySignal(false, "No valid strategy type specified")
  {
    match EffectiveStrategy(config.strategyType)
    case "meanReversion" => MeanReversionEntry(rsi, ind, config)
    case "trendFollowing" => TrendFollowingEntry(rsi, ind, config)
    case "scalping" => ScalpingEntry(rsi, ind, config, price)
    case "volatilityBreakout" => VolatilityBreakoutEntry(rsi, ind, config, price)
    case _ => EntrySignal(false, "No valid strategy type specified")
  }

  /** `analyzeEntry`: only the decision of `entranceStrategy`, as a bare boolean. */
  function AnalyzeEntry(rsi: RsiOperand, ind: Indicators, config: TradingConfig, price: real): (r: bool)
    requires price != 0.0
    ensures r == EntranceStrategy(rsi, ind, config, price).shouldEnter
  {
    EntranceStrategy(rsi, ind, config, price).shouldEnter
  }

  /** The two defaults of the dispatch: an empty strategy kind is mean reversion, and a kind
      none of the four rules knows never enters, with its own reason. */
  lemma DispatchDefaults(rsi: RsiOperand, ind: Indicators, config: TradingConfig, price: real)
    requires price != 0.0
    ensures config.strategyType == "" ==> EntranceStrategy(rsi, ind, config, price) == MeanReversionEntry(rsi, ind, config)
    ensures config.strategyType !in {"", "meanReversion", "trendFollowing", "scalping", "volatilityBreakout"} ==>
      && EntranceStrategy(rsi, ind, config, price) == EntrySignal(false, "No valid strategy type specified")
      && !AnalyzeEntry(rsi, ind, config, price)
  {
  }

  /** Whatever the strategy, a rejection carries one of the five fixed reasons. */
  lemma RejectionReasons(rsi: RsiOperand, ind: Indicators, config: TradingConfig, price: real)
    requires price != 0.0
    ensures var r := EntranceStrategy(rsi, ind, config, price);
      !r.shouldEnter ==> r.reason in {
        "Mean reversion conditions not met", "Trend following conditions not met",
        "Scalping conditions not met", "Volatility breakout conditions not met",
        "No valid strategy type specified"}
  {
  }

  /** With the same configuration and RSI, mean reversion (RSI below the threshold) and trend
      following or scalping (RSI above it) never both enter. */
  lemma MeanReversionExcludesMomentum(rsi: RsiOperand, ind: Indicators, config: TradingConfig, price: real)
    requires price != 0.0
    ensures !(MeanReversionEntry(rsi, ind, config).shouldEnter && TrendFollowingEntry(rsi, ind, config).shouldEnter)
    ensures !(MeanReversionEntry(rsi, ind, config).shouldEnter && ScalpingEntry(rsi, ind, config, price).shouldEnter)
  {
  }

  /** As written, every rule receives the RSI record, so no strategy ever enters. */
  lemma RecordRsiNeverEnters(ind: Indicators, config: TradingConfig, price: real)
    requires price != 0.0
    ensures !AnalyzeEntry(RsiRecord(ind.currentRsi, ind.previousRsi), ind, config, price)
  {
  }

  /** With the RSI passed as a number the mean-reversion rule does fire: an RSI of 20 under the
      mean-reversion preset's threshold of 25, with the MACD crossing up and a volume spike. */
  lemma PlainRsiCanEnter()
    ensures var ind := Indicators(20.0, 22.0, MacdLine(0.5, 0.2, 0.3, Some(10.2), Some(9.7)), true, 10.0, false, 0.1);
      && AnalyzeEntry(Plain(ind.currentRsi), ind, MeanReversionPreset(), 10.0)
      && !AnalyzeEntry(RsiRecord(ind.currentRsi, ind.previousRsi), ind, MeanReversionPreset(), 10.0)
  {
  }
}
