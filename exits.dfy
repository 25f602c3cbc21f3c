/** The exit rules (src/exitsEntries/exits.ts): a first-match chain of guards, and two hold-time
    helpers that the chain does not use. */
module Exits {
  import opened Common
  import opened Types
  import opened TradingConfigs

  datatype ExitSignal = ExitSignal(shouldExit: bool, reason: string)

  /** The trailing stop sits 2 × ATR% below the peak: peak · (1 − 2·(atr/price·100)/100). */
  function TrailingStopPrice(peak: real, atr: real, price: real): real
    requires price != 0.0
  {
    peak * (1.0 - 2.0 * (atr / price * 100.0) / 100.0)
  }

  /** A truthy peak price was given and the price closed below the trailing stop. */
  predicate TrailingStopHit(price: real, atr: real, peak: Option<real>)
    requires price != 0.0
  {
    Truthy(peak) && price < TrailingStopPrice(peak.value, atr, price)
  }

  /** `shortEma < longEma`; when either is missing (the zeroed MACD result) JavaScript compares
      `undefined` and the answer is false. */
  predicate EmaCrossDown(m: MacdLine) {
    m.shortEma.Some? && m.longEma.Some? && m.shortEma.value < m.longEma.value
  }

  /** The price closed below entry − stopLossPct × ATR. */
  predicate InitialStopHit(position: Position, config: TradingConfig, price: real, atr: real) {
    price < position.entryPrice - config.stopLossPct * atr
  }

  /** `analyzeExit`. */
  function AnalyzeExit(position: Position, ind: Indicators, config: TradingConfig, price: Option<real>, peak: Option<real>): (r: ExitSignal)
    ensures !Truthy(price) ==> r == ExitSignal(false, "No recent close price")
    ensures Truthy(price) && ind.atr <= 0.0 ==> r == ExitSignal(false, "ATR not valid")
    ensures r.shouldExit <==>
      Truthy(price) && ind.atr > 0.0 &&
      (TrailingStopHit(price.value, ind.atr, peak) || EmaCrossDown(ind.macd) || InitialStopHit(position, config, price.value, ind.atr))
    ensures r.shouldExit && TrailingStopHit(price.value, ind.atr, peak) ==> r.reason == "trailingStopHit"
    ensures r.shouldExit && !TrailingStopHit(price.value, ind.atr, peak) && EmaCrossDown(ind.macd) ==> r.reason == "emaCrossExit"
    ensures r.shouldExit && !TrailingStopHit(price.value, ind.atr, peak) && !EmaCrossDown(ind.macd) ==> r.reason == "maxInitialStopHit"
    ensures Truthy(price) && ind.atr > 0.0 && !r.shouldExit ==> r.reason == "No signals to exit"
  {
    if !Truthy(price) then ExitSignal(false, "No recent close price")
    else
      var p := price.value;
      var atrValue := ind.atr;
      if atrValue == 0.0 || atrValue <= 0.0 then ExitSignal(false, "ATR not valid")
      else if Truthy(peak) && p < TrailingStopPrice(peak.value, atrValue, p) then ExitSignal(true, "trailingStopHit")
      else if EmaCrossDown(ind.macd) then ExitSignal(true, "emaCrossExit")
      else if p < position.entryPrice - config.stopLossPct * atrValue then ExitSignal(true, "maxInitialStopHit")
      else ExitSignal(false, "No signals to exit")
  }

  /** With a positive price at or above a positive peak and a positive ATR, the trailing stop
      cannot fire: the stop lies strictly below the peak. */
  lemma NoTrailingStopAtPeak(price: real, atr: real, peak: real)
    requires price > 0.0 && atr > 0.0 && peak > 0.0 && price >= peak
    ensures !TrailingStopHit(price, atr, Some(peak))
  {
    var q := atr / price;
    assert q > 0.0;
    assert TrailingStopPrice(peak, atr, price) == peak - peak * (2.0 * q);
    assert peak * (2.0 * q) > 0.0;
  }

  /** `adjustHoldTimeWithProfit`: ×1.5 above 3 % profit, ×0.7 when the profit is positive but
      below 1 % plus the 0.8 % fee estimate, unchanged otherwise. */
  function AdjustHoldTimeWithProfit(baseHoldTime: real, pnlPercentage: real): real {
    var estimatedFees := 0.8;
    if pnlPercentage > 3.0 then baseHoldTime * 1.5
    else if pnlPercentage > 0.0 && pnlPercentage < 1.0 + estimatedFees then baseHoldTime * 0.7
    else baseHoldTime
  }

  /** The profit-adjusted hold time is one of base, 0.7·base and 1.5·base, chosen by the
      profit band; for a non-negative base it stays within [0.7·base, 1.5·base]. */
  lemma HoldTimeByProfit(baseHoldTime: real, pnlPercentage: real)
    ensures pnlPercentage > 3.0 ==> AdjustHoldTimeWithProfit(baseHoldTime, pnlPercentage) == 1.5 * baseHoldTime
    ensures 0.0 < pnlPercentage < 1.8 ==> AdjustHoldTimeWithProfit(baseHoldTime, pnlPercentage) == 0.7 * baseHoldTime
    ensures (pnlPercentage <= 0.0 || 1.8 <= pnlPercentage <= 3.0) ==> AdjustHoldTimeWithProfit(baseHoldTime, pnlPercentage) == baseHoldTime
    ensures baseHoldTime >= 0.0 ==>
      0.7 * baseHoldTime <= AdjustHoldTimeWithProfit(baseHoldTime, pnlPercentage) <= 1.5 * baseHoldTime
  {
  }

  /** The product of the three hold-time factors of `getDynamicMaxHoldTime`. */
  function HoldTimeMultiplier(ind: Indicators): real {
    var afterVolatility := if ind.volatilitySpike then 0.7 else 1.0;
    var afterTrend := if Abs(ind.macd.macd) > Abs(ind.macd.signal) * 2.0 then afterVolatility * 1.3 else afterVolatility;
    if !ind.volumeSpike then afterTrend * 0.9 else afterTrend
  }

  /** `getDynamicMaxHoldTime`: the base hold time scaled by the multiplier, rounded down. */
  function GetDynamicMaxHoldTime(baseHoldTime: real, ind: Indicators): int {
    (baseHoldTime * HoldTimeMultiplier(ind)).Floor
  }

  /** The multiplier is 0.7 if there is a volatility spike, times 1.3 if |macd| > 2·|signal|,
      times 0.9 if there is no volume spike; so it lies in [0.63, 1.3], and the hold time
      exceeds the base only in a strong trend. */
  lemma DynamicHoldTimeBounds(baseHoldTime: real, ind: Indicators)
    ensures HoldTimeMultiplier(ind) ==
      (if ind.volatilitySpike then 0.7 else 1.0)
      * (if Abs(ind.macd.macd) > 2.0 * Abs(ind.macd.signal) then 1.3 else 1.0)
      * (if ind.volumeSpike then 1.0 else 0.9)
    ensures 0.63 <= HoldTimeMultiplier(ind) <= 1.3
    ensures baseHoldTime >= 0.0 ==>
      (0.63 * baseHoldTime).Floor <= GetDynamicMaxHoldTime(baseHoldTime, ind) <= (1.3 * baseHoldTime).Floor
    ensures baseHoldTime >= 0.0 && !(Abs(ind.macd.macd) > 2.0 * Abs(ind.macd.signal)) ==>
      GetDynamicMaxHoldTime(baseHoldTime, ind) <= baseHoldTime.Floor
  {
    var m := HoldTimeMultiplier(ind);
    if baseHoldTime >= 0.0 {
      assert 0.63 * baseHoldTime <= baseHoldTime * m <= 1.3 * baseHoldTime;
      if !(Abs(ind.macd.macd) > 2.0 * Abs(ind.macd.signal)) {
        assert m <= 1.0;
        assert baseHoldTime * m <= baseHoldTime;
      }
    }
  }
}
