/** The indicator calculations of the trading engine (RSI, EMA, MACD, volume and volatility
    spikes, SMA, ATR) as functions of a candle sequence, the loop-based calculations as methods
    proved equal to those functions, and the snapshot that `updateIndicators` installs. */
module IndicatorEngine {
  import opened Common
  import opened Types
  import opened TradingConfigs

  function Closes(cs: seq<Candle>): (r: seq<real>)
    ensures |r| == |cs| && forall i :: 0 <= i < |cs| ==> r[i] == cs[i].close
  {
    seq(|cs|, i requires 0 <= i < |cs| => cs[i].close)
  }

  function Volumes(cs: seq<Candle>): (r: seq<real>)
    ensures |r| == |cs| && forall i :: 0 <= i < |cs| ==> r[i] == cs[i].volume
  {
    seq(|cs|, i requires 0 <= i < |cs| => cs[i].volume)
  }

  function Ranges(cs: seq<Candle>): (r: seq<real>)
    ensures |r| == |cs| && forall i :: 0 <= i < |cs| ==> r[i] == cs[i].high - cs[i].low
  {
    seq(|cs|, i requires 0 <= i < |cs| => cs[i].high - cs[i].low)
  }

  function Last(s: seq<real>): real
    requires |s| > 0
  {
    s[|s| - 1]
  }

  // ---------------------------------------------------------------- RSI

  function Change(cs: seq<Candle>, i: nat): real
    requires 1 <= i < |cs|
  {
    cs[i].close - cs[i - 1].close
  }

  /** The gain of step i. The first pass books a change >= 0 as a gain and the smoothing pass
      a change > 0; both give the same value, since a zero change adds 0. */
  function Gain(cs: seq<Candle>, i: nat): real
    requires 1 <= i < |cs|
  {
    if Change(cs, i) >= 0.0 then Change(cs, i) else 0.0
  }

  /** The loss of step i, as a non-negative amount. */
  function Loss(cs: seq<Candle>, i: nat): real
    requires 1 <= i < |cs|
  {
    if Change(cs, i) >= 0.0 then 0.0 else -Change(cs, i)
  }

  /** Gains of the steps 1..k. */
  function GainSum(cs: seq<Candle>, k: nat): real
    requires k < |cs|
  {
    if k == 0 then 0.0 else GainSum(cs, k - 1) + Gain(cs, k)
  }

  function LossSum(cs: seq<Candle>, k: nat): real
    requires k < |cs|
  {
    if k == 0 then 0.0 else LossSum(cs, k - 1) + Loss(cs, k)
  }

  /** One Wilder smoothing step: the old average weighted by period - 1, plus the new term. */
  function Smooth(average: real, x: real, period: nat): real
    requires period > 0
  {
    (average * (period - 1) as real + x) / period as real
  }

  /** The average gain once the steps before index k have been taken: the simple average of
      the first `period` gains, then Wilder smoothing, one step per further candle. */
  function AvgGain(cs: seq<Candle>, period: nat, k: nat): real
    requires 0 < period < k <= |cs|
    decreases k
  {
    if k == period + 1 then GainSum(cs, period) / period as real
    else Smooth(AvgGain(cs, period, k - 1), Gain(cs, k - 1), period)
  }

  function AvgLoss(cs: seq<Candle>, period: nat, k: nat): real
    requires 0 < period < k <= |cs|
    decreases k
  {
    if k == period + 1 then LossSum(cs, period) / period as real
    else Smooth(AvgLoss(cs, period, k - 1), Loss(cs, k - 1), period)
  }

  /** `calculateRSI`: 0 on fewer than period + 1 candles, 100 when the average loss is 0. */
  function Rsi(cs: seq<Candle>, period: nat): real
    requires period > 0
  {
    if |cs| < period + 1 then 0.0
    else
      AveragesNonNegative(cs, period, |cs|);
      var g := AvgGain(cs, period, |cs|);
      var l := AvgLoss(cs, period, |cs|);
      if l == 0.0 then 100.0 else 100.0 - 100.0 / (1.0 + g / l)
  }

  lemma {:induction false} GainSumNonNegative(cs: seq<Candle>, k: nat)
    requires k < |cs|
    ensures GainSum(cs, k) >= 0.0 && LossSum(cs, k) >= 0.0
  {
    if k > 0 { GainSumNonNegative(cs, k - 1); }
  }

  lemma {:induction false} AveragesNonNegative(cs: seq<Candle>, period: nat, k: nat)
    requires 0 < period < k <= |cs|
    ensures AvgGain(cs, period, k) >= 0.0 && AvgLoss(cs, period, k) >= 0.0
    decreases k
  {
    if k == period + 1 {
      GainSumNonNegative(cs, period);
    } else {
      AveragesNonNegative(cs, period, k - 1);
      SmoothNonNegative(AvgGain(cs, period, k - 1), Gain(cs, k - 1), period);
      SmoothNonNegative(AvgLoss(cs, period, k - 1), Loss(cs, k - 1), period);
    }
  }

  lemma SmoothNonNegative(average: real, x: real, period: nat)
    requires period > 0 && average >= 0.0 && x >= 0.0
    ensures Smooth(average, x, period) >= 0.0
  {
    assert average * (period - 1) as real >= 0.0;
  }

  /** The RSI is 0 on too short a window, is 100 exactly when the average loss is 0, and
      otherwise lies in [0, 100). */
  lemma RsiRange(cs: seq<Candle>, period: nat)
    requires period > 0
    ensures |cs| < period + 1 ==> Rsi(cs, period) == 0.0
    ensures 0.0 <= Rsi(cs, period) <= 100.0
    ensures Rsi(cs, period) == 100.0 <==> |cs| >= period + 1 && AvgLoss(cs, period, |cs|) == 0.0
  {
    if |cs| >= period + 1 {
      AveragesNonNegative(cs, period, |cs|);
      var g := AvgGain(cs, period, |cs|);
      var l := AvgLoss(cs, period, |cs|);
      if l != 0.0 {
        assert g / l >= 0.0;
        assert 100.0 / (1.0 + g / l) > 0.0;
        assert 100.0 / (1.0 + g / l) <= 100.0;
      }
    }
  }

  lemma {:induction false} NoLossesWhenRising(cs: seq<Candle>, period: nat, k: nat)
    requires 0 < period < k <= |cs|
    requires forall i :: 1 <= i < |cs| ==> cs[i - 1].close <= cs[i].close
    ensures AvgLoss(cs, period, k) == 0.0
    decreases k
  {
    if k == period + 1 {
      LossSumZeroWhenRising(cs, period);
    } else {
      NoLossesWhenRising(cs, period, k - 1);
    }
  }

  lemma {:induction false} LossSumZeroWhenRising(cs: seq<Candle>, k: nat)
    requires k < |cs|
    requires forall i :: 1 <= i < |cs| ==> cs[i - 1].close <= cs[i].close
    ensures LossSum(cs, k) == 0.0
  {
    if k > 0 { LossSumZeroWhenRising(cs, k - 1); }
  }

  /** When no close is below its predecessor, the RSI of a long-enough window is 100. */
  lemma RsiAllGains(cs: seq<Candle>, period: nat)
    requires period > 0 && |cs| >= period + 1
    requires forall i :: 1 <= i < |cs| ==> cs[i - 1].close <= cs[i].close
    ensures Rsi(cs, period) == 100.0
  {
    NoLossesWhenRising(cs, period, |cs|);
  }

  /** `calculateRSI`, with its two accumulator loops. */
  method CalculateRsi(candles: seq<Candle>, period: nat) returns (rsi: real)
    requires period > 0
    ensures rsi == Rsi(candles, period)
  {
    if |candles| < period + 1 {
      return 0.0;
    }
    var gains, losses := 0.0, 0.0;
    var i := 1;
    while i <= period
      invariant 1 <= i <= period + 1
      invariant gains == GainSum(candles, i - 1) && losses == LossSum(candles, i - 1)
    {
      var change := candles[i].close - candles[i - 1].close;
      assert change == Change(candles, i);
      if change >= 0.0 {
        gains := gains + change;
      } else {
        losses := losses + Abs(change);
      }
      i := i + 1;
    }
    var avgGain := gains / period as real;
    var avgLoss := losses / period as real;
    i := period + 1;
    while i < |candles|
      invariant period + 1 <= i <= |candles|
      invariant avgGain == AvgGain(candles, period, i) && avgLoss == AvgLoss(candles, period, i)
    {
      var change := candles[i].close - candles[i - 1].close;
      assert change == Change(candles, i);
      avgGain := Smooth(avgGain, if change > 0.0 then change else 0.0, period);
      avgLoss := Smooth(avgLoss, if change < 0.0 then Abs(change) else 0.0, period);
      i := i + 1;
    }
    if avgLoss == 0.0 {
      return 100.0;
    }
    AveragesNonNegative(candles, period, |candles|);
    var rs := avgGain / avgLoss;
    rsi := 100.0 - 100.0 / (1.0 + rs);
  }

  // ---------------------------------------------------------------- EMA

  function Multiplier(period: nat): real {
    2.0 / (period as real + 1.0)
  }

  /** One EMA step: `(price - previousEma) * multiplier + previousEma`. */
  function EmaNext(previous: real, price: real, period: nat): real {
    (price - previous) * Multiplier(period) + previous
  }

  /** The seed: the sum of the first `period` prices (or all of them, if fewer) divided by
      `period`. */
  function Seed(prices: seq<real>, period: nat): real
    requires period > 0
  {
    Sum(Slice(prices, 0, period)) / period as real
  }

  /** `calculateEMA`: the seed, then one smoothing step per price from index `period` on. */
  function Ema(prices: seq<real>, period: nat): (r: seq<real>)
    requires period > 0
    ensures |r| == 1 + (if |prices| > period then |prices| - period else 0)
    ensures r[0] == Seed(prices, period)
    decreases |prices|
  {
    if |prices| <= period then [Seed(prices, period)]
    else
      var init := prices[..|prices| - 1];
      assert Slice(init, 0, period) == Slice(prices, 0, period);
      var prev := Ema(init, period);
      prev + [EmaNext(Last(prev), prices[|prices| - 1], period)]
  }

  /** Every EMA point after the seed is the smoothing step applied to the previous point and
      the price `period - 1` places further on. */
  lemma {:induction false} EmaStep(prices: seq<real>, period: nat, i: nat)
    requires period > 0 && 1 <= i < |Ema(prices, period)|
    ensures period + i - 1 < |prices|
    ensures Ema(prices, period)[i] ==
      EmaNext(Ema(prices, period)[i - 1], prices[period + i - 1], period)
    decreases |prices|
  {
    assert |prices| > period;
    var init := prices[..|prices| - 1];
    var e := Ema(prices, period);
    var prev := Ema(init, period);
    assert e == prev + [EmaNext(Last(prev), prices[|prices| - 1], period)];
    if i < |prev| {
      EmaStep(init, period, i);
      assert e[i] == prev[i] && e[i - 1] == prev[i - 1];
    }
  }

  /** Period 3 on 1..5: the seed 2, then 3 and 4 with multiplier 0.5. */
  lemma EmaExample()
    ensures Ema([1.0, 2.0, 3.0, 4.0, 5.0], 3) == [2.0, 3.0, 4.0]
  {
    var q3, q4, q5 := [1.0, 2.0, 3.0], [1.0, 2.0, 3.0, 4.0], [1.0, 2.0, 3.0, 4.0, 5.0];
    assert Sum(q3) == 6.0 by {
      assert q3[..2] == [1.0, 2.0];
      assert [1.0, 2.0][..1] == [1.0];
      assert [1.0][..0] == [];
    }
    assert Slice(q3, 0, 3) == q3;
    assert Ema(q3, 3) == [2.0];
    assert q4[..3] == q3;
    assert Ema(q4, 3) == [2.0, 3.0];
    assert q5[..4] == q4;
  }

  /** Extending the prices by one (past the seed window) extends the EMA by one step. */
  lemma EmaExtend(prices: seq<real>, period: nat, i: nat)
    requires 0 < period <= i < |prices|
    ensures Ema(prices[..i + 1], period) ==
      Ema(prices[..i], period) + [EmaNext(Last(Ema(prices[..i], period)), prices[i], period)]
  {
    assert prices[..i + 1][..i] == prices[..i];
  }

  /** `calculateEMA` with its push loop. */
  method CalculateEma(prices: seq<real>, period: nat) returns (ema: seq<real>)
    requires period > 0
    ensures ema == Ema(prices, period)
  {
    ema := [Sum(Slice(prices, 0, period)) / period as real];
    if |prices| <= period {
      return;
    }
    assert Slice(prices[..period], 0, period) == Slice(prices, 0, period);
    var i := period;
    while i < |prices|
      invariant period <= i <= |prices|
      invariant ema == Ema(prices[..i], period)
    {
      var previous := ema[|ema| - 1];
      ema := ema + [EmaNext(previous, prices[i], period)];
      EmaExtend(prices, period, i);
      i := i + 1;
    }
    assert prices[..|prices|] == prices;
  }

  // ---------------------------------------------------------------- MACD

  /** The zeroed result for too few closes; it has no `shortEma` or `longEma`. */
  const NoMacd := MacdLine(0.0, 0.0, 0.0, None, None)

  /** `calculateMACD`: the short EMA is cut to the long EMA's length from the end and the MACD
      history is the element-wise difference with the long EMA; the signal line is an EMA of
      that history. */
  function Macd(closes: seq<real>, shortPeriod: nat, longPeriod: nat, signalPeriod: nat): (r: MacdLine)
    requires shortPeriod > 0 && longPeriod > 0 && signalPeriod > 0
    ensures |closes| < longPeriod + signalPeriod ==> r == NoMacd
    ensures |closes| >= longPeriod + signalPeriod ==>
      r.shortEma == Some(Last(Ema(closes, shortPeriod))) && r.longEma == Some(Last(Ema(closes, longPeriod)))
    ensures r.histogram == r.macd - r.signal
  {
    if |closes| < longPeriod + signalPeriod then NoMacd
    else MacdOf(Ema(closes, shortPeriod), Ema(closes, longPeriod), signalPeriod)
  }

  /** The aligned MACD history of two EMA series. */
  function AlignedHistory(shortEma: seq<real>, longEma: seq<real>): (r: seq<real>)
    requires |shortEma| > 0 && |longEma| > 0
    ensures |r| > 0
  {
    var aligned := Slice(shortEma, -|longEma|, |shortEma|);
    SliceTail(shortEma, |longEma|);
    MacdHistory(aligned, longEma)
  }

  /** The MACD result built from the two EMA series. */
  function MacdOf(shortEma: seq<real>, longEma: seq<real>, signalPeriod: nat): (r: MacdLine)
    requires |shortEma| > 0 && |longEma| > 0 && signalPeriod > 0
    ensures r.shortEma == Some(Last(shortEma)) && r.longEma == Some(Last(longEma))
    ensures r.histogram == r.macd - r.signal
  {
    var history := AlignedHistory(shortEma, longEma);
    var signalLine := Ema(history, signalPeriod);
    var m := Last(history);
    var s := Last(signalLine);
    MacdLine(m, s, m - s, Some(Last(shortEma)), Some(Last(longEma)))
  }

  /** `shortEmaValues.map((value, index) => value - longEma[index])`. */
  function MacdHistory(aligned: seq<real>, longEma: seq<real>): (r: seq<real>)
    requires |aligned| <= |longEma|
    ensures |r| == |aligned| && forall i :: 0 <= i < |r| ==> r[i] == aligned[i] - longEma[i]
  {
    seq(|aligned|, i requires 0 <= i < |aligned| => aligned[i] - longEma[i])
  }

  /** When the short EMA is at least as long as the long one, the last history point is the
      difference of the two series' last points. */
  lemma AlignedHistoryLast(shortEma: seq<real>, longEma: seq<real>)
    requires 0 < |longEma| <= |shortEma|
    ensures Last(AlignedHistory(shortEma, longEma)) == Last(shortEma) - Last(longEma)
  {
    SliceTail(shortEma, |longEma|);
  }

  /** When the short period does not exceed the long one, the MACD value is the difference of
      the two EMAs' latest points that the result reports. (With a longer short period the
      slice keeps the whole short EMA and the difference is taken against an earlier long-EMA
      point.) */
  lemma MacdIsEmaDifference(closes: seq<real>, shortPeriod: nat, longPeriod: nat, signalPeriod: nat)
    requires 0 < shortPeriod <= longPeriod && signalPeriod > 0
    requires |closes| >= longPeriod + signalPeriod
    ensures var r := Macd(closes, shortPeriod, longPeriod, signalPeriod);
      r.macd == r.shortEma.value - r.longEma.value
  {
    AlignedHistoryLast(Ema(closes, shortPeriod), Ema(closes, longPeriod));
  }

  /** `calculateMACD`, using the loop-based EMA. */
  method CalculateMacd(closes: seq<real>, shortPeriod: nat, longPeriod: nat, signalPeriod: nat) returns (r: MacdLine)
    requires shortPeriod > 0 && longPeriod > 0 && signalPeriod > 0
    ensures r == Macd(closes, shortPeriod, longPeriod, signalPeriod)
  {
    if |closes| < longPeriod + signalPeriod {
      return NoMacd;
    }
    var shortEma := CalculateEma(closes, shortPeriod);
    var longEma := CalculateEma(closes, longPeriod);
    var history := AlignedHistory(shortEma, longEma);
    var signalLine := CalculateEma(history, signalPeriod);
    var m := history[|history| - 1];
    var s := signalLine[|signalLine| - 1];
    r := MacdLine(m, s, m - s, Some(shortEma[|shortEma| - 1]), Some(longEma[|longEma| - 1]));
  }

  // ---------------------------------------------------------------- spikes, SMA, ATR

  /** The last `lookback` candles, as `slice(-lookback)` takes them. */
  function Recent(cs: seq<Candle>, lookback: nat): (r: seq<Candle>)
    requires lookback > 0
    ensures r == cs[(if lookback <= |cs| then |cs| - lookback else 0)..]
  {
    SliceTail(cs, lookback);
    Slice(cs, -(lookback as int), |cs|)
  }

  /** `detectVolumeSpike`: some recent bar's volume exceeds `factor` times the average, where the
      average divides the recent volumes by `lookback`, not by the number of recent bars. */
  predicate VolumeSpike(cs: seq<Candle>, lookback: nat, factor: real)
    requires lookback > 0
  {
    var recent := Recent(cs, lookback);
    exists i :: 0 <= i < |recent| && recent[i].volume > VolumeThreshold(cs, lookback, factor)
  }

  /** `averageVolume * factor`. */
  function VolumeThreshold(cs: seq<Candle>, lookback: nat, factor: real): real
    requires lookback > 0
  {
    Sum(Volumes(Recent(cs, lookback))) / lookback as real * factor
  }

  /** `detectVolumeSpike`, with its early-exit loop. */
  method DetectVolumeSpike(candles: seq<Candle>, lookback: nat, factor: real) returns (spike: bool)
    requires lookback > 0
    ensures spike == VolumeSpike(candles, lookback, factor)
  {
    spike := false;
    var recent := Recent(candles, lookback);
    var threshold := VolumeThreshold(candles, lookback, factor);
    var i := 0;
    while i < |recent|
      invariant 0 <= i <= |recent|
      invariant !spike
      invariant forall j :: 0 <= j < i ==> recent[j].volume <= threshold
    {
      if recent[i].volume > threshold {
        spike := true;
        break;
      }
      i := i + 1;
    }
  }

  /** With a full window of positive volumes and a factor below 1 there is always a spike:
      the largest volume is at least the mean. */
  lemma VolumeSpikeBelowUnitFactor(cs: seq<Candle>, lookback: nat, factor: real)
    requires 0 < lookback <= |cs| && factor < 1.0
    requires forall i :: 0 <= i < |cs| ==> cs[i].volume > 0.0
    ensures VolumeSpike(cs, lookback, factor)
  {
    var recent := Recent(cs, lookback);
    var vs := Volumes(recent);
    assert |vs| == lookback;
    var k := SomeTermReachesMean(vs);
    SumPositive(vs);
    AboveScaledMean(vs[k], Sum(vs), lookback as real, factor);
    assert recent[k].volume == vs[k];
  }

  /** x·n >= s > 0 and f < 1 give x > (s / n)·f. */
  lemma AboveScaledMean(x: real, s: real, n: real, f: real)
    requires n > 0.0 && s > 0.0 && x * n >= s && f < 1.0
    ensures x > s / n * f
  {
    var m := s / n;
    assert m * n == s;
    assert (x - m) * n >= 0.0;
    assert x >= m;
    assert m > 0.0;
    assert m * f < m by { assert m * (1.0 - f) > 0.0; }
    assert x > m * f;
  }

  lemma {:induction false} SumPositive(xs: seq<real>)
    requires |xs| > 0 && forall i :: 0 <= i < |xs| ==> xs[i] > 0.0
    ensures Sum(xs) > 0.0
  {
    if |xs| > 1 {
      SumPositive(xs[..|xs| - 1]);
    } else {
      assert xs[..0] == [];
    }
  }

  /** With a full window of equal non-negative volumes and a factor of at least 1 there is no
      spike. */
  lemma NoVolumeSpikeWhenFlat(cs: seq<Candle>, lookback: nat, factor: real, v: real)
    requires 0 < lookback <= |cs| && factor >= 1.0 && v >= 0.0
    requires forall i :: 0 <= i < |cs| ==> cs[i].volume == v
    ensures !VolumeSpike(cs, lookback, factor)
  {
    var recent := Recent(cs, lookback);
    SumConst(Volumes(recent), v);
    assert Sum(Volumes(recent)) / lookback as real == v;
    assert v <= v * factor;
  }

  /** `calculateSMA`: the recent closes summed and divided by `period`. */
  function Sma(cs: seq<Candle>, period: nat): real
    requires period > 0
  {
    Sum(Closes(Recent(cs, period))) / period as real
  }

  /** Over a full window the SMA lies between the smallest and the largest recent close. */
  lemma SmaWithinCloses(cs: seq<Candle>, period: nat, lo: real, hi: real)
    requires 0 < period <= |cs|
    requires forall i :: |cs| - period <= i < |cs| ==> lo <= cs[i].close <= hi
    ensures lo <= Sma(cs, period) <= hi
  {
    var recent := Recent(cs, period);
    var xs := Closes(recent);
    assert |xs| == period;
    assert forall i :: 0 <= i < |xs| ==> lo <= xs[i] <= hi by {
      assert forall i :: 0 <= i < |xs| ==> xs[i] == cs[|cs| - period + i].close;
    }
    SumBounds(xs, lo, hi);
    MeanWithin(Sum(xs), period as real, lo, hi);
  }

  /** A total between p·lo and p·hi has a mean, over p > 0, between lo and hi. */
  lemma MeanWithin(total: real, p: real, lo: real, hi: real)
    requires p > 0.0 && p * lo <= total <= p * hi
    ensures lo <= total / p <= hi
  {
    assert total / p - lo == (total - p * lo) / p;
    assert hi - total / p == (p * hi - total) / p;
  }

  /** `detectVolatilitySpike`: the latest bar's range exceeds `threshold` times the average
      recent range, again averaged over `lookback`. */
  predicate VolatilitySpike(cs: seq<Candle>, lookback: nat, threshold: real)
    requires |cs| > 0 && lookback > 0
  {
    var average := Sum(Ranges(Recent(cs, lookback))) / lookback as real;
    cs[|cs| - 1].high - cs[|cs| - 1].low > average * threshold
  }

  /** With a full window of equal non-negative ranges and a threshold of at least 1 there is no
      volatility spike. */
  lemma NoVolatilitySpikeWhenFlat(cs: seq<Candle>, lookback: nat, threshold: real, w: real)
    requires 0 < lookback <= |cs| && threshold >= 1.0 && w >= 0.0
    requires forall i :: 0 <= i < |cs| ==> cs[i].high - cs[i].low == w
    ensures !VolatilitySpike(cs, lookback, threshold)
  {
    SumConst(Ranges(Recent(cs, lookback)), w);
    assert w <= w * threshold;
  }

  function TrueRange(previous: Candle, current: Candle): real {
    Max(current.high - current.low, Max(Abs(current.high - previous.close), Abs(current.low - previous.close)))
  }

  function TrueRanges(cs: seq<Candle>): (r: seq<real>)
    requires |cs| >= 1
    ensures |r| == |cs| - 1
  {
    seq(|cs| - 1, i requires 0 <= i < |cs| - 1 => TrueRange(cs[i], cs[i + 1]))
  }

  /** `calculateATR`: the mean true range over every consecutive pair of the whole buffer
      (the source's `period` argument is never read). */
  function Atr(cs: seq<Candle>): real
    requires |cs| >= 2
  {
    Sum(TrueRanges(cs)) / (|cs| - 1) as real
  }

  /** True ranges are never negative, so neither is the ATR. */
  lemma AtrNonNegative(cs: seq<Candle>)
    requires |cs| >= 2
    ensures Atr(cs) >= 0.0
  {
    SumNonNegative(TrueRanges(cs));
  }

  /** `calculateATR`, with its true-range loop. */
  method CalculateAtr(candles: seq<Candle>) returns (atr: real)
    requires |candles| >= 2
    ensures atr == Atr(candles)
  {
    var tr: seq<real> := [];
    var i := 1;
    while i < |candles|
      invariant 1 <= i <= |candles|
      invariant |tr| == i - 1
      invariant forall j :: 0 <= j < i - 1 ==> tr[j] == TrueRange(candles[j], candles[j + 1])
    {
      var high := candles[i].high;
      var low := candles[i].low;
      var previousClose := candles[i - 1].close;
      var trueRange := Max(high - low, Max(Abs(high - previousClose), Abs(low - previousClose)));
      tr := tr + [trueRange];
      i := i + 1;
    }
    assert tr == TrueRanges(candles);
    atr := Sum(tr) / |tr| as real;
  }

  // ---------------------------------------------------------------- the snapshot

  /** The window of the current RSI: `slice(-rsiPeriod - 1)`. */
  function CurrentRsiWindow(cs: seq<Candle>, period: nat): seq<Candle> {
    Slice(cs, -(period as int) - 1, |cs|)
  }

  /** The window of the previous RSI: `slice(-rsiPeriod - 2, -1)`. */
  function PreviousRsiWindow(cs: seq<Candle>, period: nat): seq<Candle> {
    Slice(cs, -(period as int) - 2, -1)
  }

  /** The previous RSI's window is the current RSI's window of the buffer without its last
      candle, so `previousRsi` is the RSI one candle earlier. */
  lemma PreviousWindowIsShifted(cs: seq<Candle>, period: nat)
    requires |cs| >= 1
    ensures PreviousRsiWindow(cs, period) == CurrentRsiWindow(cs[..|cs| - 1], period)
  {
  }

  /** The snapshot `updateIndicators` builds from a buffer. */
  function Snapshot(cs: seq<Candle>, c: TradingConfig): (r: Indicators)
    requires ValidConfig(c) && |cs| >= c.minimumRequiredCandles
    ensures 0.0 <= r.currentRsi <= 100.0 && 0.0 <= r.previousRsi <= 100.0
    ensures r.atr >= 0.0
    ensures r.macd.histogram == r.macd.macd - r.macd.signal
  {
    RsiRange(CurrentRsiWindow(cs, c.rsiPeriod), c.rsiPeriod);
    RsiRange(PreviousRsiWindow(cs, c.rsiPeriod), c.rsiPeriod);
    AtrNonNegative(cs);
    Indicators(
      Rsi(CurrentRsiWindow(cs, c.rsiPeriod), c.rsiPeriod),
      Rsi(PreviousRsiWindow(cs, c.rsiPeriod), c.rsiPeriod),
      Macd(Closes(cs), c.shortEmaPeriod, c.longEmaPeriod, c.signalEmaPeriod),
      VolumeSpike(cs, c.volumeSpikeBarCount, c.volumeSpikeFactor),
      Sma(cs, c.longEmaPeriod),
      VolatilitySpike(cs, c.volatilityLookback, c.volatilityThreshold),
      Atr(cs))
  }

  /** The snapshot computation with the loop-based calculations. */
  method ComputeIndicators(cs: seq<Candle>, c: TradingConfig) returns (r: Indicators)
    requires ValidConfig(c) && |cs| >= c.minimumRequiredCandles
    ensures r == Snapshot(cs, c)
  {
    var current := CalculateRsi(CurrentRsiWindow(cs, c.rsiPeriod), c.rsiPeriod);
    var previous := CalculateRsi(PreviousRsiWindow(cs, c.rsiPeriod), c.rsiPeriod);
    var macd := CalculateMacd(Closes(cs), c.shortEmaPeriod, c.longEmaPeriod, c.signalEmaPeriod);
    var volumeSpike := DetectVolumeSpike(cs, c.volumeSpikeBarCount, c.volumeSpikeFactor);
    var atr := CalculateAtr(cs);
    r := Indicators(current, previous, macd, volumeSpike, Sma(cs, c.longEmaPeriod),
                    VolatilitySpike(cs, c.volatilityLookback, c.volatilityThreshold), atr);
  }
}
