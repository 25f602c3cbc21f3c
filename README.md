# krakenTrading core, modelled in Dafny

This project models the decision-making core of a strategy-driven crypto trading engine for
the Kraken exchange:

- **Candle aggregator.** It turns a stream of OHLC events into a bounded buffer of closed candles per symbol. Each symbol also has one in-progress bar.
- **Indicators.** RSI with Wilder smoothing, EMA and MACD, volume and volatility spikes, SMA and ATR are computed over that buffer whenever a bar closes.
- **Entry rules.** Four strategies, of which the configured one decides whether to open a position.
- **Exit rules.** A first-match chain of trailing stop, EMA cross-down and initial stop, plus two hold-time helpers.
- **Position ledger.** It tracks the peak price, settles an exit with its fee into the balance, sizes and installs an entry (with a rollback when the record insert fails) and liquidates everything on request.
- **Record writers.** They build parameterised INSERT and UPDATE statements from records and loop over them.

Numbers are `real`. JavaScript's truthiness, `||` defaults, negative `slice` indices, comparisons
with `undefined`, `Number()` on digit strings and optional chaining are written out where the code
relies on them.

The engine's calls to code it cannot see are inputs to the model:

- the exchange order call, which succeeds or fails;
- the trade-record insert, which succeeds or fails;
- the database statement executor, a function from statement index and statement to outcome;
- the clock reading used as the entry time.

Modules follow the program:

| module | file | models |
|---|---|---|
| `Common` | common.dfy | Option, JavaScript truthiness and `slice`, sums |
| `Types` | types.dfy | candles, MACD line, indicator snapshot, position |
| `TradingConfigs` | config.dfy | the strategy configuration and buffer capacity |
| `IndicatorEngine` | indicators.dfy | the indicator functions and their loop implementations |
| `Entries` | entries.dfy | src/exitsEntries/enter.ts |
| `Exits` | exits.dfy | src/exitsEntries/exits.ts |
| `Engine` | engine.dfy | the class in src/dataCollection/tradingEngine.ts |
| `Text` | text.dfy | number rendering, `Number()` on numeric text, `join` |
| `TableActions` | table_actions.dfy | src/database/tableActions.ts |

`Engine.TradingEngine` is a class whose fields are the engine's maps and balances. Its invariant
`Valid()` states three things:

- Every position in the portfolio map is the same position held in `activePositions`. The entry path puts one shared object into both maps.
- The available balance equals the balance.
- Every buffer fits its capacity and is in strict time order, older than the symbol's in-progress bar.

The engine's state is also given as values: `Ledger` holds the two position maps and the
balance, and `Bars` holds the in-progress bars, the buffers and the indicators. The methods are
proved against step functions on these values:

- `TradeStep` is `updateTrades`;
- `OpenStep` is `createPosition`;
- `RefreshTrades` is the exit check followed by the entry attempt;
- `RefreshStep` is `updateIndicators`;
- `InstallStep` is the bootstrap of `initialize`;
- `CandleStep` and `EventStep` are one OHLC event;
- `EventsFold` and `TicksFold` are a whole OHLC or trade message.

Every method keeps `Valid()`. Each method's postcondition gives `Books()`, `BarsOf()` or
`State()` after the call as one of these functions of the state before it, so it fixes the
whole new state. Lemmas about the step functions state what the code promises, such as what an
exit settles, which symbols an event leaves alone, and that the candle side never depends on the
ledger.

## Model

| member | source | states |
|---|---|---|
| TradingConfigs.Capacity | src/dataCollection/tradingEngine.ts:207-210 | the buffer capacity is at least 4 × longEmaPeriod and at least minimumRequiredCandles, and equals one of them |
| TradingConfigs.MeanReversionPresetIsValid | src/config/tradingConfigurations.ts:30-57 | every configuration denominator of the mean-reversion preset (periods, lookbacks, required candles, stop-loss percentage, volatility cap) is positive, and its buffers hold 104 candles |
| Common.SliceTail | src/dataCollection/tradingEngine.ts:129 | `slice(-k)` is the last k elements, or everything when there are fewer |
| IndicatorEngine.CalculateRsi | src/dataCollection/tradingEngine.ts:287-316 | the two loops compute exactly the Wilder-smoothed RSI `Rsi` of the candles |
| IndicatorEngine.RsiRange | src/dataCollection/tradingEngine.ts:288-315 | the RSI is 0 with fewer than period + 1 candles, always lies in [0, 100], and is 100 exactly when the smoothed average loss is 0 |
| IndicatorEngine.GainSumNonNegative | src/dataCollection/tradingEngine.ts:295-299 | the seed sums of gains and of losses are non-negative |
| IndicatorEngine.AveragesNonNegative | src/dataCollection/tradingEngine.ts:302-311 | the smoothed average gain and loss stay non-negative through every smoothing step |
| IndicatorEngine.SmoothNonNegative | src/dataCollection/tradingEngine.ts:309-310 | one smoothing step of non-negative values is non-negative |
| IndicatorEngine.LossSumZeroWhenRising | src/dataCollection/tradingEngine.ts:295-299 | with non-decreasing closes the seed loss sum is 0 |
| IndicatorEngine.NoLossesWhenRising | src/dataCollection/tradingEngine.ts:306-311 | with non-decreasing closes the smoothed average loss stays 0 |
| IndicatorEngine.RsiAllGains | src/dataCollection/tradingEngine.ts:306-313 | with non-decreasing closes and enough candles the RSI is 100 |
| IndicatorEngine.Ema | src/dataCollection/tradingEngine.ts:373-390 | the EMA series has one seed (the SMA of the first `period` prices) plus one value per later price |
| IndicatorEngine.EmaStep | src/dataCollection/tradingEngine.ts:382-387 | value i of the series is the previous value moved toward price period + i − 1 by the multiplier 2/(period + 1) |
| IndicatorEngine.EmaExtend | src/dataCollection/tradingEngine.ts:382-387 | extending the prices by one extends the series by one step and leaves earlier values alone |
| IndicatorEngine.EmaExample | src/dataCollection/tradingEngine.ts:373-390 | prices 1..5 with period 3 give [2, 3, 4] |
| IndicatorEngine.CalculateEma | src/dataCollection/tradingEngine.ts:373-390 | the loop computes exactly `Ema` |
| IndicatorEngine.AlignedHistory | src/dataCollection/tradingEngine.ts:343-344 | `shortEma.slice(-longEma.length)` is non-empty |
| IndicatorEngine.AlignedHistoryLast | src/dataCollection/tradingEngine.ts:343-352 | the newest MACD value is the newest short EMA less the newest long EMA |
| IndicatorEngine.MacdIsEmaDifference | src/dataCollection/tradingEngine.ts:318-371 | with short period ≤ long period, macd is the newest short EMA less the newest long EMA |
| IndicatorEngine.CalculateMacd | src/dataCollection/tradingEngine.ts:318-371 | the method computes exactly `Macd` |
| IndicatorEngine.Recent | src/dataCollection/tradingEngine.ts:394 | `slice(-lookback)` is the newest lookback candles, or all of them |
| IndicatorEngine.DetectVolumeSpike | src/dataCollection/tradingEngine.ts:392-406 | the early-exit loop finds a spike exactly when some recent volume exceeds factor × the mean volume |
| IndicatorEngine.VolumeSpikeBelowUnitFactor | src/dataCollection/tradingEngine.ts:392-406 | with positive volumes and a factor below 1 there is always a spike: some volume reaches the mean |
| IndicatorEngine.NoVolumeSpikeWhenFlat | src/dataCollection/tradingEngine.ts:392-406 | constant volumes never spike for a factor of at least 1 |
| IndicatorEngine.SmaWithinCloses | src/dataCollection/tradingEngine.ts:408-411 | the SMA lies between the lowest and the highest close of its window |
| IndicatorEngine.MeanWithin | src/dataCollection/tradingEngine.ts:408-411 | a total of p values within [lo, hi] has its mean within [lo, hi] |
| IndicatorEngine.NoVolatilitySpikeWhenFlat | src/dataCollection/tradingEngine.ts:413-420 | constant ranges never spike for a threshold of at least 1 |
| IndicatorEngine.TrueRanges | src/dataCollection/tradingEngine.ts:425-435 | one true range per consecutive pair of candles |
| IndicatorEngine.AtrNonNegative | src/dataCollection/tradingEngine.ts:422-439 | the ATR is non-negative |
| IndicatorEngine.CalculateAtr | src/dataCollection/tradingEngine.ts:422-439 | the loop computes exactly the mean true range `Atr` |
| IndicatorEngine.PreviousWindowIsShifted | src/dataCollection/tradingEngine.ts:264-265 | the previous-RSI window is the current-RSI window of the buffer without its newest candle |
| IndicatorEngine.Snapshot | src/dataCollection/tradingEngine.ts:262-281 | both RSIs of a refresh lie in [0, 100], the ATR is non-negative and histogram = macd − signal |
| IndicatorEngine.ComputeIndicators | src/dataCollection/tradingEngine.ts:262-281 | the refresh computes exactly `Snapshot` |
| Entries.MeanReversionEntry | src/exitsEntries/enter.ts:29-48 | enters exactly when the RSI is a number below the threshold, the MACD crosses up when required, and there is a volume spike when required; otherwise the fixed rejection reason |
| Entries.TrendFollowingEntry | src/exitsEntries/enter.ts:50-72 | enters exactly when threshold < RSI < 70, macd > signal, histogram > 0, macd > 0 and there is a volatility spike |
| Entries.ScalpingEntry | src/exitsEntries/enter.ts:74-95 | enters exactly when threshold < RSI < 75, macd > signal, there is a volume spike and 0.1 < ATR% < 1 |
| Entries.VolatilityBreakoutEntry | src/exitsEntries/enter.ts:97-121 | enters exactly when there are volume and volatility spikes, 40 < RSI < 60 and ATR% > minAtrPercent |
| Entries.AnalyzeEntry | src/exitsEntries/enter.ts:5-10 | the decision of `entranceStrategy` as a bare boolean; its meaning is stated by `RejectionReasons`, `RecordRsiNeverEnters` and `DispatchDefaults` |
| Entries.DispatchDefaults | src/exitsEntries/enter.ts:12-26 | an empty strategy kind falls back to mean reversion; an unknown kind gives shouldEnter false with the reason "No valid strategy type specified", so `analyzeEntry` is false |
| Entries.RejectionReasons | src/exitsEntries/enter.ts:12-121 | every rejection carries one of the five fixed reasons |
| Entries.MeanReversionExcludesMomentum | src/exitsEntries/enter.ts:29-95 | under one configuration and RSI, mean reversion never enters together with trend following or with scalping |
| Entries.RecordRsiNeverEnters | src/exitsEntries/enter.ts:32 | with the RSI record the engine actually passes, no strategy ever enters |
| Entries.PlainRsiCanEnter | src/exitsEntries/enter.ts:29-48 | with the RSI passed as a number, an oversold reading under the mean-reversion preset enters |
| Exits.AnalyzeExit | src/exitsEntries/exits.ts:5-46 | holds without a truthy price or a positive ATR; otherwise exits exactly when the trailing stop, the EMA cross-down or the initial stop fires, and the first of them to fire names the reason |
| Exits.NoTrailingStopAtPeak | src/exitsEntries/exits.ts:27-34 | a price at or above a positive peak never hits the trailing stop |
| Exits.HoldTimeByProfit | src/exitsEntries/exits.ts:49-62 | profit above 3 % gives 1.5 × base, profit in (0, 1.8) % gives 0.7 × base, otherwise base; for a non-negative base the result is within [0.7, 1.5] × base |
| Exits.DynamicHoldTimeBounds | src/exitsEntries/exits.ts:64-83 | the multiplier is the product of the three factors and lies in [0.63, 1.3]; the floored hold time lies between the correspondingly scaled bases and exceeds the base only in a strong trend |
| Engine.Evict | src/dataCollection/tradingEngine.ts:212-214 | eviction keeps the newest min(len, cap) candles as a suffix |
| Engine.EvictKeepsOrder | src/dataCollection/tradingEngine.ts:212-214 | eviction keeps a buffer in time order |
| Engine.EvictOldest | src/dataCollection/tradingEngine.ts:212-214 | the `shift` loop computes exactly `Evict` |
| Engine.EvictKeepsNewest | src/dataCollection/tradingEngine.ts:203-214 | after eviction the newest candle is still last |
| Engine.CloseBarKeepsHistory | src/dataCollection/tradingEngine.ts:202-217 | closing the in-progress bar into the buffer keeps one symbol's history ordered and older than the new bar |
| Engine.InstallKeepsBuffersOk | src/dataCollection/tradingEngine.ts:131-134 | installing a bounded, ordered buffer with a newer in-progress bar keeps all buffers in order |
| Engine.CloseBarKeepsBuffersOk | src/dataCollection/tradingEngine.ts:202-217 | closing a bar keeps all buffers bounded and in order |
| Engine.ReviseBarKeepsBuffersOk | src/dataCollection/tradingEngine.ts:222-231 | replacing the in-progress bar with a same-time bar keeps all buffers in order |
| Engine.DropKeepsBuffersOk | src/dataCollection/tradingEngine.ts:131-134 | forgetting a symbol's in-progress bar and emptying its buffer keeps all buffers in order |
| Engine.Bootstrap | src/dataCollection/tradingEngine.ts:103-129 | the bootstrap keeps the newest 4 × longEmaPeriod + 1 fetched candles, as a suffix |
| Engine.Pop | src/dataCollection/tradingEngine.ts:132 | `pop()` leaves everything but the newest candle |
| Engine.BootstrapKeepsHistory | src/dataCollection/tradingEngine.ts:129-133 | the bootstrap buffer fits the capacity and is in order, older than its in-progress bar |
| Engine.SuffixChronological | src/dataCollection/tradingEngine.ts:129 | the newest candles of an ordered history are in order |
| Engine.PopBelowNewest | src/dataCollection/tradingEngine.ts:132-133 | after `pop()` the remaining buffer is in order and older than the popped candle |
| Engine.NetPnlExample | src/dataCollection/tradingEngine.ts:481-496 | entry 100, exit 110, quantity 1 nets 9.16 after fees at 0.4 % |
| Engine.NetPnlIsCreditLessCost | src/dataCollection/tradingEngine.ts:481-496 | the net PnL is the balance credit less the position's cost with its entry fee |
| Engine.PeakIsHighWaterMark | src/dataCollection/tradingEngine.ts:460-466 | the updated peak is max(peak, price), so it never falls, except for a zero peak with a negative price, where it becomes the price |
| Engine.WithPosition | src/dataCollection/tradingEngine.ts:462 | updating the shared position object changes no map's key set |
| Engine.PositionSize | src/dataCollection/tradingEngine.ts:724-753 | the size never exceeds balance × max_position_size / price |
| Engine.PositionSizeBounds | src/dataCollection/tradingEngine.ts:724-753 | with non-negative inputs and a positive price the size is non-negative and within the 4 % risk size |
| Engine.AdjustmentWithin | src/dataCollection/tradingEngine.ts:739-740 | the volatility adjustment lies in (0, 1] |
| Engine.ScaledMinWithin | src/dataCollection/tradingEngine.ts:743-750 | the smaller limit scaled by the adjustment and capped by the account limit lies between 0 and the risk size |
| Engine.RemoveReplaced | src/dataCollection/tradingEngine.ts:462-492 | removing a symbol after marking its peak leaves the same map as removing it outright |
| Engine.TradeStepKeepsOthers | src/dataCollection/tradingEngine.ts:441-603 | an exit check changes no other symbol's position in either map and keeps every portfolio position the engine's own |
| Engine.MarkKeepsOthers | src/dataCollection/tradingEngine.ts:459-466 | marking one position in both maps changes no other symbol and keeps the maps shared |
| Engine.DropKeepsOthers | src/dataCollection/tradingEngine.ts:491-492 | removing one symbol from both maps changes no other symbol and keeps the maps shared |
| Engine.TradeStepSettles | src/dataCollection/tradingEngine.ts:441-603 | an exit removes the position from both maps and raises the balance by the reported net PnL plus the position's cost with its entry fee; otherwise the balance and the open symbols stay, and a held position, or one whose sell failed, carries the marked peak |
| Engine.OpenStepKeepsOthers | src/dataCollection/tradingEngine.ts:605-703 | an entry attempt changes no other symbol's position, never changes the balance, keeps the maps shared and never exceeds the position limit |
| Engine.InstallKeepsOthers | src/dataCollection/tradingEngine.ts:669-699 | installing one position changes no other symbol, keeps the maps shared and adds at most one position |
| Engine.InsertAddsAtMostOne | src/dataCollection/tradingEngine.ts:672 | installing a position grows the engine's map by at most one |
| Engine.OpenStepInstalls | src/dataCollection/tradingEngine.ts:605-703 | a position is installed exactly when every gate passes, the decision is to enter, the exchange order goes through and paper trading is on; it is entered and peaked at the close, sized within the account cap, and stays in the portfolio map exactly when the insert succeeds; otherwise the ledger is unchanged |
| Engine.AsWrittenNeverOpens | src/dataCollection/tradingEngine.ts:628-629 | with `result.shouldEnter` read off the boolean `analyzeEntry` returns, no entry attempt ever installs a position or changes the ledger |
| Engine.IntendedOpensOnlyOnEntry | src/dataCollection/tradingEngine.ts:628-629 | with the decision read as intended, a position is installed only when the configured rule enters on the numeric current RSI at the in-progress close |
| Engine.PresetNeverPaperTrades | src/dataCollection/tradingEngine.ts:648-699 | with the mean-reversion preset as given, whose `paperTrade` is undefined, no entry attempt records a position and the ledger is unchanged, under either reading of the decision |
| Engine.IntendedCanOpen | src/dataCollection/tradingEngine.ts:628-699 | with the decision read as intended and paper trading switched on in the mean-reversion preset, an oversold RSI with a MACD cross-up and a volume spike opens a position |
| Engine.TicksKeepUntouched | src/dataCollection/tradingEngine.ts:236-253 | a trade message leaves the positions of every symbol none of its ticks names as they were, in both maps |
| Engine.CandleStepKeepsBuffersOk | src/dataCollection/tradingEngine.ts:199-234 | one event's candle side keeps every buffer bounded, ordered and older than its in-progress bar |
| Engine.EventStepKeepsInvariant | src/dataCollection/tradingEngine.ts:180-234 | one OHLC event keeps the buffers bounded and ordered and the maps shared |
| Engine.EventsFoldKeepsInvariant | src/dataCollection/tradingEngine.ts:176-235 | a whole OHLC message keeps the buffers bounded and ordered and the maps shared |
| Engine.RefreshKeepsShared | src/dataCollection/tradingEngine.ts:283-284 | the exit check and the entry attempt keep the maps shared and change no other symbol's position |
| Engine.EventStepBarsOnly | src/dataCollection/tradingEngine.ts:180-234 | the candle side after an event depends only on the candle side before it |
| Engine.CandleSideIgnoresLedger | src/dataCollection/tradingEngine.ts:176-235 | the candle side after an OHLC message is the same for any ledger, any new-order flag and any outcomes of the exchange and database calls |
| Engine.TradingEngine.constructor | src/dataCollection/tradingEngine.ts:84-100 | the engine after `initialize` installs the portfolio: balance and available balance are tradeBalance, the portfolio has its own empty position map, no symbol has candles or indicators, and new orders are placed |
| Engine.TradingEngine.LoadHistory | src/dataCollection/tradingEngine.ts:103-155 | one symbol's bootstrap: the whole state afterwards is `RefreshStep` on the bootstrap buffer, applied after `InstallStep` of the fetched history. The newest kept bar is in progress, the rest is the buffer, and the indicators are zeroed; the refresh then sets the indicators and the ledger when the buffer is long enough |
| Engine.TradingEngine.InstallHistory | src/dataCollection/tradingEngine.ts:103-153 | the candle side afterwards is `InstallStep` of the history and the returned buffer is the kept candles without the newest; the ledger is not touched |
| Engine.TradingEngine.IngestCandle | src/dataCollection/tradingEngine.ts:199-234 | a bar closes exactly when the event is newer than the in-progress bar; it is revised exactly when it has the same time and a changed high, low, close or volume; the candle side afterwards is `CandleStep` |
| Engine.TradingEngine.CloseBar | src/dataCollection/tradingEngine.ts:202-217 | the event becomes the in-progress bar and the evicted buffer replaces the old one, keeping the invariant |
| Engine.TradingEngine.ReviseBar | src/dataCollection/tradingEngine.ts:222-231 | the same-time event replaces the in-progress bar, keeping the invariant |
| Engine.TradingEngine.UpdateIndicators | src/dataCollection/tradingEngine.ts:256-285 | the whole state afterwards is `RefreshStep`: unchanged below the minimum, otherwise the symbol's snapshot is `Snapshot` of the candles and the ledger is `RefreshTrades` on it |
| Engine.TradingEngine.RefreshIndicators | src/dataCollection/tradingEngine.ts:262-282 | only the symbol's snapshot changes, to `Snapshot` of the candles |
| Engine.TradingEngine.TradeOnRefresh | src/dataCollection/tradingEngine.ts:283-284 | the ledger afterwards is `RefreshTrades`: `TradeStep` without a tick price, then `OpenStep` with the decision read on the numeric RSI |
| Engine.TradingEngine.UpdateTrades | src/dataCollection/tradingEngine.ts:441-603 | the outcome and the ledger afterwards are `TradeStep` of the ledger before; what that settles is stated by `TradeStepSettles` and `TradeStepKeepsOthers` |
| Engine.TradingEngine.MarkAndExit | src/dataCollection/tradingEngine.ts:454-603 | the steps after the early returns: the outcome and the ledger are `TradeStep` of the ledger before |
| Engine.TradingEngine.ActOnSignal | src/dataCollection/tradingEngine.ts:468-603 | without an exit signal and a truthy price nothing changes; a failed exchange sell changes nothing; otherwise the exit is settled at the recent close |
| Engine.TradingEngine.ForgetBars | src/dataCollection/tradingEngine.ts:131-153 | an empty bootstrap leaves the symbol with no in-progress bar, an empty buffer and zeroed indicators |
| Engine.TradingEngine.InstallBars | src/dataCollection/tradingEngine.ts:131-153 | the bootstrap installs the newest bar as in progress, the rest as the buffer, and zeroes the indicators |
| Engine.TradingEngine.MarkPeak | src/dataCollection/tradingEngine.ts:459-466 | the shared position's new peak is seen through both maps |
| Engine.TradingEngine.SettleExit | src/dataCollection/tradingEngine.ts:481-492 | the balance gains the exit credit and the position leaves both maps |
| Engine.TradingEngine.CreatePosition | src/dataCollection/tradingEngine.ts:605-703 | the outcome and the ledger afterwards are `OpenStep` of the ledger before, under the given reading of the entry decision; what that installs is stated by `OpenStepInstalls` and `OpenStepKeepsOthers` |
| Engine.TradingEngine.InstallPosition | src/dataCollection/tradingEngine.ts:669-699 | the new position goes into both maps; a failed insert deletes it from the portfolio map again |
| Engine.TradingEngine.CloseAllPositions | src/dataCollection/tradingEngine.ts:755-773 | afterwards exactly the positions whose exchange sell failed, when trading on the exchange, remain in either map |
| Engine.RedeliveryIsNoOp | src/dataCollection/tradingEngine.ts:195-232 | delivering the same bar event a second time leaves the whole state as the first delivery left it |
| Engine.OpenBarEventKeepsHistory | src/dataCollection/tradingEngine.ts:195-232 | an event that closes no bar leaves the ledger, buffers and indicators alone; a same-time change replaces the in-progress bar, and an equal, older or unknown-symbol event changes nothing |
| Engine.TradingEngine.HandleCandleEvent | src/dataCollection/tradingEngine.ts:180-234 | a bar closes exactly when the event is newer than the in-progress bar; the whole state afterwards is `EventStep` of the state before |
| Engine.TradingEngine.HandleWebSocketMessage | src/dataCollection/tradingEngine.ts:176-254 | an OHLC message gives the state `EventsFold` of its events; a trade message leaves the candle side as it was and gives the ledger `TicksFold` of its ticks; any other channel changes nothing |
| Engine.TradingEngine.HandleOhlc | src/dataCollection/tradingEngine.ts:177-235 | the events in order: the whole state afterwards is `EventsFold` of the state before |
| Engine.TradingEngine.HandleTrades | src/dataCollection/tradingEngine.ts:236-253 | the ticks in order, each an `updateTrades` with its price: the ledger afterwards is `TicksFold` of the ledger before |
| Text.DigitChar | src/database/tableActions.ts:30 | a digit's character reads back as the digit |
| Text.NatToString | src/database/tableActions.ts:46 | a count renders as a non-empty digit string without a leading zero |
| Text.ParseNatToString | src/database/tableActions.ts:46 | a rendered count reads back as the count |
| Text.NatToStringInjective | src/database/tableActions.ts:30 | distinct numbers render differently |
| Text.FirstDot | src/database/tableActions.ts:16 | the first '.' of a string, or none |
| Text.NumericTextOfNat | src/database/tableActions.ts:16-17 | `Number()` of a rendered count is the count |
| Text.NotNumericWithLetter | src/database/tableActions.ts:16 | a string with a character other than a digit or '.' is not a number |
| Text.JoinLength | src/database/tableActions.ts:30-32 | the length of the joined text is the parts' total length plus one separator per gap |
| TableActions.CleanIdempotent | src/database/tableActions.ts:10-26 | cleaning a cleaned value changes nothing, and a rendered count cleans to that count |
| TableActions.CleanKeepsWords | src/database/tableActions.ts:24-25 | a text with a letter (a status, a side, a strategy name) is kept as it is |
| TableActions.Keys | src/database/tableActions.ts:29 | the columns are the record's keys, in order |
| TableActions.LookupFindsKey | src/database/tableActions.ts:67 | a present key yields the value of an entry holding that key; an absent key yields undefined |
| TableActions.PlaceholderInjective | src/database/tableActions.ts:30 | distinct parameter indices have distinct names |
| TableActions.Placeholders | src/database/tableActions.ts:30 | one placeholder per column, `@param` + index |
| TableActions.CleanRecord | src/database/tableActions.ts:9-27 | every value cleaned, keys and order kept |
| TableActions.Values | src/database/tableActions.ts:37 | the values in key order |
| TableActions.InsertBindsColumns | src/database/tableActions.ts:29-38 | the INSERT lists as many placeholders as columns, and placeholder i is bound to column i's cleaned value |
| TableActions.SetColumns | src/database/tableActions.ts:63 | the SET columns are exactly the keys other than ID |
| TableActions.SetColumnsAppend | src/database/tableActions.ts:63 | the filter keeps the key order: the SET columns of two records end to end are those of the first followed by those of the second |
| TableActions.SetColumnsWithoutId | src/database/tableActions.ts:63 | a record without an ID key has exactly its keys, in order, as SET columns |
| TableActions.SetClauses | src/database/tableActions.ts:64 | an assignment `column = @param` + i per column |
| TableActions.UpdateBindsColumns | src/database/tableActions.ts:63-67 | with k columns the UPDATE binds k + 1 values: column i to `@param` + i, the ID to `@param` + k, distinct from all columns |
| TableActions.FirstFailure | src/database/tableActions.ts:7-44 | every planned statement before it succeeds, and the one at it is planned and fails |
| TableActions.Sent | src/database/tableActions.ts:7-72 | the statements sent among the first n are planned ones, in increasing record order, at most n of them |
| TableActions.SentAll | src/database/tableActions.ts:7-38 | when nothing among the first n is skipped, statement j is sent for record j |
| TableActions.InsertsAllSent | src/database/tableActions.ts:7-44 | when no insert fails, the INSERT of every record is sent, in record order |
| TableActions.InsertTableRecords | src/database/tableActions.ts:3-50 | inserts run in order up to and including the first failure. All succeeding gives "N records inserted successfully"; a failure gives the wrapped error |
| TableActions.UpdatedCount | src/database/tableActions.ts:58-76 | the count never exceeds the records seen |
| TableActions.UpdateTableRecords | src/database/tableActions.ts:52-83 | a non-array is refused with the wrapped message. Otherwise the updates run up to the first failure, giving "C of N records updated successfully" with C the updates that affected a row, or the wrapped error |
| TableActions.UpdatedCountBounds | src/database/tableActions.ts:60-76 | when no record among the first n is skipped and every update affects a row, the count is n |
| TableActions.CountedAmongSent | src/database/tableActions.ts:69-76 | only sent UPDATEs are counted |

## Left out

- Rounding through `toFixed(8)`, NaN and ±Infinity: numbers are exact reals. With the no-division-by-zero conditions of `ValidConfig` and a non-zero price, no NaN or Infinity arises except in the `maxVolatility / 0` case of sizing, which is modelled explicitly.
- `Number()` beyond plain digit strings with at most one '.': leading and trailing whitespace, signs, exponents, hexadecimal literals and the literals `Infinity`, `+Infinity` and `-Infinity` are read as non-numeric. `Number()` reads the last three as ±Infinity, which the cleaning step turns into null; the model keeps them as text.
- The key order of JavaScript objects (integer-like keys first): a record is a sequence of key/value pairs in enumeration order.
- Distinct keys: a record may repeat a key, which no JavaScript object can; with a repeated key `Keys` and `Values` list every entry and `Lookup` finds the first.
- Parsing of the exchange's text fields (`parseFloat`) and of ISO timestamps: candles arrive already parsed, with integer timestamps.
- The HTTP fetch of the history in `initialize` and its error paths: a failed fetch skips the symbol, which here means not calling `LoadHistory` for it. The websocket setup, reconnects and subscriptions are not part of this model.
- `postKrakenTrade` and `executeQueryWithRetry`: their success or failure is an input.
- The `order` sub-record of a position and the precise `entryTime` date: the entry time is the clock input `now`.
- Concurrency: `updateTrades` and `createPosition` are started without being awaited, and the sell in `updateTrades` awaits the exchange. The model runs everything in order: the exit check completes first, then the entry attempt.
- The database reads and writes `updateTrades` makes after an exit or a price mark: they catch and log every error and change no engine state.
- The reason texts that interpolate numbers (the entry reasons with `RSI=…`): the model gives the fixed text without the numbers.
- The `period` argument of `calculateATR`, which the source never reads.
- MeanReversionPreset: the preset defines neither `tradeOnKraken`, `paperTrade` nor `tradeBalance` (nor does any other preset). The first two are undefined and read as false, so as given the engine never paper-trades and never records a position (`PresetNeverPaperTrades`); `tradeBalance` is undefined, which makes the portfolio balance undefined, and is given the arbitrary value 10000 here.
- LoadHistory: the exchange is assumed to return the history oldest first (`requires Chronological(history)`); `initialize` neither checks nor sorts it.
- Configurations that make the engine divide by zero (a zero period or lookback, fewer than two required candles, a zero stop-loss percentage or volatility cap) are excluded by `ValidConfig`.
- `takeProfitPct`, `maxHoldTimeMinutes`, `minHoldTimeMinutes`, `dynamicStopLoss`, `adjustHoldTimeWithVolatility` and `maxAtrPercent` are read by no rule; the hold-time helpers are modelled but never called, as in the source.
- The websocket client, the connection pool, src/indicators/calculateIndicators.ts and src/index.ts are not part of this model. src/index.ts calls the constructor without active positions and `initialize` without a portfolio, which its declared signature does not allow.

The model follows the code, including where it does something other than its names or comments
suggest:

- A failed trade-record insert removes the new position from the portfolio map only. The comment at src/dataCollection/tradingEngine.ts:695 calls this a rollback, but the position stays in `activePositions`, and the engine goes on managing it.
- The entry rules compare the stored RSI record with numbers, which is always false (first finding below).
- `createPosition` reads `result.shouldEnter` from the boolean that `analyzeEntry` returns, so as written no position is ever opened. `CreatePosition` takes the reading of the decision as a parameter, and `TradeOnRefresh` passes the intended one, which also reads the numeric RSI. So `TradeOnRefresh`, `UpdateIndicators`, `LoadHistory`, `HandleCandleEvent` and `HandleOhlc` model the engine with both findings below corrected.
- An entry never debits the balance: the debit at src/dataCollection/tradingEngine.ts:670 is commented out. An exit credits the sale proceeds less the exit fee, so over a round trip the balance grows by the whole sale.
- The exit chain has only the trailing stop, the EMA cross-down and the initial stop. No rule reads `takeProfitPct` or the hold-time settings.
- The fee comment at src/dataCollection/tradingEngine.ts:483-484 says 0.26 %, but the rate used is 0.004, i.e. 0.4 %.
- The EMA routine moves each value toward the next price by 2/(period + 1). For prices 1..5 and period 3 it yields [2, 3, 4] (`EmaExample`).
- The zeroed MACD result has no `shortEma` and no `longEma`. The EMA cross-down rule then compares with `undefined`, which is false.

## Findings

| source | as written | input that shows it | evidently intended | confidence | as-written member | corrected member |
|---|---|---|---|---|---|---|
| src/exitsEntries/enter.ts:32 | every rule compares `indicator.rsi`, the record `{currentRsi, previousRsi}` stored by the engine, with a number, which is always false | RSI 20 with the mean-reversion preset, the MACD crossing up and a volume spike: no entry | the rules compare the numeric RSI | not executed; high | Entries.RecordRsiNeverEnters | Entries.PlainRsiCanEnter |
| src/dataCollection/tradingEngine.ts:628-629 | `createPosition` tests `result.shouldEnter`, but `analyzeEntry` returns a bare boolean, whose `shouldEnter` property is undefined and falsy | any entry attempt that passes the gates, e.g. the one in `IntendedCanOpen` read as written: no position | the test is on the boolean decision itself | not executed; high | Engine.AsWrittenNeverOpens | Engine.IntendedOpensOnlyOnEntry |
