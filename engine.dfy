/** The per-symbol streaming engine of src/dataCollection/tradingEngine.ts: the candle
    aggregator, the indicator refresh, the position ledger (peak tracking, exits with fee
    bookkeeping, entries with sizing and rollback) and the liquidation loop.

    Calls the engine cannot see are inputs: the exchange order call succeeds or fails, the
    trade-record insert succeeds or fails, the entry decision is a boolean, and the clock
    reading `now` is the entry time. The database writes that `updateTrades` makes after an
    exit or a price mark catch and log every error and change no engine state, so they do not
    appear here at all: the contracts below describe the whole new state without them. */
module Engine {
  import opened Common
  import opened Types
  import opened TradingConfigs
  import opened IndicatorEngine
  import opened Exits
  import opened Entries

  /** The fee rate of an exit (the source's comment says 0.26 %, the constant is 0.4 %). */
  const FeeRate: real := 0.004

  /** What an OHLC event did to a symbol's candles. */
  datatype CandleChange = Ignored | Revised | Closed

  /** What `updateTrades` did. */
  datatype TradeOutcome =
    | NoPosition
    | NoIndicators
    | ExitOrderFailed
    | Exited(reason: string, netPnl: real)
    | Held(reason: string)

  /** What `createPosition` did. `MissingIndicators` is the source's thrown error. */
  datatype OpenOutcome =
    | AlreadyOpen
    | MissingIndicators
    | MaxPositionsReached
    | NoPrice
    | NotEntered
    | EntryOrderFailed
    | NotPaperTrading
    | Opened(position: Position)
    | RolledBack(position: Position)

  /** The outcomes of the unseen calls made after one closed bar: the exchange sell of the exit
      check, the exchange buy and the trade-record insert of the entry attempt, and the clock. */
  datatype Externals = Externals(exitOrderOk: bool, entryOrderOk: bool, insertOk: bool, now: int)

  /** A websocket message: OHLC events or trade ticks, each tagged with its symbol. */
  datatype Message =
    | OhlcMessage(bars: seq<(string, Candle)>)
    | TradeMessage(ticks: seq<(string, real)>)
    | OtherChannel

  // ---------------------------------------------------------------- candle aggregation

  function BufferOf(buffers: map<string, seq<Candle>>, symbol: string): seq<Candle> {
    if symbol in buffers then buffers[symbol] else []
  }

  /** Drop candles from the front until at most `cap` remain. */
  function Evict(buffer: seq<Candle>, cap: nat): (r: seq<Candle>)
    ensures |r| == (if |buffer| <= cap then |buffer| else cap)
    ensures forall i :: 0 <= i < |r| ==> r[i] == buffer[|buffer| - (if |buffer| <= cap then |buffer| else cap) + i]
  {
    if |buffer| <= cap then buffer else buffer[|buffer| - cap..]
  }

  /** Eviction keeps a buffer in time order. */
  lemma EvictKeepsOrder(buffer: seq<Candle>, cap: nat)
    requires Chronological(buffer)
    ensures Chronological(Evict(buffer, cap))
  {
  }

  /** The `while (buffer.length > requiredCandles) buffer.shift()` loop. */
  method EvictOldest(buffer: seq<Candle>, cap: nat) returns (b: seq<Candle>)
    ensures b == Evict(buffer, cap)
  {
    b := buffer;
    while |b| > cap
      invariant b == buffer[|buffer| - |b|..]
      invariant |buffer| > cap ==> |b| >= cap
      invariant |buffer| <= cap ==> b == buffer
    {
      b := b[1..];
    }
  }

  /** Eviction keeps the newest candle. */
  lemma EvictKeepsNewest(buffer: seq<Candle>, cap: nat)
    requires cap > 0 && |buffer| > 0
    ensures var r := Evict(buffer, cap); |r| > 0 && r[|r| - 1] == buffer[|buffer| - 1]
  {
  }

  /** An event with the in-progress bar's timestamp replaces it only when high, low, close or
      volume differ (a different open alone is not a change). */
  predicate Revises(last: Candle, event: Candle) {
    event.high != last.high || event.low != last.low || event.close != last.close || event.volume != last.volume
  }

  /** The closed candles of a symbol are in time order and older than its in-progress bar. */
  predicate HistoryOk(buffer: seq<Candle>, last: Candle) {
    Chronological(buffer) && forall i :: 0 <= i < |buffer| ==> buffer[i].timestamp < last.timestamp
  }

  /** Every buffer fits the capacity and is in time order, and every in-progress bar is newer
      than its symbol's buffer. */
  predicate BuffersOk(buffers: map<string, seq<Candle>>, last: map<string, Candle>, cap: nat) {
    && (forall s :: s in buffers ==> |buffers[s]| <= cap && Chronological(buffers[s]))
    && (forall s :: s in last ==> HistoryOk(BufferOf(buffers, s), last[s]))
  }

  lemma CloseBarKeepsHistory(buffer: seq<Candle>, last: Candle, event: Candle, cap: nat)
    requires HistoryOk(buffer, last) && event.timestamp > last.timestamp
    ensures HistoryOk(Evict(buffer + [last], cap), event)
  {
    var grown := buffer + [last];
    assert Chronological(grown);
    EvictKeepsOrder(grown, cap);
  }

  /** Installing a bounded, ordered buffer `b` for `symbol` whose in-progress bar `event` is
      newer than all of it keeps the buffers in order. */
  lemma InstallKeepsBuffersOk(buffers: map<string, seq<Candle>>, last: map<string, Candle>, cap: nat, symbol: string, b: seq<Candle>, event: Candle)
    requires BuffersOk(buffers, last, cap)
    requires |b| <= cap && HistoryOk(b, event)
    ensures BuffersOk(buffers[symbol := b], last[symbol := event], cap)
  {
    var buffers' := buffers[symbol := b];
    var last' := last[symbol := event];
    forall s | s in last'
      ensures HistoryOk(BufferOf(buffers', s), last'[s])
    {
      if s == symbol {
        assert BufferOf(buffers', s) == b && last'[s] == event;
      } else {
        assert BufferOf(buffers', s) == BufferOf(buffers, s) && last'[s] == last[s];
      }
    }
  }

  /** Closing the in-progress bar of `symbol` into its buffer keeps the buffers in order. */
  lemma CloseBarKeepsBuffersOk(buffers: map<string, seq<Candle>>, last: map<string, Candle>, cap: nat, symbol: string, event: Candle)
    requires BuffersOk(buffers, last, cap)
    requires symbol in last && event.timestamp > last[symbol].timestamp
    ensures BuffersOk(buffers[symbol := Evict(BufferOf(buffers, symbol) + [last[symbol]], cap)], last[symbol := event], cap)
  {
    var b := Evict(BufferOf(buffers, symbol) + [last[symbol]], cap);
    CloseBarKeepsHistory(BufferOf(buffers, symbol), last[symbol], event, cap);
    InstallKeepsBuffersOk(buffers, last, cap, symbol, b, event);
  }

  /** Replacing the in-progress bar with one of the same timestamp keeps the buffers in order. */
  lemma ReviseBarKeepsBuffersOk(buffers: map<string, seq<Candle>>, last: map<string, Candle>, cap: nat, symbol: string, event: Candle)
    requires BuffersOk(buffers, last, cap)
    requires symbol in last && event.timestamp == last[symbol].timestamp
    ensures BuffersOk(buffers, last[symbol := event], cap)
  {
    assert HistoryOk(BufferOf(buffers, symbol), last[symbol]);
  }

  /** Forgetting the in-progress bar of `symbol` and emptying its buffer keeps the buffers
      in order. */
  lemma DropKeepsBuffersOk(buffers: map<string, seq<Candle>>, last: map<string, Candle>, cap: nat, symbol: string)
    requires BuffersOk(buffers, last, cap)
    ensures BuffersOk(buffers[symbol := []], last - {symbol}, cap)
  {
    var buffers' := buffers[symbol := []];
    forall s | s in last - {symbol}
      ensures HistoryOk(BufferOf(buffers', s), (last - {symbol})[s])
    {
      assert BufferOf(buffers', s) == BufferOf(buffers, s);
    }
  }

  /** `historicalCandles.slice(-required - 1)`: the newest `required + 1` candles. */
  function Bootstrap(history: seq<Candle>, required: nat): (r: seq<Candle>)
    ensures |r| == (if |history| <= required + 1 then |history| else required + 1)
    ensures r == history[|history| - |r|..]
  {
    SliceTail(history, required + 1);
    Slice(history, -(required as int) - 1, |history|)
  }

  /** `pop()`: everything but the newest candle. */
  function Pop(kept: seq<Candle>): (r: seq<Candle>)
    ensures |kept| > 0 ==> r + [kept[|kept| - 1]] == kept
    ensures |kept| == 0 ==> r == []
  {
    if |kept| == 0 then [] else kept[..|kept| - 1]
  }

  /** The bootstrap buffer fits `required` candles and, with the in-progress bar, is in time
      order when the fetched history is. */
  lemma BootstrapKeepsHistory(history: seq<Candle>, required: nat)
    requires Chronological(history)
    requires |Bootstrap(history, required)| > 0
    ensures var kept := Bootstrap(history, required);
      |Pop(kept)| <= required && HistoryOk(Pop(kept), kept[|kept| - 1])
  {
    var kept := Bootstrap(history, required);
    SuffixChronological(history, |history| - |kept|);
    PopBelowNewest(kept);
  }

  lemma SuffixChronological(history: seq<Candle>, k: nat)
    requires Chronological(history) && k <= |history|
    ensures Chronological(history[k..])
  {
    var suffix := history[k..];
    forall i, j | 0 <= i < j < |suffix|
      ensures suffix[i].timestamp < suffix[j].timestamp
    {
      assert suffix[i] == history[k + i] && suffix[j] == history[k + j];
    }
  }

  /** Without its newest candle, a non-empty buffer in time order is older than that candle. */
  lemma PopBelowNewest(kept: seq<Candle>)
    requires Chronological(kept) && |kept| > 0
    ensures HistoryOk(Pop(kept), kept[|kept| - 1])
  {
    forall i | 0 <= i < |Pop(kept)|
      ensures Pop(kept)[i].timestamp < kept[|kept| - 1].timestamp
    {
      assert Pop(kept)[i] == kept[i];
    }
    forall i, j | 0 <= i < j < |Pop(kept)|
      ensures Pop(kept)[i].timestamp < Pop(kept)[j].timestamp
    {
      assert Pop(kept)[i] == kept[i] && Pop(kept)[j] == kept[j];
    }
  }

  /** The indicators `initialize` installs before the first refresh. */
  const ZeroIndicators: Indicators := Indicators(0.0, 0.0, MacdLine(0.0, 0.0, 0.0, Some(0.0), Some(0.0)), false, 0.0, false, 0.0)

  /** Every position of the portfolio map is the position of that symbol in the engine's map. */
  predicate Shared(portfolio: map<string, Position>, active: map<string, Position>) {
    forall s :: s in portfolio ==> s in active && portfolio[s] == active[s]
  }

  /** Only the position of `symbol` may differ between the two maps. */
  predicate SameElsewhere(before: map<string, Position>, after: map<string, Position>, symbol: string) {
    && (forall s :: s in after && s != symbol ==> s in before && after[s] == before[s])
    && (forall s :: s in before && s != symbol ==> s in after)
  }

  /** The positions of `m` whose symbols are in `keep`. */
  function Restrict(m: map<string, Position>, keep: set<string>): (r: map<string, Position>)
    ensures forall s :: s in r <==> s in m && s in keep
    ensures forall s :: s in r ==> r[s] == m[s]
  {
    map s | s in m && s in keep :: m[s]
  }

  lemma RestrictDrop(m: map<string, Position>, keep: set<string>, x: string)
    ensures Restrict(m, keep) - {x} == Restrict(m, keep - {x})
  {
  }

  /** Keeping every key of `m` (and perhaps more) keeps all of `m`. */
  lemma RestrictAll(m: map<string, Position>, extra: set<string>)
    ensures Restrict(m, m.Keys + extra) == m
  {
  }

  /** A sub-map of `m` is kept whole by any superset of `m`'s keys. */
  lemma RestrictSubset(sub: map<string, Position>, keys: set<string>, extra: set<string>)
    requires sub.Keys <= keys
    ensures Restrict(sub, keys + extra) == sub
  {
  }

  // ---------------------------------------------------------------- the ledger's arithmetic

  /** Gross profit of selling `quantity` at `exit` bought at `entry`, less the entry and exit
      fees. */
  function NetPnl(entry: real, exit: real, quantity: real): real {
    (exit - entry) * quantity - (entry * quantity * FeeRate + exit * quantity * FeeRate)
  }

  /** Entry 100, exit 110, quantity 1: gross 10, fees 0.4 + 0.44, net 9.16. */
  lemma NetPnlExample()
    ensures NetPnl(100.0, 110.0, 1.0) == 9.16
  {
  }

  /** What an exit credits to the balance: the sale proceeds less the exit fee. (The entry
      never debits the balance; that line is commented out in the source.) */
  function ExitCredit(price: real, quantity: real): real {
    price * quantity - price * quantity * FeeRate
  }

  /** The net profit is the exit credit less what the position cost with its entry fee, so
      the balance gains exactly the net profit plus the cost basis. */
  lemma NetPnlIsCreditLessCost(entry: real, exit: real, quantity: real)
    ensures NetPnl(entry, exit, quantity) == ExitCredit(exit, quantity) - (entry * quantity + entry * quantity * FeeRate)
  {
  }

  /** The peak-price update: `dbPeak = peak > price ? peak : price`, then
      `Math.max(price, dbPeak || peak || price)` with JavaScript's `||` on numbers. */
  function PeakUpdate(peak: real, price: real): real {
    var dbPeak := if peak > price then peak else price;
    var fallback := if dbPeak != 0.0 then dbPeak else if peak != 0.0 then peak else price;
    Max(price, fallback)
  }

  /** The peak is the high-water mark max(peak, price), so it never decreases; the one
      exception is a zero peak meeting a negative price, where `||` skips the zero peak. */
  lemma PeakIsHighWaterMark(peak: real, price: real)
    requires price != 0.0
    ensures !(peak == 0.0 && price < 0.0) ==> PeakUpdate(peak, price) == Max(peak, price)
    ensures !(peak == 0.0 && price < 0.0) ==> PeakUpdate(peak, price) >= peak
    ensures peak == 0.0 && price < 0.0 ==> PeakUpdate(peak, price) == price
  {
  }

  /** `recentClosePrice`: the tick price if truthy, else the in-progress bar's close. */
  function RecentPrice(currentPrice: Option<real>, lastCandle: map<string, Candle>, symbol: string): (r: Option<real>)
    ensures Truthy(currentPrice) ==> r == currentPrice
  {
    if Truthy(currentPrice) then currentPrice
    else if symbol in lastCandle then Some(lastCandle[symbol].close)
    else None
  }

  /** The position after its peak has been updated with a truthy price. */
  function Marked(p: Position, recent: Option<real>): Position {
    if Truthy(recent) then p.(peakPrice := PeakUpdate(p.peakPrice, recent.value)) else p
  }

  /** Removing a symbol forgets whatever position it was just given. */
  lemma RemoveReplaced(m: map<string, Position>, symbol: string, p: Position)
    ensures m[symbol := p] - {symbol} == m - {symbol}
    ensures WithPosition(m, symbol, p) - {symbol} == m - {symbol}
  {
  }

  /** Replace the position of `symbol` if the map holds one. */
  function WithPosition(m: map<string, Position>, symbol: string, p: Position): (r: map<string, Position>)
    ensures r.Keys == m.Keys
  {
    if symbol in m then m[symbol := p] else m
  }

  /** `Math.min(1, maxVolatility / atrPercent)`; for a zero ATR percentage JavaScript divides
      a positive number by 0, gets +Infinity and the minimum is 1. */
  function VolatilityAdjustment(maxVolatility: real, atrPercent: real): real
    requires maxVolatility > 0.0
  {
    if atrPercent == 0.0 then 1.0 else Min(1.0, maxVolatility / atrPercent)
  }

  /** The size limit the balance allows: balance · max_position_size / price. */
  function AccountCap(balance: real, config: TradingConfig, price: real): real
    requires price != 0.0
  {
    balance * config.maxPositionSize / price
  }

  /** The size the 4 % risk budget allows with the configured stop-loss percentage. */
  function RiskSize(balance: real, config: TradingConfig, price: real): real
    requires ValidConfig(config) && price != 0.0
  {
    balance * 0.04 / (price * (config.stopLossPct / 100.0))
  }

  /** `calculatePositionSize`: the smaller of the account cap and the risk size, scaled by the
      volatility adjustment, and capped again by the account cap. */
  function PositionSize(balance: real, ind: Indicators, config: TradingConfig, price: real): (r: real)
    requires ValidConfig(config) && price != 0.0
    ensures r <= AccountCap(balance, config, price)
  {
    var volatilityAdjustment := VolatilityAdjustment(config.maxVolatility, AtrPercent(ind.atr, price));
    var positionSize := Min(AccountCap(balance, config, price), RiskSize(balance, config, price)) * volatilityAdjustment;
    Min(positionSize, AccountCap(balance, config, price))
  }

  /** With a non-negative balance, size fraction and ATR and a positive price, the size is
      non-negative and within both the account cap and the risk size. */
  lemma PositionSizeBounds(balance: real, ind: Indicators, config: TradingConfig, price: real)
    requires ValidConfig(config) && price > 0.0
    requires balance >= 0.0 && config.maxPositionSize >= 0.0 && ind.atr >= 0.0
    ensures 0.0 <= PositionSize(balance, ind, config, price)
    ensures PositionSize(balance, ind, config, price) <= RiskSize(balance, config, price)
  {
    CapNonNegative(balance, config, price);
    RiskNonNegative(balance, config, price);
    QuotientNonNegative(ind.atr, price);
    AdjustmentWithin(config.maxVolatility, AtrPercent(ind.atr, price));
    ScaledMinWithin(AccountCap(balance, config, price), RiskSize(balance, config, price),
      VolatilityAdjustment(config.maxVolatility, AtrPercent(ind.atr, price)));
  }

  lemma CapNonNegative(balance: real, config: TradingConfig, price: real)
    requires price > 0.0 && balance >= 0.0 && config.maxPositionSize >= 0.0
    ensures AccountCap(balance, config, price) >= 0.0
  {
    ProductNonNegative(balance, config.maxPositionSize);
    QuotientNonNegative(balance * config.maxPositionSize, price);
  }

  lemma RiskNonNegative(balance: real, config: TradingConfig, price: real)
    requires ValidConfig(config) && price > 0.0 && balance >= 0.0
    ensures RiskSize(balance, config, price) >= 0.0
  {
    ProductPositive(price, config.stopLossPct / 100.0);
    ProductNonNegative(balance, 0.04);
    QuotientNonNegative(balance * 0.04, price * (config.stopLossPct / 100.0));
  }

  /** The volatility adjustment lies in (0, 1] for a non-negative ATR percentage. */
  lemma AdjustmentWithin(maxVolatility: real, atrPercent: real)
    requires maxVolatility > 0.0 && atrPercent >= 0.0
    ensures 0.0 < VolatilityAdjustment(maxVolatility, atrPercent) <= 1.0
  {
    if atrPercent != 0.0 {
      QuotientPositive(maxVolatility, atrPercent);
    }
  }

  /** min(min(cap, risk)·adj, cap) lies in [0, risk] for non-negative limits and adj in (0, 1]. */
  lemma ScaledMinWithin(cap: real, risk: real, adj: real)
    requires cap >= 0.0 && risk >= 0.0 && 0.0 < adj <= 1.0
    ensures 0.0 <= Min(Min(cap, risk) * adj, cap) <= risk
  {
    ScaledWithin(Min(cap, risk), adj);
  }

  lemma ProductNonNegative(a: real, b: real)
    requires a >= 0.0 && b >= 0.0
    ensures a * b >= 0.0
  {
  }

  lemma ProductPositive(a: real, b: real)
    requires a > 0.0 && b > 0.0
    ensures a * b > 0.0
  {
  }

  lemma QuotientNonNegative(a: real, b: real)
    requires a >= 0.0 && b > 0.0
    ensures a / b >= 0.0
  {
  }

  lemma QuotientPositive(a: real, b: real)
    requires a > 0.0 && b > 0.0
    ensures a / b > 0.0
  {
  }

  /** Scaling a non-negative amount by a factor in (0, 1] keeps it between 0 and itself. */
  lemma ScaledWithin(m: real, factor: real)
    requires m >= 0.0 && 0.0 < factor <= 1.0
    ensures 0.0 <= m * factor <= m
  {
    assert m * (1.0 - factor) >= 0.0;
  }

  // ---------------------------------------------------------------- the engine's state as values

  /** The ledger: the engine's position map, the portfolio's position map and the balance (the
      available balance is always reset to the balance). */
  datatype Ledger = Ledger(active: map<string, Position>, portfolio: map<string, Position>, balance: real)

  /** The candle side: the in-progress bars, the closed-bar buffers and the indicator snapshots. */
  datatype Bars = Bars(lastCandle: map<string, Candle>, candleBuffer: map<string, seq<Candle>>, indicators: map<string, Indicators>)

  datatype EngineState = EngineState(bars: Bars, books: Ledger)

  datatype Traded = Traded(outcome: TradeOutcome, books: Ledger)

  datatype Opening = Opening(outcome: OpenOutcome, books: Ledger)

  /** `updateTrades` on values: mark the position's peak with the recent price, then hold it,
      report the failed exchange sell, or settle the exit at that price. */
  function TradeStep(config: TradingConfig, lastCandle: map<string, Candle>, indicators: map<string, Indicators>,
                     books: Ledger, symbol: string, currentPrice: Option<real>, exitOrderOk: bool): Traded
  {
    if symbol !in books.active then Traded(NoPosition, books)
    else if symbol !in indicators then Traded(NoIndicators, books)
    else
      var recent := RecentPrice(currentPrice, lastCandle, symbol);
      var p := Marked(books.active[symbol], recent);
      var marked := Ledger(books.active[symbol := p], WithPosition(books.portfolio, symbol, p), books.balance);
      var signal := AnalyzeExit(p, indicators[symbol], config, recent, Some(p.peakPrice));
      if !(signal.shouldExit && Truthy(recent)) then Traded(Held(signal.reason), marked)
      else if config.tradeOnKraken && !exitOrderOk then Traded(ExitOrderFailed, marked)
      else Traded(Exited(signal.reason, NetPnl(p.entryPrice, recent.value, p.quantity)),
                  Ledger(books.active - {symbol}, books.portfolio - {symbol}, books.balance + ExitCredit(recent.value, p.quantity)))
  }

  /** How `createPosition` reads the entry decision. As written it reads `result.shouldEnter`
      where `result` is the bare boolean `analyzeEntry` returns, and the rules receive the RSI
      record; as intended it takes the decision itself, made on the numeric current RSI. */
  datatype DecisionReading = AsWritten | Intended

  /** `result.shouldEnter` for a boolean `result`: a boolean has no `shouldEnter` property, so
      the read gives `undefined`, which is falsy whatever the boolean was. */
  function ShouldEnterOfBoolean(result: bool): bool {
    false
  }

  function EntryDecision(reading: DecisionReading, ind: Indicators, config: TradingConfig, price: real): bool
    requires price != 0.0
  {
    match reading
    case AsWritten => ShouldEnterOfBoolean(AnalyzeEntry(RsiRecord(ind.currentRsi, ind.previousRsi), ind, config, price))
    case Intended => AnalyzeEntry(Plain(ind.currentRsi), ind, config, price)
  }

  /** `createPosition` on values: the gates, the entry decision, the exchange order and the
      paper-trade switch; then one new position in both maps, taken out of the portfolio map
      again when the record insert fails. */
  function OpenStep(config: TradingConfig, reading: DecisionReading, placeNewOrder: bool, lastCandle: map<string, Candle>,
                    indicators: map<string, Indicators>, books: Ledger, symbol: string,
                    entryOrderOk: bool, insertOk: bool, now: int): Opening
    requires ValidConfig(config)
  {
    if symbol in books.active && placeNewOrder then Opening(AlreadyOpen, books)
    else if symbol !in indicators then Opening(MissingIndicators, books)
    else if |books.active| >= config.maxPositions then Opening(MaxPositionsReached, books)
    else if !(symbol in lastCandle && lastCandle[symbol].close != 0.0) then Opening(NoPrice, books)
    else
      var price := lastCandle[symbol].close;
      if !EntryDecision(reading, indicators[symbol], config, price) then Opening(NotEntered, books)
      else if config.tradeOnKraken && !entryOrderOk then Opening(EntryOrderFailed, books)
      else if !config.paperTrade then Opening(NotPaperTrading, books)
      else
        var p := Position(price, PositionSize(books.balance, indicators[symbol], config, price), config.strategyType, now, price);
        if insertOk then Opening(Opened(p), Ledger(books.active[symbol := p], books.portfolio[symbol := p], books.balance))
        else Opening(RolledBack(p), Ledger(books.active[symbol := p], books.portfolio - {symbol}, books.balance))
  }

  /** The trading step of `updateIndicators`: the exit check without a tick price, then the
      entry attempt, both on the refreshed indicators. */
  function RefreshTrades(config: TradingConfig, placeNewOrder: bool, lastCandle: map<string, Candle>,
                         indicators: map<string, Indicators>, books: Ledger, symbol: string, ext: Externals): Ledger
    requires ValidConfig(config)
  {
    var afterExit := TradeStep(config, lastCandle, indicators, books, symbol, None, ext.exitOrderOk).books;
    OpenStep(config, Intended, placeNewOrder, lastCandle, indicators, afterExit, symbol, ext.entryOrderOk, ext.insertOk, ext.now).books
  }

  /** `updateIndicators` on values: nothing below the minimum; otherwise a new snapshot for
      `symbol`, then the trading step. */
  ghost function RefreshStep(config: TradingConfig, placeNewOrder: bool, bars: Bars, books: Ledger,
                             symbol: string, candles: seq<Candle>, ext: Externals): EngineState
    requires ValidConfig(config)
  {
    if |candles| < config.minimumRequiredCandles then EngineState(bars, books)
    else
      var refreshed := bars.(indicators := bars.indicators[symbol := Snapshot(candles, config)]);
      EngineState(refreshed, RefreshTrades(config, placeNewOrder, refreshed.lastCandle, refreshed.indicators, books, symbol, ext))
  }

  /** The bootstrap of one symbol in `initialize`, before the first refresh. */
  function InstallStep(config: TradingConfig, bars: Bars, symbol: string, history: seq<Candle>): Bars {
    var kept := Bootstrap(history, config.longEmaPeriod * 4);
    Bars(if |kept| == 0 then bars.lastCandle - {symbol} else bars.lastCandle[symbol := kept[|kept| - 1]],
         bars.candleBuffer[symbol := Pop(kept)],
         bars.indicators[symbol := ZeroIndicators])
  }

  /** The event is newer than the symbol's in-progress bar. */
  predicate ClosesBar(lastCandle: map<string, Candle>, symbol: string, event: Candle) {
    symbol in lastCandle && event.timestamp > lastCandle[symbol].timestamp
  }

  /** The candle side of one OHLC event: a newer bar closes the in-progress one into the
      evicted buffer, a same-time bar with a change replaces it, anything else is dropped. */
  function CandleStep(config: TradingConfig, bars: Bars, symbol: string, event: Candle): Bars {
    if ClosesBar(bars.lastCandle, symbol, event) then
      var buffer := Evict(BufferOf(bars.candleBuffer, symbol) + [bars.lastCandle[symbol]], Capacity(config));
      bars.(lastCandle := bars.lastCandle[symbol := event], candleBuffer := bars.candleBuffer[symbol := buffer])
    else if symbol in bars.lastCandle && event.timestamp == bars.lastCandle[symbol].timestamp && Revises(bars.lastCandle[symbol], event) then
      bars.(lastCandle := bars.lastCandle[symbol := event])
    else bars
  }

  /** The closing case of `CandleStep` spelled out. */
  lemma ClosingStep(config: TradingConfig, bars: Bars, symbol: string, event: Candle)
    requires ClosesBar(bars.lastCandle, symbol, event)
    ensures CandleStep(config, bars, symbol, event)
         == Bars(bars.lastCandle[symbol := event],
                 bars.candleBuffer[symbol := Evict(BufferOf(bars.candleBuffer, symbol) + [bars.lastCandle[symbol]], Capacity(config))],
                 bars.indicators)
  {
  }

  /** One OHLC event: the candle side, then on a closed bar the refresh from the new buffer. */
  ghost function EventStep(config: TradingConfig, placeNewOrder: bool, s: EngineState, symbol: string, event: Candle, ext: Externals): EngineState
    requires ValidConfig(config)
  {
    var bars := CandleStep(config, s.bars, symbol, event);
    if ClosesBar(s.bars.lastCandle, symbol, event) then
      RefreshStep(config, placeNewOrder, bars, s.books, symbol, BufferOf(bars.candleBuffer, symbol), ext)
    else EngineState(bars, s.books)
  }

  /** Delivering the same bar event twice changes nothing the second time: the event is
      then the in-progress bar itself, neither newer nor a revision of it. */
  lemma RedeliveryIsNoOp(config: TradingConfig, placeNewOrder: bool, s: EngineState, symbol: string,
                         event: Candle, ext: Externals, ext2: Externals)
    requires ValidConfig(config)
    ensures var once := EventStep(config, placeNewOrder, s, symbol, event, ext);
      EventStep(config, placeNewOrder, once, symbol, event, ext2) == once
  {
    var once := EventStep(config, placeNewOrder, s, symbol, event, ext);
    if ClosesBar(s.bars.lastCandle, symbol, event)
       || (symbol in s.bars.lastCandle && event.timestamp == s.bars.lastCandle[symbol].timestamp
           && Revises(s.bars.lastCandle[symbol], event)) {
      assert once.bars.lastCandle == s.bars.lastCandle[symbol := event];
    } else {
      OpenBarEventKeepsHistory(config, placeNewOrder, s, symbol, event, ext);
    }
    OpenBarEventKeepsHistory(config, placeNewOrder, once, symbol, event, ext2);
  }

  /** An event that does not close a bar never trades and leaves the buffers and indicators
      alone: a same-time bar with a change replaces the in-progress bar, and an equal, older
      or unknown-symbol event changes nothing at all. */
  lemma OpenBarEventKeepsHistory(config: TradingConfig, placeNewOrder: bool, s: EngineState, symbol: string,
                                 event: Candle, ext: Externals)
    requires ValidConfig(config)
    requires !ClosesBar(s.bars.lastCandle, symbol, event)
    ensures var r := EventStep(config, placeNewOrder, s, symbol, event, ext);
      && r.books == s.books
      && r.bars.candleBuffer == s.bars.candleBuffer
      && r.bars.indicators == s.bars.indicators
      && (if symbol in s.bars.lastCandle && event.timestamp == s.bars.lastCandle[symbol].timestamp
             && Revises(s.bars.lastCandle[symbol], event)
          then r.bars.lastCandle == s.bars.lastCandle[symbol := event]
          else r == s)
  {
  }

  /** The OHLC events of one message, in order; event i sees the outcomes `externals(i)`. */
  ghost function EventsFold(config: TradingConfig, placeNewOrder: bool, s: EngineState,
                            events: seq<(string, Candle)>, externals: nat -> Externals): EngineState
    requires ValidConfig(config)
    decreases |events|
  {
    if |events| == 0 then s
    else
      var n := |events| - 1;
      EventStep(config, placeNewOrder, EventsFold(config, placeNewOrder, s, events[..n], externals), events[n].0, events[n].1, externals(n))
  }

  /** The trade ticks of one message, in order, each an `updateTrades` with its price; tick i
      sees the exchange outcome `exitOrders(i)`. */
  function TicksFold(config: TradingConfig, lastCandle: map<string, Candle>, indicators: map<string, Indicators>,
                     books: Ledger, ticks: seq<(string, real)>, exitOrders: nat -> bool): Ledger
    decreases |ticks|
  {
    if |ticks| == 0 then books
    else
      var n := |ticks| - 1;
      var before := TicksFold(config, lastCandle, indicators, books, ticks[..n], exitOrders);
      TradeStep(config, lastCandle, indicators, before, ticks[n].0, Some(ticks[n].1), exitOrders(n)).books
  }

  /** An exit check touches no other symbol's position and keeps the portfolio's positions the
      engine's own. */
  lemma TradeStepKeepsOthers(config: TradingConfig, lastCandle: map<string, Candle>, indicators: map<string, Indicators>,
                             books: Ledger, symbol: string, currentPrice: Option<real>, exitOrderOk: bool)
    ensures var after := TradeStep(config, lastCandle, indicators, books, symbol, currentPrice, exitOrderOk).books;
      && SameElsewhere(books.active, after.active, symbol)
      && SameElsewhere(books.portfolio, after.portfolio, symbol)
      && (Shared(books.portfolio, books.active) ==> Shared(after.portfolio, after.active))
  {
    if symbol in books.active && symbol in indicators {
      var p := Marked(books.active[symbol], RecentPrice(currentPrice, lastCandle, symbol));
      MarkKeepsOthers(books, symbol, p);
      DropKeepsOthers(books, symbol);
    }
  }

  /** Replacing the open position of `symbol` in both maps changes no other symbol and keeps
      the portfolio's positions the engine's own. */
  lemma MarkKeepsOthers(books: Ledger, symbol: string, p: Position)
    requires symbol in books.active
    ensures var active, portfolio := books.active[symbol := p], WithPosition(books.portfolio, symbol, p);
      && SameElsewhere(books.active, active, symbol)
      && SameElsewhere(books.portfolio, portfolio, symbol)
      && (Shared(books.portfolio, books.active) ==> Shared(portfolio, active))
  {
  }

  /** Dropping `symbol` from both maps changes no other symbol and keeps the portfolio's
      positions the engine's own. */
  lemma DropKeepsOthers(books: Ledger, symbol: string)
    ensures var active, portfolio := books.active - {symbol}, books.portfolio - {symbol};
      && SameElsewhere(books.active, active, symbol)
      && SameElsewhere(books.portfolio, portfolio, symbol)
      && (Shared(books.portfolio, books.active) ==> Shared(portfolio, active))
  {
  }

  /** On an exit the position leaves both maps and the balance grows by the reported net profit
      plus the position's cost with its entry fee; without an exit the balance stays and the
      position stays, its peak raised by the recent price. */
  lemma TradeStepSettles(config: TradingConfig, lastCandle: map<string, Candle>, indicators: map<string, Indicators>,
                         books: Ledger, symbol: string, currentPrice: Option<real>, exitOrderOk: bool)
    ensures var r := TradeStep(config, lastCandle, indicators, books, symbol, currentPrice, exitOrderOk);
      && (r.outcome.Exited? ==>
            && symbol in books.active && symbol !in r.books.active && symbol !in r.books.portfolio
            && var p := books.active[symbol];
               r.books.balance == books.balance + r.outcome.netPnl + (p.entryPrice * p.quantity + p.entryPrice * p.quantity * FeeRate))
      && (!r.outcome.Exited? ==> r.books.balance == books.balance && r.books.active.Keys == books.active.Keys)
      && (r.outcome.Held? || r.outcome.ExitOrderFailed? ==>
            r.books.active[symbol] == Marked(books.active[symbol], RecentPrice(currentPrice, lastCandle, symbol)))
  {
    var r := TradeStep(config, lastCandle, indicators, books, symbol, currentPrice, exitOrderOk);
    if r.outcome.Exited? {
      var recent := RecentPrice(currentPrice, lastCandle, symbol);
      var p := Marked(books.active[symbol], recent);
      NetPnlIsCreditLessCost(p.entryPrice, recent.value, p.quantity);
    }
  }

  /** An entry attempt touches no other symbol's position, never changes the balance, keeps
      the portfolio's positions the engine's own and never exceeds the position limit. */
  lemma OpenStepKeepsOthers(config: TradingConfig, reading: DecisionReading, placeNewOrder: bool, lastCandle: map<string, Candle>,
                            indicators: map<string, Indicators>, books: Ledger, symbol: string,
                            entryOrderOk: bool, insertOk: bool, now: int)
    requires ValidConfig(config)
    ensures var after := OpenStep(config, reading, placeNewOrder, lastCandle, indicators, books, symbol, entryOrderOk, insertOk, now).books;
      && SameElsewhere(books.active, after.active, symbol)
      && SameElsewhere(books.portfolio, after.portfolio, symbol)
      && after.balance == books.balance
      && (Shared(books.portfolio, books.active) ==> Shared(after.portfolio, after.active))
      && (|books.active| <= config.maxPositions ==> |after.active| <= config.maxPositions)
  {
    var r := OpenStep(config, reading, placeNewOrder, lastCandle, indicators, books, symbol, entryOrderOk, insertOk, now);
    OpenStepInstalls(config, reading, placeNewOrder, lastCandle, indicators, books, symbol, entryOrderOk, insertOk, now);
    if r.outcome.Opened? || r.outcome.RolledBack? {
      InstallKeepsOthers(books, symbol, r.outcome.position, insertOk, config.maxPositions);
    }
  }

  /** One new position in the engine's map, and in the portfolio's map when `kept`, changes no
      other symbol, keeps the portfolio's positions the engine's own and adds at most one. */
  lemma InstallKeepsOthers(books: Ledger, symbol: string, p: Position, kept: bool, maxPositions: int)
    ensures var active := books.active[symbol := p];
      var portfolio := if kept then books.portfolio[symbol := p] else books.portfolio - {symbol};
      && SameElsewhere(books.active, active, symbol)
      && SameElsewhere(books.portfolio, portfolio, symbol)
      && (Shared(books.portfolio, books.active) ==> Shared(portfolio, active))
      && (|books.active| < maxPositions ==> |active| <= maxPositions)
  {
    InsertAddsAtMostOne(books.active, symbol, p);
  }

  lemma InsertAddsAtMostOne(m: map<string, Position>, symbol: string, p: Position)
    ensures |m[symbol := p]| <= |m| + 1
  {
    if symbol in m {
      assert m[symbol := p].Keys == m.Keys;
    } else {
      assert m[symbol := p].Keys == m.Keys + {symbol};
    }
  }

  /** A position is installed exactly when every gate passes, the decision is to enter, the
      exchange order goes through and paper trading is on. It is entered and peaked at the
      in-progress close, sized within the account cap, and stays in the portfolio map exactly
      when the record insert succeeds. */
  lemma OpenStepInstalls(config: TradingConfig, reading: DecisionReading, placeNewOrder: bool, lastCandle: map<string, Candle>,
                         indicators: map<string, Indicators>, books: Ledger, symbol: string,
                         entryOrderOk: bool, insertOk: bool, now: int)
    requires ValidConfig(config)
    ensures var r := OpenStep(config, reading, placeNewOrder, lastCandle, indicators, books, symbol, entryOrderOk, insertOk, now);
      && ((r.outcome.Opened? || r.outcome.RolledBack?) <==>
            && !(symbol in books.active && placeNewOrder) && symbol in indicators
            && |books.active| < config.maxPositions
            && symbol in lastCandle && lastCandle[symbol].close != 0.0
            && EntryDecision(reading, indicators[symbol], config, lastCandle[symbol].close)
            && !(config.tradeOnKraken && !entryOrderOk) && config.paperTrade)
      && ((r.outcome.Opened? || r.outcome.RolledBack?) ==>
            var price := lastCandle[symbol].close;
            && r.outcome.position.entryPrice == price && r.outcome.position.peakPrice == price
            && r.outcome.position.quantity <= AccountCap(books.balance, config, price)
            && r.books.active == books.active[symbol := r.outcome.position]
            && (r.outcome.Opened? <==> insertOk)
            && r.books.portfolio == (if insertOk then books.portfolio[symbol := r.outcome.position] else books.portfolio - {symbol})
            && r.books.balance == books.balance)
      && (!(r.outcome.Opened? || r.outcome.RolledBack?) ==> r.books == books)
  {
  }

  /** As written the engine never opens a position: `shouldEnter` read off a boolean is
      falsy, so every attempt ends at the decision, at the latest, and leaves the ledger as it
      was. */
  lemma AsWrittenNeverOpens(config: TradingConfig, placeNewOrder: bool, lastCandle: map<string, Candle>,
                            indicators: map<string, Indicators>, books: Ledger, symbol: string,
                            entryOrderOk: bool, insertOk: bool, now: int)
    requires ValidConfig(config)
    ensures var r := OpenStep(config, AsWritten, placeNewOrder, lastCandle, indicators, books, symbol, entryOrderOk, insertOk, now);
      r.books == books && !r.outcome.Opened? && !r.outcome.RolledBack?
  {
  }

  /** With the decision read as intended, a position is opened only when the configured rule
      enters on the numeric current RSI at the in-progress close. */
  lemma IntendedOpensOnlyOnEntry(config: TradingConfig, placeNewOrder: bool, lastCandle: map<string, Candle>,
                                 indicators: map<string, Indicators>, books: Ledger, symbol: string,
                                 entryOrderOk: bool, insertOk: bool, now: int)
    requires ValidConfig(config)
    ensures var r := OpenStep(config, Intended, placeNewOrder, lastCandle, indicators, books, symbol, entryOrderOk, insertOk, now);
      (r.outcome.Opened? || r.outcome.RolledBack?) ==>
        && symbol in lastCandle && lastCandle[symbol].close != 0.0 && symbol in indicators
        && EntranceStrategy(Plain(indicators[symbol].currentRsi), indicators[symbol], config, lastCandle[symbol].close).shouldEnter
  {
  }

  /** The mean-reversion preset as the source gives it leaves `paperTrade` undefined, so no
      attempt records a position, whatever the decision and the outcomes. */
  lemma PresetNeverPaperTrades(reading: DecisionReading, placeNewOrder: bool, lastCandle: map<string, Candle>,
                               indicators: map<string, Indicators>, books: Ledger, symbol: string,
                               entryOrderOk: bool, insertOk: bool, now: int)
    ensures ValidConfig(MeanReversionPreset())
    ensures var r := OpenStep(MeanReversionPreset(), reading, placeNewOrder, lastCandle, indicators, books, symbol, entryOrderOk, insertOk, now);
      r.books == books && !r.outcome.Opened? && !r.outcome.RolledBack?
  {
    MeanReversionPresetIsValid();
  }

  /** With the decision read as intended and paper trading switched on, the mean-reversion
      preset does open a position: an oversold RSI of 20 with the MACD crossing up and a
      volume spike, at a close of 10. */
  lemma IntendedCanOpen()
    ensures ValidConfig(MeanReversionPreset().(paperTrade := true))
    ensures var ind := Indicators(20.0, 22.0, MacdLine(0.5, 0.2, 0.3, Some(10.2), Some(9.7)), true, 10.0, false, 0.1);
      var bar := Candle(0, 10.0, 10.0, 10.0, 10.0, 1.0);
      var r := OpenStep(MeanReversionPreset().(paperTrade := true), Intended, true, map["XBT/USD" := bar], map["XBT/USD" := ind],
                        Ledger(map[], map[], 10000.0), "XBT/USD", true, true, 0);
      r.outcome.Opened? && "XBT/USD" in r.books.active && "XBT/USD" in r.books.portfolio
  {
    var ind := Indicators(20.0, 22.0, MacdLine(0.5, 0.2, 0.3, Some(10.2), Some(9.7)), true, 10.0, false, 0.1);
    MeanReversionPresetIsValid();
    assert AnalyzeEntry(Plain(ind.currentRsi), ind, MeanReversionPreset().(paperTrade := true), 10.0);
  }

  /** Ticks leave the positions of every symbol that no tick names as they were. */
  lemma {:induction false} TicksKeepUntouched(config: TradingConfig, lastCandle: map<string, Candle>, indicators: map<string, Indicators>,
                                              books: Ledger, ticks: seq<(string, real)>, exitOrders: nat -> bool, s: string)
    requires forall i :: 0 <= i < |ticks| ==> ticks[i].0 != s
    ensures var after := TicksFold(config, lastCandle, indicators, books, ticks, exitOrders);
      && (s in after.active <==> s in books.active)
      && (s in after.active ==> after.active[s] == books.active[s])
      && (s in after.portfolio <==> s in books.portfolio)
      && (s in after.portfolio ==> after.portfolio[s] == books.portfolio[s])
    decreases |ticks|
  {
    if |ticks| > 0 {
      var n := |ticks| - 1;
      TicksKeepUntouched(config, lastCandle, indicators, books, ticks[..n], exitOrders, s);
      var before := TicksFold(config, lastCandle, indicators, books, ticks[..n], exitOrders);
      TradeStepKeepsOthers(config, lastCandle, indicators, before, ticks[n].0, Some(ticks[n].1), exitOrders(n));
    }
  }

  /** The candle side of one event keeps every buffer bounded and in time order. */
  lemma CandleStepKeepsBuffersOk(config: TradingConfig, bars: Bars, symbol: string, event: Candle)
    requires BuffersOk(bars.candleBuffer, bars.lastCandle, Capacity(config))
    ensures var r := CandleStep(config, bars, symbol, event);
      BuffersOk(r.candleBuffer, r.lastCandle, Capacity(config))
  {
    if ClosesBar(bars.lastCandle, symbol, event) {
      CloseBarKeepsBuffersOk(bars.candleBuffer, bars.lastCandle, Capacity(config), symbol, event);
    } else if symbol in bars.lastCandle && event.timestamp == bars.lastCandle[symbol].timestamp {
      ReviseBarKeepsBuffersOk(bars.candleBuffer, bars.lastCandle, Capacity(config), symbol, event);
    }
  }

  /** A whole message of OHLC events keeps every buffer bounded and in time order, and the
      portfolio's positions the engine's own. */
  lemma {:induction false} EventsFoldKeepsInvariant(config: TradingConfig, placeNewOrder: bool, s: EngineState,
                                                    events: seq<(string, Candle)>, externals: nat -> Externals)
    requires ValidConfig(config)
    requires BuffersOk(s.bars.candleBuffer, s.bars.lastCandle, Capacity(config))
    requires Shared(s.books.portfolio, s.books.active)
    ensures var r := EventsFold(config, placeNewOrder, s, events, externals);
      BuffersOk(r.bars.candleBuffer, r.bars.lastCandle, Capacity(config)) && Shared(r.books.portfolio, r.books.active)
    decreases |events|
  {
    if |events| > 0 {
      var n := |events| - 1;
      EventsFoldKeepsInvariant(config, placeNewOrder, s, events[..n], externals);
      var mid := EventsFold(config, placeNewOrder, s, events[..n], externals);
      EventStepKeepsInvariant(config, placeNewOrder, mid, events[n].0, events[n].1, externals(n));
    }
  }

  /** One OHLC event keeps every buffer bounded and in time order, and the portfolio's
      positions the engine's own. */
  lemma EventStepKeepsInvariant(config: TradingConfig, placeNewOrder: bool, s: EngineState, symbol: string, event: Candle, ext: Externals)
    requires ValidConfig(config)
    requires BuffersOk(s.bars.candleBuffer, s.bars.lastCandle, Capacity(config))
    requires Shared(s.books.portfolio, s.books.active)
    ensures var r := EventStep(config, placeNewOrder, s, symbol, event, ext);
      BuffersOk(r.bars.candleBuffer, r.bars.lastCandle, Capacity(config)) && Shared(r.books.portfolio, r.books.active)
  {
    CandleStepKeepsBuffersOk(config, s.bars, symbol, event);
    if ClosesBar(s.bars.lastCandle, symbol, event) {
      var bars := CandleStep(config, s.bars, symbol, event);
      var candles := BufferOf(bars.candleBuffer, symbol);
      if |candles| >= config.minimumRequiredCandles {
        RefreshKeepsShared(config, placeNewOrder, bars.lastCandle, bars.indicators[symbol := Snapshot(candles, config)], s.books, symbol, ext);
      }
    }
  }

  lemma RefreshKeepsShared(config: TradingConfig, placeNewOrder: bool, lastCandle: map<string, Candle>,
                           indicators: map<string, Indicators>, books: Ledger, symbol: string, ext: Externals)
    requires ValidConfig(config) && Shared(books.portfolio, books.active)
    ensures var after := RefreshTrades(config, placeNewOrder, lastCandle, indicators, books, symbol, ext);
      Shared(after.portfolio, after.active) && SameElsewhere(books.active, after.active, symbol)
  {
    var afterExit := TradeStep(config, lastCandle, indicators, books, symbol, None, ext.exitOrderOk).books;
    TradeStepKeepsOthers(config, lastCandle, indicators, books, symbol, None, ext.exitOrderOk);
    OpenStepKeepsOthers(config, Intended, placeNewOrder, lastCandle, indicators, afterExit, symbol, ext.entryOrderOk, ext.insertOk, ext.now);
  }

  /** The candle side of a message depends only on the candle side before it: neither the
      ledger nor the outcomes of the exchange and database calls change the bars, buffers or
      indicators. */
  lemma {:induction false} CandleSideIgnoresLedger(config: TradingConfig, placeNewOrder: bool, placeNewOrder': bool, bars: Bars,
                                                   books: Ledger, books': Ledger, events: seq<(string, Candle)>,
                                                   externals: nat -> Externals, externals': nat -> Externals)
    requires ValidConfig(config)
    ensures EventsFold(config, placeNewOrder, EngineState(bars, books), events, externals).bars
         == EventsFold(config, placeNewOrder', EngineState(bars, books'), events, externals').bars
    decreases |events|
  {
    if |events| > 0 {
      var n := |events| - 1;
      CandleSideIgnoresLedger(config, placeNewOrder, placeNewOrder', bars, books, books', events[..n], externals, externals');
      var mid := EventsFold(config, placeNewOrder, EngineState(bars, books), events[..n], externals);
      var mid' := EventsFold(config, placeNewOrder', EngineState(bars, books'), events[..n], externals');
      EventStepBarsOnly(config, placeNewOrder, mid, events[n].0, events[n].1, externals(n));
      EventStepBarsOnly(config, placeNewOrder', mid', events[n].0, events[n].1, externals'(n));
    }
  }

  /** The candle side of one event, which the ledger does not enter: the bar is ingested and,
      when it closed a bar and the buffer is long enough, the symbol's snapshot is recomputed. */
  function EventBars(config: TradingConfig, bars: Bars, symbol: string, event: Candle): (r: Bars)
    requires ValidConfig(config)
    ensures r.lastCandle == CandleStep(config, bars, symbol, event).lastCandle
    ensures r.candleBuffer == CandleStep(config, bars, symbol, event).candleBuffer
  {
    var ingested := CandleStep(config, bars, symbol, event);
    var candles := BufferOf(ingested.candleBuffer, symbol);
    if ClosesBar(bars.lastCandle, symbol, event) && |candles| >= config.minimumRequiredCandles then
      ingested.(indicators := ingested.indicators[symbol := Snapshot(candles, config)])
    else ingested
  }

  lemma EventStepBarsOnly(config: TradingConfig, placeNewOrder: bool, s: EngineState, symbol: string, event: Candle, ext: Externals)
    requires ValidConfig(config)
    ensures EventStep(config, placeNewOrder, s, symbol, event, ext).bars == EventBars(config, s.bars, symbol, event)
  {
  }

  // ---------------------------------------------------------------- the engine

  class TradingEngine {
    const config: TradingConfig
    /** The engine's open positions. */
    var activePositions: map<string, Position>
    /** `portfolio.positions`: after `initialize` a map of its own, not `activePositions`. */
    var portfolioPositions: map<string, Position>
    var balance: real
    var availableBalance: real
    var indicators: map<string, Indicators>
    /** The in-progress bar of each symbol. */
    var lastCandle: map<string, Candle>
    /** The closed bars of each symbol, oldest first. */
    var candleBuffer: map<string, seq<Candle>>
    var placeNewOrder: bool

    /** The engine's invariant. Both position maps hold the same position objects (the entry
        path inserts one object into both), so every entry of the portfolio map is the
        position of that symbol in `activePositions`; the available balance is always reset
        to the balance; each buffer fits its capacity and, with its in-progress bar, is in
        strict time order. */
    ghost predicate Valid()
      reads this
    {
      && ValidConfig(config)
      && availableBalance == balance
      && Shared(portfolioPositions, activePositions)
      && BuffersOk(candleBuffer, lastCandle, Capacity(config))
    }

    /** The ledger as a value. */
    function Books(): Ledger
      reads this
    {
      Ledger(activePositions, portfolioPositions, balance)
    }

    /** The candle side as a value. */
    function BarsOf(): Bars
      reads this
    {
      Bars(lastCandle, candleBuffer, indicators)
    }

    function State(): EngineState
      reads this
    {
      EngineState(BarsOf(), Books())
    }

    /** A new engine after `initialize` has installed the portfolio of
        src/portfolio/portfolio.ts: balance and available balance both `tradeBalance`, and
        a position map of its own, so the given open positions are not in it. No symbol has
        candles or indicators yet. */
    constructor (config: TradingConfig, activePositions: map<string, Position>)
      requires ValidConfig(config)
      ensures Valid()
      ensures this.config == config && this.activePositions == activePositions && portfolioPositions == map[]
      ensures balance == config.tradeBalance && availableBalance == config.tradeBalance
      ensures lastCandle == map[] && candleBuffer == map[] && indicators == map[]
      ensures placeNewOrder
    {
      this.config := config;
      this.activePositions := activePositions;
      this.indicators := map[];
      this.lastCandle := map[];
      this.candleBuffer := map[];
      this.placeNewOrder := true;
      this.portfolioPositions := map[];
      this.balance := config.tradeBalance;
      this.availableBalance := config.tradeBalance;
    }

    /** The per-symbol bootstrap of `initialize`, given the fetched history (oldest first):
        keep the last 4 × longEmaPeriod + 1 candles, make the newest of them the in-progress
        bar and the rest the buffer, zero the indicators and run `updateIndicators` on the
        buffer. An empty history leaves the in-progress bar undefined, which the OHLC branch
        treats as an unknown symbol. */
    method LoadHistory(symbol: string, history: seq<Candle>, ext: Externals) returns (buffer: seq<Candle>)
      requires Valid() && Chronological(history)
      modifies this`lastCandle, this`candleBuffer, this`indicators, this`activePositions, this`portfolioPositions, this`balance, this`availableBalance
      ensures Valid()
      ensures buffer == Pop(Bootstrap(history, config.longEmaPeriod * 4))
      ensures State() == RefreshStep(config, placeNewOrder, InstallStep(config, old(BarsOf()), symbol, history), old(Books()), symbol, buffer, ext)
    {
      buffer := InstallHistory(symbol, history);
      UpdateIndicators(symbol, buffer, ext);
    }

    /** The bootstrap of one symbol's candles, before the first indicator refresh. */
    method InstallHistory(symbol: string, history: seq<Candle>) returns (buffer: seq<Candle>)
      requires Valid() && Chronological(history)
      modifies this`lastCandle, this`candleBuffer, this`indicators
      ensures Valid()
      ensures buffer == Pop(Bootstrap(history, config.longEmaPeriod * 4))
      ensures BarsOf() == InstallStep(config, old(BarsOf()), symbol, history)
    {
      var requiredCandles := config.longEmaPeriod * 4;
      var historicalCandles := Bootstrap(history, requiredCandles);
      buffer := Pop(historicalCandles);
      if |historicalCandles| == 0 {
        ForgetBars(symbol);
      } else {
        BootstrapKeepsHistory(history, requiredCandles);
        InstallBars(symbol, buffer, historicalCandles[|historicalCandles| - 1]);
      }
    }

    /** An empty history: the in-progress bar is undefined, the buffer empty, the indicators
        zeroed. */
    method ForgetBars(symbol: string)
      requires Valid()
      modifies this`lastCandle, this`candleBuffer, this`indicators
      ensures Valid()
      ensures lastCandle == old(lastCandle) - {symbol}
      ensures candleBuffer == old(candleBuffer)[symbol := []]
      ensures indicators == old(indicators)[symbol := ZeroIndicators]
    {
      DropKeepsBuffersOk(candleBuffer, lastCandle, Capacity(config), symbol);
      lastCandle := lastCandle - {symbol};
      candleBuffer := candleBuffer[symbol := []];
      indicators := indicators[symbol := ZeroIndicators];
    }

    /** A bootstrap buffer and its in-progress bar installed, with zeroed indicators. */
    method InstallBars(symbol: string, buffer: seq<Candle>, last: Candle)
      requires Valid() && |buffer| <= Capacity(config) && HistoryOk(buffer, last)
      modifies this`lastCandle, this`candleBuffer, this`indicators
      ensures Valid()
      ensures lastCandle == old(lastCandle)[symbol := last]
      ensures candleBuffer == old(candleBuffer)[symbol := buffer]
      ensures indicators == old(indicators)[symbol := ZeroIndicators]
    {
      InstallKeepsBuffersOk(candleBuffer, lastCandle, Capacity(config), symbol, buffer, last);
      lastCandle := lastCandle[symbol := last];
      candleBuffer := candleBuffer[symbol := buffer];
      indicators := indicators[symbol := ZeroIndicators];
    }

    /** The OHLC branch of `handleWebSocketMessage` for one event, up to the indicator
        refresh: a newer bar closes the in-progress one into the buffer, a same-time bar with
        a changed high, low, close or volume replaces it, anything else is dropped. */
    method IngestCandle(symbol: string, event: Candle) returns (change: CandleChange)
      requires Valid()
      modifies this`lastCandle, this`candleBuffer
      ensures Valid()
      ensures change == Closed <==> ClosesBar(old(lastCandle), symbol, event)
      ensures change == Revised <==>
        symbol in old(lastCandle) && event.timestamp == old(lastCandle)[symbol].timestamp && Revises(old(lastCandle)[symbol], event)
      ensures BarsOf() == CandleStep(config, old(BarsOf()), symbol, event)
    {
      change := Ignored;
      if symbol in lastCandle {
        var last := lastCandle[symbol];
        if event.timestamp > last.timestamp {
          var buffer := BufferOf(candleBuffer, symbol) + [last];
          var requiredCandles := Capacity(config);
          buffer := EvictOldest(buffer, requiredCandles);
          CloseBar(symbol, event, buffer);
          ClosingStep(config, old(BarsOf()), symbol, event);
          change := Closed;
        } else if event.timestamp == last.timestamp {
          if Revises(last, event) {
            ReviseBar(symbol, event);
            change := Revised;
          }
        }
      }
    }

    /** A newer bar: the event becomes the in-progress bar and `buffer`, the old buffer with
        the closed bar appended and its oldest bars evicted down to the capacity, the buffer. */
    method CloseBar(symbol: string, event: Candle, buffer: seq<Candle>)
      requires Valid() && ClosesBar(lastCandle, symbol, event)
      requires buffer == Evict(BufferOf(candleBuffer, symbol) + [lastCandle[symbol]], Capacity(config))
      modifies this`lastCandle, this`candleBuffer
      ensures Valid()
      ensures lastCandle == old(lastCandle)[symbol := event]
      ensures candleBuffer == old(candleBuffer)[symbol := buffer]
    {
      CloseBarKeepsBuffersOk(candleBuffer, lastCandle, Capacity(config), symbol, event);
      candleBuffer := candleBuffer[symbol := buffer];
      lastCandle := lastCandle[symbol := event];
    }

    /** A same-time bar with a changed high, low, close or volume replaces the in-progress bar. */
    method ReviseBar(symbol: string, event: Candle)
      requires Valid() && symbol in lastCandle && event.timestamp == lastCandle[symbol].timestamp
      requires Revises(lastCandle[symbol], event)
      modifies this`lastCandle
      ensures Valid()
      ensures BarsOf() == CandleStep(config, old(BarsOf()), symbol, event)
    {
      ReviseBarKeepsBuffersOk(candleBuffer, lastCandle, Capacity(config), symbol, event);
      lastCandle := lastCandle[symbol := event];
    }

    /** `updateIndicators`: below `minimumRequiredCandles` nothing happens; otherwise the
        symbol's snapshot is replaced by one computed from `candles`, and the exit check and
        the entry attempt run for that symbol (the source starts them without awaiting them;
        here they run one after the other). */
    method UpdateIndicators(symbol: string, candles: seq<Candle>, ext: Externals)
      requires Valid()
      modifies this`indicators, this`activePositions, this`portfolioPositions, this`balance, this`availableBalance
      ensures Valid()
      ensures State() == RefreshStep(config, placeNewOrder, old(BarsOf()), old(Books()), symbol, candles, ext)
    {
      if |candles| < config.minimumRequiredCandles {
        return;
      }
      RefreshIndicators(symbol, candles);
      TradeOnRefresh(symbol, ext);
    }

    /** The snapshot step of `updateIndicators`. */
    method RefreshIndicators(symbol: string, candles: seq<Candle>)
      requires Valid() && |candles| >= config.minimumRequiredCandles
      modifies this`indicators
      ensures Valid()
      ensures indicators == old(indicators)[symbol := Snapshot(candles, config)]
    {
      var snapshot := ComputeIndicators(candles, config);
      indicators := indicators[symbol := snapshot];
    }

    /** The trading step of `updateIndicators`: the exit check, then the entry attempt. */
    method TradeOnRefresh(symbol: string, ext: Externals)
      requires Valid()
      modifies this`activePositions, this`portfolioPositions, this`balance, this`availableBalance
      ensures Valid()
      ensures Books() == RefreshTrades(config, placeNewOrder, lastCandle, indicators, old(Books()), symbol, ext)
    {
      var _ := UpdateTrades(symbol, None, ext.exitOrderOk);
      var _ := CreatePosition(symbol, Intended, ext.entryOrderOk, ext.insertOk, ext.now);
    }

    /** `updateTrades`: mark the symbol's position with the latest price (raising its peak),
        ask the exit rules, and on an exit credit the proceeds less the exit fee and remove the
        position from both maps. A failed exchange sell aborts after the peak update. */
    method UpdateTrades(symbol: string, currentPrice: Option<real>, exitOrderOk: bool) returns (outcome: TradeOutcome)
      requires Valid()
      modifies this`activePositions, this`portfolioPositions, this`balance, this`availableBalance
      ensures Valid()
      ensures Traded(outcome, Books()) == TradeStep(config, lastCandle, indicators, old(Books()), symbol, currentPrice, exitOrderOk)
    {
      if symbol !in activePositions {
        return NoPosition;
      }
      if symbol !in indicators {
        return NoIndicators;
      }
      outcome := MarkAndExit(symbol, currentPrice, exitOrderOk);
    }

    /** The part of `updateTrades` past its two early returns. */
    method MarkAndExit(symbol: string, currentPrice: Option<real>, exitOrderOk: bool) returns (outcome: TradeOutcome)
      requires Valid() && symbol in activePositions && symbol in indicators
      modifies this`activePositions, this`portfolioPositions, this`balance, this`availableBalance
      ensures Valid()
      ensures Traded(outcome, Books()) == TradeStep(config, lastCandle, indicators, old(Books()), symbol, currentPrice, exitOrderOk)
    {
      var currentIndicators := indicators[symbol];
      var recentClosePrice := RecentPrice(currentPrice, lastCandle, symbol);
      var position := MarkPeak(symbol, recentClosePrice);
      RemoveReplaced(old(activePositions), symbol, position);
      RemoveReplaced(old(portfolioPositions), symbol, position);
      var signal := AnalyzeExit(position, currentIndicators, config, recentClosePrice, Some(position.peakPrice));
      outcome := ActOnSignal(symbol, position, signal, recentClosePrice, exitOrderOk);
    }

    /** The tail of `updateTrades`: hold, report the failed exit order, or settle the exit at
        the recent close. */
    method ActOnSignal(symbol: string, position: Position, signal: ExitSignal, recentClosePrice: Option<real>, exitOrderOk: bool)
      returns (outcome: TradeOutcome)
      requires Valid()
      modifies this`activePositions, this`portfolioPositions, this`balance, this`availableBalance
      ensures Valid()
      ensures !(signal.shouldExit && Truthy(recentClosePrice)) ==> outcome == Held(signal.reason) && unchanged(this)
      ensures signal.shouldExit && Truthy(recentClosePrice) && config.tradeOnKraken && !exitOrderOk ==>
        outcome == ExitOrderFailed && unchanged(this)
      ensures signal.shouldExit && Truthy(recentClosePrice) && !(config.tradeOnKraken && !exitOrderOk) ==>
        && outcome == Exited(signal.reason, NetPnl(position.entryPrice, recentClosePrice.value, position.quantity))
        && balance == old(balance) + ExitCredit(recentClosePrice.value, position.quantity)
        && activePositions == old(activePositions) - {symbol}
        && portfolioPositions == old(portfolioPositions) - {symbol}
    {
      if signal.shouldExit && Truthy(recentClosePrice) {
        if config.tradeOnKraken && !exitOrderOk {
          return ExitOrderFailed;
        }
        var price := recentClosePrice.value;
        SettleExit(symbol, price, position.quantity);
        outcome := Exited(signal.reason, NetPnl(position.entryPrice, price, position.quantity));
      } else {
        outcome := Held(signal.reason);
      }
    }

    /** The peak update of `updateTrades`: with a truthy price the shared position object
        gets its new peak, which both maps see. */
    method MarkPeak(symbol: string, recentClosePrice: Option<real>) returns (position: Position)
      requires Valid() && symbol in activePositions
      modifies this`activePositions, this`portfolioPositions
      ensures Valid()
      ensures position == Marked(old(activePositions)[symbol], recentClosePrice)
      ensures activePositions == old(activePositions)[symbol := position]
      ensures portfolioPositions == WithPosition(old(portfolioPositions), symbol, position)
    {
      position := activePositions[symbol];
      if Truthy(recentClosePrice) {
        var price := recentClosePrice.value;
        var dbPeakPrice := if position.peakPrice > price then position.peakPrice else price;
        var fallback := if dbPeakPrice != 0.0 then dbPeakPrice else if position.peakPrice != 0.0 then position.peakPrice else price;
        position := position.(peakPrice := Max(price, fallback));
      }
      activePositions := activePositions[symbol := position];
      portfolioPositions := WithPosition(portfolioPositions, symbol, position);
    }

    /** The exit bookkeeping of `updateTrades`: credit the proceeds less the exit fee, reset
        the available balance and drop the position from both maps. */
    method SettleExit(symbol: string, price: real, quantity: real)
      requires Valid()
      modifies this`activePositions, this`portfolioPositions, this`balance, this`availableBalance
      ensures Valid()
      ensures balance == old(balance) + ExitCredit(price, quantity)
      ensures activePositions == old(activePositions) - {symbol}
      ensures portfolioPositions == old(portfolioPositions) - {symbol}
    {
      var exitFee := price * quantity * FeeRate;
      balance := balance + (price * quantity - exitFee);
      availableBalance := balance;
      portfolioPositions := portfolioPositions - {symbol};
      activePositions := activePositions - {symbol};
    }

    /** `createPosition`: the gates (already open while new orders are placed, missing
        indicators, the position limit, no truthy in-progress close), then on a positive
        entry decision a position sized by `calculatePositionSize` is installed in both maps;
        a failed record insert takes it out of the portfolio map only. */
    method CreatePosition(symbol: string, reading: DecisionReading, entryOrderOk: bool, insertOk: bool, now: int)
      returns (outcome: OpenOutcome)
      requires Valid()
      modifies this`activePositions, this`portfolioPositions, this`availableBalance
      ensures Valid()
      ensures Opening(outcome, Books()) ==
        OpenStep(config, reading, placeNewOrder, lastCandle, indicators, old(Books()), symbol, entryOrderOk, insertOk, now)
    {
      if symbol in activePositions && placeNewOrder {
        return AlreadyOpen;
      }
      if symbol !in indicators {
        return MissingIndicators;
      }
      var indicator := indicators[symbol];
      var maxPositions := config.maxPositions;
      var currentPositions := |activePositions|;
      if currentPositions >= maxPositions {
        return MaxPositionsReached;
      }
      if !(symbol in lastCandle && lastCandle[symbol].close != 0.0) {
        return NoPrice;
      }
      var recentClosePrice := lastCandle[symbol].close;
      if !EntryDecision(reading, indicator, config, recentClosePrice) {
        return NotEntered;
      }
      var positionSize := PositionSize(balance, indicator, config, recentClosePrice);
      if config.tradeOnKraken && !entryOrderOk {
        return EntryOrderFailed;
      }
      if !config.paperTrade {
        return NotPaperTrading;
      }
      var newPosition := Position(recentClosePrice, positionSize, config.strategyType, now, recentClosePrice);
      InstallPosition(symbol, newPosition, insertOk);
      outcome := if insertOk then Opened(newPosition) else RolledBack(newPosition);
    }

    /** The installation step of `createPosition`: the one new position object goes into both
        maps; when the record insert fails it is deleted from the portfolio map again. */
    method InstallPosition(symbol: string, newPosition: Position, insertOk: bool)
      requires Valid()
      modifies this`activePositions, this`portfolioPositions, this`availableBalance
      ensures Valid()
      ensures activePositions == old(activePositions)[symbol := newPosition]
      ensures insertOk ==> portfolioPositions == old(portfolioPositions)[symbol := newPosition]
      ensures !insertOk ==> portfolioPositions == old(portfolioPositions) - {symbol}
    {
      portfolioPositions := portfolioPositions[symbol := newPosition];
      availableBalance := balance;
      activePositions := activePositions[symbol := newPosition];
      if !insertOk {
        portfolioPositions := portfolioPositions - {symbol};
        availableBalance := balance;
      }
    }

    /** `closeAllPositions`: every open position is sold and removed from both maps; one
        whose exchange sell fails (only possible when trading on the exchange) is logged and
        kept, and the loop goes on. */
    method CloseAllPositions(failedSells: set<string>)
      requires Valid()
      modifies this`activePositions, this`portfolioPositions
      ensures Valid()
      ensures activePositions == Restrict(old(activePositions), if config.tradeOnKraken then failedSells else {})
      ensures portfolioPositions == Restrict(old(portfolioPositions), if config.tradeOnKraken then failedSells else {})
      ensures !config.tradeOnKraken ==> activePositions == map[] && portfolioPositions == map[]
    {
      ghost var kept := if config.tradeOnKraken then failedSells else {};
      var remaining := activePositions.Keys;
      RestrictAll(activePositions, kept);
      RestrictSubset(portfolioPositions, activePositions.Keys, kept);
      while remaining != {}
        invariant Valid()
        invariant activePositions == Restrict(old(activePositions), remaining + kept)
        invariant portfolioPositions == Restrict(old(portfolioPositions), remaining + kept)
        decreases remaining
      {
        var symbol :| symbol in remaining;
        if !(config.tradeOnKraken && symbol in failedSells) {
          assert (remaining + kept) - {symbol} == (remaining - {symbol}) + kept;
          RestrictDrop(old(activePositions), remaining + kept, symbol);
          RestrictDrop(old(portfolioPositions), remaining + kept, symbol);
          portfolioPositions := portfolioPositions - {symbol};
          activePositions := activePositions - {symbol};
        } else {
          assert (remaining - {symbol}) + kept == remaining + kept;
        }
        remaining := remaining - {symbol};
      }
      assert {} + kept == kept;
    }

    /** One OHLC event: ingest it and, when it closed a bar, refresh the indicators from the
        new buffer. */
    method HandleCandleEvent(symbol: string, event: Candle, ext: Externals) returns (change: CandleChange)
      requires Valid()
      modifies this`lastCandle, this`candleBuffer, this`indicators, this`activePositions, this`portfolioPositions, this`balance, this`availableBalance
      ensures Valid()
      ensures change == Closed <==> ClosesBar(old(lastCandle), symbol, event)
      ensures State() == EventStep(config, placeNewOrder, old(State()), symbol, event, ext)
    {
      change := IngestCandle(symbol, event);
      if change == Closed {
        UpdateIndicators(symbol, candleBuffer[symbol], ext);
      }
    }

    /** `handleWebSocketMessage`: OHLC events one after the other, trade ticks straight to
        `updateTrades` with their price, any other channel ignored. OHLC event i uses
        `externals(i)`; tick i uses `exitOrders(i)`. */
    method HandleWebSocketMessage(message: Message, externals: nat -> Externals, exitOrders: nat -> bool)
      requires Valid()
      modifies this`lastCandle, this`candleBuffer, this`indicators, this`activePositions, this`portfolioPositions, this`balance, this`availableBalance
      ensures Valid()
      ensures message.OhlcMessage? ==> State() == EventsFold(config, placeNewOrder, old(State()), message.bars, externals)
      ensures message.TradeMessage? ==>
        BarsOf() == old(BarsOf()) && Books() == TicksFold(config, lastCandle, indicators, old(Books()), message.ticks, exitOrders)
      ensures message.OtherChannel? ==> unchanged(this)
    {
      match message
      case OhlcMessage(bars) =>
        HandleOhlc(bars, externals);
      case TradeMessage(ticks) =>
        HandleTrades(ticks, exitOrders);
      case OtherChannel =>
    }

    /** The OHLC branch of `handleWebSocketMessage`: each event of the message in order. */
    method HandleOhlc(bars: seq<(string, Candle)>, externals: nat -> Externals)
      requires Valid()
      modifies this`lastCandle, this`candleBuffer, this`indicators, this`activePositions, this`portfolioPositions, this`balance, this`availableBalance
      ensures Valid()
      ensures State() == EventsFold(config, placeNewOrder, old(State()), bars, externals)
    {
      var i := 0;
      while i < |bars|
        invariant 0 <= i <= |bars|
        invariant Valid()
        invariant State() == EventsFold(config, placeNewOrder, old(State()), bars[..i], externals)
      {
        var _ := HandleCandleEvent(bars[i].0, bars[i].1, externals(i));
        assert bars[..i + 1][..i] == bars[..i];
        i := i + 1;
      }
      assert bars[..|bars|] == bars;
    }

    /** The trade branch of `handleWebSocketMessage`: each tick's price to `updateTrades`. */
    method HandleTrades(ticks: seq<(string, real)>, exitOrders: nat -> bool)
      requires Valid()
      modifies this`activePositions, this`portfolioPositions, this`balance, this`availableBalance
      ensures Valid()
      ensures Books() == TicksFold(config, lastCandle, indicators, old(Books()), ticks, exitOrders)
    {
      var i := 0;
      while i < |ticks|
        invariant 0 <= i <= |ticks|
        invariant Valid()
        invariant Books() == TicksFold(config, lastCandle, indicators, old(Books()), ticks[..i], exitOrders)
      {
        var _ := UpdateTrades(ticks[i].0, Some(ticks[i].1), exitOrders(i));
        assert ticks[..i + 1][..i] == ticks[..i];
        i := i + 1;
      }
      assert ticks[..|ticks|] == ticks;
    }
  }
}
