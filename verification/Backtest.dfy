/** Synchronized, cost-aware, closed-candle backtest execution. */
module Backtest {
  import opened Domain
  import opened Candles
  import opened Trading
  import Sorting

  datatype ConfigData = ConfigData(
    initialBalance: real,
    riskFraction: real,
    valuePerUnit: real,
    commissionPerSide: real,
    fixedSpread: real,
    slippage: real,
    minimumVolume: real,
    maximumVolume: real,
    volumeStep: real,
    historyBars: nat,
    closeAtEnd: bool)

  type Config = c: ConfigData |
      && 0.0 < c.initialBalance && 0.0 < c.riskFraction <= 1.0 && 0.0 < c.valuePerUnit
      && 0.0 <= c.commissionPerSide && 0.0 <= c.fixedSpread && 0.0 <= c.slippage
      && 0.0 < c.minimumVolume <= c.maximumVolume && 0.0 < c.volumeStep && 0 < c.historyBars
    witness ConfigData(10000.0, 0.01, 100.0, 0.0, 0.0, 0.0, 0.001, 100.0, 0.001, 250, true)

  datatype OpenPosition = OpenPosition(
    signal: Signal,
    direction: Direction,
    requestedEntry: real,
    rawEntry: real,
    entryPrice: real,
    openedAt: Time,
    stopLoss: real,
    takeProfit: real,
    volume: real,
    plannedRisk: real,
    entryCommission: real)

  datatype ExitReason = StopLoss | TakeProfit | StrategyExit | EndOfData

  datatype Trade = Trade(
    signalId: string,
    direction: Direction,
    signalTime: Time,
    openedAt: Time,
    closedAt: Time,
    requestedEntry: real,
    entryPrice: real,
    exitPrice: real,
    stopLoss: real,
    takeProfit: real,
    volume: real,
    plannedRisk: real,
    grossPnl: real,
    costs: real,
    netPnl: real,
    rMultiple: real,
    exitReason: ExitReason)

  datatype EquityPoint = EquityPoint(timestamp: Time, equity: real)

  /** Candles per timeframe: a whole data set, or the window a strategy may look at. */
  datatype Bars = Bars(h1: seq<Candle>, m15: seq<Candle>, m5: seq<Candle>)

  /** A strategy sees the windows, the decision time and the direction it is in, and nothing else. */
  type Strategy = (Bars, Time, Option<Direction>) -> Signal

  datatype BacktestResult = BacktestResult(
    startedAt: Time,
    endedAt: Time,
    initialBalance: real,
    finalBalance: real,
    trades: seq<Trade>,
    equityCurve: seq<EquityPoint>,
    signalsGenerated: nat,
    signalsExpired: nat)

  // ---------------------------------------------------------------------------
  // Fills and exits
  // ---------------------------------------------------------------------------

  function ExecutionCost(config: Config, candle: Candle): real {
    Max(candle.spread, config.fixedSpread) / 2.0 + config.slippage
  }

  /** The price at which a bar first trades inside the zone, when it does. */
  function RawEntry(candle: Candle, entryMin: real, entryMax: real): real {
    if entryMin <= candle.open <= entryMax then candle.open
    else if candle.open < entryMin then entryMin
    else entryMax
  }

  predicate StopOnLosingSide(direction: Direction, stop: real, entry: real) {
    if direction == Long then stop < entry else entry < stop
  }

  function RiskPerLot(config: Config, entry: real, stop: real): (r: real)
    ensures entry != stop ==> r > 0.0
  {
    Abs(entry - stop) * config.valuePerUnit
  }

  /** The risk-budgeted volume, capped and rounded down to the volume step with a 1e-12 tolerance. */
  function FillVolume(config: Config, balance: real, riskPerLot: real): Option<real>
    requires riskPerLot > 0.0
  {
    var volume := Max(balance, 0.0) * config.riskFraction / riskPerLot;
    if volume < config.minimumVolume then None
    else
      var capped := Min(volume, config.maximumVolume);
      var rounded := (capped / config.volumeStep + 0.000000000001).Floor as real * config.volumeStep;
      if rounded < config.minimumVolume then None else Some(rounded)
  }

  function FillPending(config: Config, signal: Signal, candle: Candle, balance: real): Option<OpenPosition> {
    if signal.entryMin.None? || signal.entryMax.None? || signal.stopLoss.None? then None
    else
      var entryMin, entryMax := signal.entryMin.value, signal.entryMax.value;
      if candle.high < entryMin || candle.low > entryMax then None
      else if signal.Direction().None? || signal.takeProfits == [] then None
      else
        var direction := signal.Direction().value;
        var rawEntry := RawEntry(candle, entryMin, entryMax);
        var entryPrice := rawEntry + direction.Sign() * ExecutionCost(config, candle);
        var stop := signal.stopLoss.value;
        if !StopOnLosingSide(direction, stop, entryPrice) then None
        else
          var riskPerLot := RiskPerLot(config, entryPrice, stop);
          var volume := FillVolume(config, balance, riskPerLot);
          if volume.None? then None
          else Some(OpenPosition(
                      signal, direction, (entryMin + entryMax) / 2.0, rawEntry, entryPrice, candle.timestamp,
                      stop, signal.takeProfits[0], volume.value, riskPerLot * volume.value,
                      volume.value * config.commissionPerSide))
  }

  /** The exit a bar triggers; a bar holding both levels resolves to the stop. */
  function Trigger(position: OpenPosition, candle: Candle): Option<(real, ExitReason)> {
    if candle.low <= position.stopLoss <= candle.high then Some((position.stopLoss, StopLoss))
    else if candle.low <= position.takeProfit <= candle.high then Some((position.takeProfit, TakeProfit))
    else None
  }

  function ClosePosition(config: Config, position: OpenPosition, candle: Candle, rawExit: real, reason: ExitReason,
                         closedAt: Time): Trade
  {
    var sign := position.direction.Sign();
    var exitPrice := rawExit - sign * ExecutionCost(config, candle);
    var gross := sign * (rawExit - position.rawEntry) * position.volume * config.valuePerUnit;
    var afterSpread := sign * (exitPrice - position.entryPrice) * position.volume * config.valuePerUnit;
    var commission := position.entryCommission + position.volume * config.commissionPerSide;
    var net := afterSpread - commission;
    Trade(position.signal.id, position.direction, position.signal.createdAt, position.openedAt, closedAt,
          position.requestedEntry, position.entryPrice, exitPrice, position.stopLoss, position.takeProfit,
          position.volume, position.plannedRisk, gross, gross - net, net,
          if position.plannedRisk != 0.0 then net / position.plannedRisk else 0.0, reason)
  }

  // ---------------------------------------------------------------------------
  // The run, bar by bar
  // ---------------------------------------------------------------------------

  datatype State = State(
    balance: real,
    curve: seq<EquityPoint>,
    trades: seq<Trade>,
    pending: Option<Signal>,
    position: Option<OpenPosition>,
    generated: nat,
    expired: nat)

  function Start(config: Config, at: Time): State {
    State(config.initialBalance, [EquityPoint(at, config.initialBalance)], [], None, None, 0, 0)
  }

  function CloseOut(config: Config, st: State, candle: Candle, rawExit: real, reason: ExitReason, at: Time): State
    requires st.position.Some?
  {
    var trade := ClosePosition(config, st.position.value, candle, rawExit, reason, at);
    st.(trades := st.trades + [trade],
        balance := st.balance + trade.netPnl,
        curve := st.curve + [EquityPoint(at, st.balance + trade.netPnl)],
        position := None)
  }

  function ManagePosition(config: Config, st: State, candle: Candle, at: Time): State {
    if st.position.None? then st
    else
      var trigger := Trigger(st.position.value, candle);
      if trigger.None? then st
      else CloseOut(config, st, candle, trigger.value.0, trigger.value.1, at)
  }

  function ManagePending(config: Config, st: State, candle: Candle, at: Time): State {
    if st.position.Some? || st.pending.None? then st
    else if st.pending.value.expiresAt.Some? && candle.timestamp >= st.pending.value.expiresAt.value then
      st.(expired := st.expired + 1, pending := None)
    else
      var filled := FillPending(config, st.pending.value, candle, st.balance);
      if filled.None? then st
      else ManagePosition(config, st.(position := filled, pending := None), candle, at)
  }

  /** What is visible at an instant: the newest closed bars of each timeframe. */
  function WindowsAt(config: Config, data: Bars, at: Time): Bars {
    Bars(LastOf(Available(data.h1, Some(at), true), config.historyBars),
         LastOf(Available(data.m15, Some(at), true), config.historyBars),
         LastOf(Available(data.m5, Some(at), true), config.historyBars))
  }

  function Decide(config: Config, strategy: Strategy, st: State, windows: Bars, candle: Candle, at: Time): State {
    if windows.h1 == [] || windows.m15 == [] || windows.m5 == [] then st
    else
      var signal := strategy(windows, at, if st.position.Some? then Some(st.position.value.direction) else None);
      if signal.action.Exit? && st.position.Some? then CloseOut(config, st, candle, candle.close, StrategyExit, at)
      else if signal.Direction().Some? && st.position.None? && st.pending.None? then
        st.(pending := Some(signal), generated := st.generated + 1)
      else st
  }

  function Bar(config: Config, strategy: Strategy, st: State, windows: Bars, candle: Candle): State {
    var at := CloseTime(candle);
    Decide(config, strategy, ManagePending(config, ManagePosition(config, st, candle, at), candle, at),
           windows, candle, at)
  }

  /** The loop state after the first `n` M5 bars, with windows chosen by the plain availability filter. */
  function After(config: Config, strategy: Strategy, data: Bars, n: nat): State
    requires 0 < |data.m5| && n <= |data.m5|
  {
    if n == 0 then Start(config, data.m5[0].timestamp)
    else
      var candle := data.m5[n - 1];
      Bar(config, strategy, After(config, strategy, data, n - 1), WindowsAt(config, data, CloseTime(candle)), candle)
  }

  function Finish(config: Config, st: State, last: Candle): State {
    var at := CloseTime(last);
    var closed := if st.position.Some? && config.closeAtEnd
                  then CloseOut(config, st, last, last.close, EndOfData, at) else st;
    var lapsed := if closed.pending.Some? then closed.(expired := closed.expired + 1) else closed;
    if lapsed.curve == [] || lapsed.curve[|lapsed.curve| - 1].timestamp != at
    then lapsed.(curve := lapsed.curve + [EquityPoint(at, lapsed.balance)])
    else lapsed
  }

  function Outcome(config: Config, strategy: Strategy, data: Bars): BacktestResult
    requires 0 < |data.m5|
  {
    var last := data.m5[|data.m5| - 1];
    var final := Finish(config, After(config, strategy, data, |data.m5|), last);
    BacktestResult(data.m5[0].timestamp, CloseTime(last), config.initialBalance, final.balance,
                   final.trades, final.curve, final.generated, final.expired)
  }

  // ---------------------------------------------------------------------------
  // Validation
  // ---------------------------------------------------------------------------

  ghost predicate ValidBars(s: seq<Candle>) {
    0 < |s| && ValidSequence(s) && forall c :: c in s ==> c.complete
  }

  ghost predicate ValidData(data: Bars) {
    ValidBars(data.h1) && ValidBars(data.m15) && ValidBars(data.m5)
    && data.h1[0].symbol == data.m15[0].symbol == data.m5[0].symbol
  }

  function Prepared(s: seq<Candle>): seq<Candle> {
    Available(Sorting.SortBy(s, Earlier), None, true)
  }

  function PreparedData(candles: map<Timeframe, seq<Candle>>): Bars
    requires {H1, M15, M5} <= candles.Keys
  {
    Bars(Prepared(candles[H1]), Prepared(candles[M15]), Prepared(candles[M5]))
  }

  /** The raw data a backtest accepts. */
  ghost predicate Backtestable(candles: map<Timeframe, seq<Candle>>) {
    && {H1, M15, M5} <= candles.Keys
    && (forall t :: t in {H1, M15, M5} ==> ValidSequence(Sorting.SortBy(candles[t], Earlier)))
    && var data := PreparedData(candles);
    && 0 < |data.h1| && 0 < |data.m15| && 0 < |data.m5|
    && data.h1[0].symbol == data.m15[0].symbol == data.m5[0].symbol
  }

  lemma PreparedValid(s: seq<Candle>)
    requires ValidSequence(Sorting.SortBy(s, Earlier))
    ensures ValidSequence(Prepared(s)) && forall c :: c in Prepared(s) ==> c.complete
  {
    var ordered := Sorting.SortBy(s, Earlier);
    AvailableValid(ordered, None, true);
    forall c | c in Prepared(s)
      ensures c.complete
    {
      AvailableExact(ordered, None, true, c);
    }
  }

  lemma {:induction false} AllComplete(s: seq<Candle>)
    requires forall c :: c in s ==> c.complete
    ensures Available(s, None, true) == s
  {
    if s != [] {
      AllComplete(s[..|s| - 1]);
      assert s == s[..|s| - 1] + [s[|s| - 1]];
    }
  }

  method PrepareTimeframe(candles: seq<Candle>) returns (r: Result<seq<Candle>>)
    ensures r.Ok? <==> ValidSequence(Sorting.SortBy(candles, Earlier))
    ensures r.Ok? ==> r.value == Prepared(candles)
  {
    hide ValidSequence;
    var ordered := Sorting.SortBy(candles, Earlier);
    r := ValidateSequence(ordered);
    if r.Ok? {
      if exists c :: c in ordered && !c.complete {
        r := ClosedCandles(ordered, None, true);
        Sorting.SortBySorts(candles, Earlier);
        Sorting.SortByFixpoint(ordered, Earlier);
      } else {
        AllComplete(ordered);
      }
    }
  }

  /** Rejects missing, malformed, empty or mixed-symbol data; otherwise yields sorted, complete bars. */
  method ValidateData(candles: map<Timeframe, seq<Candle>>) returns (r: Result<Bars>)
    ensures r.Ok? <==> Backtestable(candles)
    ensures r.Ok? ==> r.value == PreparedData(candles) && ValidData(r.value)
  {
    hide ValidSequence, Prepared;
    if H1 !in candles || M15 !in candles || M5 !in candles {
      return Err("backtest is missing timeframes");
    }
    var h1 := PrepareTimeframe(candles[H1]);
    if h1.Err? {
      return Err(h1.error);
    }
    var m15 := PrepareTimeframe(candles[M15]);
    if m15.Err? {
      return Err(m15.error);
    }
    var m5 := PrepareTimeframe(candles[M5]);
    if m5.Err? {
      return Err(m5.error);
    }
    if h1.value == [] || m15.value == [] || m5.value == [] {
      return Err("each backtest timeframe needs closed candle data");
    }
    PreparedValid(candles[H1]);
    PreparedValid(candles[M15]);
    PreparedValid(candles[M5]);
    // Each timeframe is homogeneous, so one symbol per timeframe decides the set of symbols.
    if h1.value[0].symbol != m15.value[0].symbol || m15.value[0].symbol != m5.value[0].symbol {
      return Err("all backtest candles must use one resolved broker symbol");
    }
    return Ok(Bars(h1.value, m15.value, m5.value));
  }

  // ---------------------------------------------------------------------------
  // The run
  // ---------------------------------------------------------------------------

  ghost predicate CursorAt(values: seq<Candle>, end: nat, at: Time) {
    end <= |values| && forall i :: 0 <= i < |values| ==> (CloseTime(values[i]) <= at <==> i < end)
  }

  /** Moves a cursor forward over the bars that have closed; the window behind it is the availability filter. */
  method AdvanceCursor(values: seq<Candle>, start: nat, at: Time) returns (end: nat)
    requires ValidBars(values) && start <= |values|
    requires forall i :: 0 <= i < start ==> CloseTime(values[i]) <= at
    ensures CursorAt(values, end, at)
    ensures Available(values, Some(at), true) == values[..end]
  {
    end := start;
    while end < |values| && CloseTime(values[end]) <= at
      invariant end <= |values|
      invariant forall i :: 0 <= i < end ==> CloseTime(values[i]) <= at
    {
      end := end + 1;
    }
    CloseTimesIncrease(values);
    AvailableIsPrefix(values, at, end);
  }

  method WindowBehind(values: seq<Candle>, end: nat, history: nat) returns (window: seq<Candle>)
    requires end <= |values|
    ensures window == LastOf(values[..end], history)
  {
    var start := if end > history then end - history else 0;
    window := values[start..end];
  }

  /** Exits and fills of one bar, before the strategy is asked. */
  method SettleBar(config: Config, candle: Candle, at: Time, before: State) returns (after: State)
    ensures after == ManagePending(config, ManagePosition(config, before, candle, at), candle, at)
  {
    var State(balance, curve, trades, pending, position, generated, expired) := before;
    if position.Some? {
      var trigger := Trigger(position.value, candle);
      if trigger.Some? {
        var (rawExit, reason) := trigger.value;
        var trade := ClosePosition(config, position.value, candle, rawExit, reason, at);
        trades := trades + [trade];
        balance := balance + trade.netPnl;
        curve := curve + [EquityPoint(at, balance)];
        position := None;
      }
    }
    if position.None? && pending.Some? {
      if pending.value.expiresAt.Some? && candle.timestamp >= pending.value.expiresAt.value {
        expired := expired + 1;
        pending := None;
      } else {
        position := FillPending(config, pending.value, candle, balance);
        if position.Some? {
          pending := None;
          var trigger := Trigger(position.value, candle);
          if trigger.Some? {
            var (rawExit, reason) := trigger.value;
            var trade := ClosePosition(config, position.value, candle, rawExit, reason, at);
            trades := trades + [trade];
            balance := balance + trade.netPnl;
            curve := curve + [EquityPoint(at, balance)];
            position := None;
          }
        }
      }
    }
    after := State(balance, curve, trades, pending, position, generated, expired);
  }

  /** The strategy's decision on one bar. */
  method AskStrategy(config: Config, strategy: Strategy, windows: Bars, candle: Candle, at: Time, before: State)
    returns (after: State)
    ensures after == Decide(config, strategy, before, windows, candle, at)
  {
    after := before;
    if windows.h1 != [] && windows.m15 != [] && windows.m5 != [] {
      var openDirection := if after.position.Some? then Some(after.position.value.direction) else None;
      var signal := strategy(windows, at, openDirection);
      if signal.action.Exit? && after.position.Some? {
        var trade := ClosePosition(config, after.position.value, candle, candle.close, StrategyExit, at);
        var balance := after.balance + trade.netPnl;
        after := after.(trades := after.trades + [trade], balance := balance,
                        curve := after.curve + [EquityPoint(at, balance)], position := None);
      } else if signal.action in {EnterLong, EnterShort} && after.position.None? && after.pending.None? {
        after := after.(pending := Some(signal), generated := after.generated + 1);
      }
    }
  }

  /** Settles what is still open when the data ends. */
  method SettleEnd(config: Config, last: Candle, before: State) returns (after: State)
    ensures after == Finish(config, before, last)
  {
    after := before;
    var endedAt := CloseTime(last);
    if after.position.Some? && config.closeAtEnd {
      var trade := ClosePosition(config, after.position.value, last, last.close, EndOfData, endedAt);
      var balance := after.balance + trade.netPnl;
      after := after.(trades := after.trades + [trade], balance := balance,
                      curve := after.curve + [EquityPoint(endedAt, balance)], position := None);
    }
    if after.pending.Some? {
      after := after.(expired := after.expired + 1);
    }
    if after.curve == [] || after.curve[|after.curve| - 1].timestamp != endedAt {
      after := after.(curve := after.curve + [EquityPoint(endedAt, after.balance)]);
    }
  }

  /** Where the three cursors stand once bar `i` has been decided. */
  ghost predicate CursorsAfter(data: Bars, h1End: nat, m15End: nat, m5End: nat, n: nat)
    requires n <= |data.m5|
  {
    if n == 0 then h1End == m15End == m5End == 0
    else
      var at := CloseTime(data.m5[n - 1]);
      CursorAt(data.h1, h1End, at) && CursorAt(data.m15, m15End, at) && CursorAt(data.m5, m5End, at)
  }

  /** Moves every cursor to the decision time of bar `i` and cuts the windows behind them. */
  method NextWindows(config: Config, data: Bars, h1End: nat, m15End: nat, m5End: nat, i: nat)
    returns (windows: Bars, h1End': nat, m15End': nat, m5End': nat)
    requires ValidData(data) && i < |data.m5| && CursorsAfter(data, h1End, m15End, m5End, i)
    ensures windows == WindowsAt(config, data, CloseTime(data.m5[i]))
    ensures CursorsAfter(data, h1End', m15End', m5End', i + 1)
  {
    var at := CloseTime(data.m5[i]);
    CloseTimesIncrease(data.m5);
    h1End' := AdvanceCursor(data.h1, h1End, at);
    m15End' := AdvanceCursor(data.m15, m15End, at);
    m5End' := AdvanceCursor(data.m5, m5End, at);
    hide Available;
    var h1 := WindowBehind(data.h1, h1End', config.historyBars);
    var m15 := WindowBehind(data.m15, m15End', config.historyBars);
    var m5 := WindowBehind(data.m5, m5End', config.historyBars);
    windows := Bars(h1, m15, m5);
  }

  /** One deterministic backtest: it computes the bar-by-bar outcome over the validated data, or refuses the data. */
  method Run(config: Config, strategy: Strategy, candles: map<Timeframe, seq<Candle>>)
    returns (r: Result<BacktestResult>)
    ensures r.Ok? <==> Backtestable(candles)
    ensures r.Ok? ==> r.value == Outcome(config, strategy, PreparedData(candles))
  {
    hide PreparedData, Backtestable, ValidData, CursorsAfter, ManagePosition, ManagePending, Decide, WindowsAt, Finish;
    var validated := ValidateData(candles);
    if validated.Err? {
      return Err(validated.error);
    }
    var data := validated.value;
    assert 0 < |data.m5| by {
      ValidDataNonempty(data);
    }
    var st := Start(config, data.m5[0].timestamp);
    var h1End, m15End, m5End := 0, 0, 0;
    CursorsStart(data);
    for i := 0 to |data.m5|
      invariant st == After(config, strategy, data, i)
      invariant CursorsAfter(data, h1End, m15End, m5End, i)
    {
      var candle := data.m5[i];
      var at := CloseTime(candle);
      st := SettleBar(config, candle, at, st);
      var windows;
      windows, h1End, m15End, m5End := NextWindows(config, data, h1End, m15End, m5End, i);
      st := AskStrategy(config, strategy, windows, candle, at, st);
    }
    var last := data.m5[|data.m5| - 1];
    st := SettleEnd(config, last, st);
    return Ok(BacktestResult(data.m5[0].timestamp, CloseTime(last), config.initialBalance, st.balance,
                             st.trades, st.curve, st.generated, st.expired));
  }

  lemma ValidDataNonempty(data: Bars)
    requires ValidData(data)
    ensures 0 < |data.m5|
  {
  }

  lemma CursorsStart(data: Bars)
    ensures CursorsAfter(data, 0, 0, 0, 0)
  {
  }
}
