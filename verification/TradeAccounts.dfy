/** Where every trade of a backtest comes from, and what it cost. */
module TradeAccounts {
  import opened Domain
  import opened Trading
  import opened Candles
  import opened Backtest
  import opened BacktestLaws

  /** One backtest: what it is given. */
  datatype Setup = Setup(config: Config, strategy: Strategy, data: Bars)

  // ---------------------------------------------------------------------------
  // What one bar asks of the strategy
  // ---------------------------------------------------------------------------

  function Seen(x: Setup, h: nat): Bars
    requires h < |x.data.m5|
  {
    WindowsAt(x.config, x.data, CloseTime(x.data.m5[h]))
  }

  /** The strategy is asked only once every timeframe has a closed bar. */
  predicate Asked(x: Setup, h: nat)
    requires h < |x.data.m5|
  {
    Seen(x, h).h1 != [] && Seen(x, h).m15 != [] && Seen(x, h).m5 != []
  }

  /** What the strategy says at the close of bar `h` to an account that holds nothing. */
  function SignalOn(x: Setup, h: nat): Signal
    requires h < |x.data.m5|
  {
    x.strategy(Seen(x, h), CloseTime(x.data.m5[h]), None)
  }

  /** The signal is an entry that the strategy gave at the close of bar `h`. */
  predicate GivenOn(x: Setup, signal: Signal, h: nat) {
    h < |x.data.m5| && Asked(x, h) && signal == SignalOn(x, h) && signal.Direction().Some?
  }

  predicate AsksExit(x: Setup, direction: Direction, k: nat)
    requires k < |x.data.m5|
  {
    Asked(x, k) && x.strategy(Seen(x, k), CloseTime(x.data.m5[k]), Some(direction)).action.Exit?
  }

  predicate Lapses(signal: Signal, candle: Candle) {
    signal.expiresAt.Some? && candle.timestamp >= signal.expiresAt.value
  }

  // ---------------------------------------------------------------------------
  // The life of one signal
  // ---------------------------------------------------------------------------

  /** On the bars after `h` and before `i` the signal neither lapsed nor could be filled. */
  ghost predicate Waited(x: Setup, signal: Signal, balance: real, h: nat, i: nat) {
    forall k :: h < k < i && k < |x.data.m5| ==>
      !Lapses(signal, x.data.m5[k]) && FillPending(x.config, signal, x.data.m5[k], balance).None?
  }

  /** The position is the fill, on bar `i`, of the signal given on bar `h`, and no earlier bar could fill it. */
  ghost predicate Fills(x: Setup, p: OpenPosition, balance: real, h: nat, i: nat) {
    && h < i < |x.data.m5| && GivenOn(x, p.signal, h) && Waited(x, p.signal, balance, h, i)
    && !Lapses(p.signal, x.data.m5[i]) && FillPending(x.config, p.signal, x.data.m5[i], balance) == Some(p)
  }

  /**
   * From bar `i` on, the bars before `checked` reach neither level, and on those before `asked` no exit is asked for.
   */
  ghost predicate Kept(x: Setup, p: OpenPosition, i: nat, checked: nat, asked: nat) {
    && (forall k :: i <= k < checked && k < |x.data.m5| ==> Trigger(p, x.data.m5[k]).None?)
    && (forall k :: i <= k < asked && k < |x.data.m5| ==> !AsksExit(x, p.direction, k))
  }

  /** What ends a position on bar `j`, and at which price. */
  predicate Ends(x: Setup, p: OpenPosition, j: nat, rawExit: real, reason: ExitReason)
    requires j < |x.data.m5|
  {
    var candle := x.data.m5[j];
    if reason.StopLoss? || reason.TakeProfit? then Trigger(p, candle) == Some((rawExit, reason))
    else
      && Trigger(p, candle).None? && rawExit == candle.close
      && if reason.StrategyExit? then AsksExit(x, p.direction, j)
         else !AsksExit(x, p.direction, j) && x.config.closeAtEnd && j == |x.data.m5| - 1
  }

  /** The trade is the whole life of one signal: given on bar `h`, filled on bar `i`, closed on bar `j`. */
  ghost predicate Explains(x: Setup, t: Trade, balance: real, h: nat, i: nat, j: nat, p: OpenPosition, rawExit: real) {
    && i <= j < |x.data.m5| && Fills(x, p, balance, h, i) && Kept(x, p, i, j, j)
    && Ends(x, p, j, rawExit, t.exitReason)
    && t == ClosePosition(x.config, p, x.data.m5[j], rawExit, t.exitReason, CloseTime(x.data.m5[j]))
  }

  ghost predicate Explained(x: Setup, t: Trade, balance: real) {
    exists h: nat, i: nat, j: nat, p, rawExit :: Explains(x, t, balance, h, i, j, p, rawExit)
  }

  /** The `k`th trade is explained on the balance that the trades before it left. */
  ghost predicate ExplainedAt(x: Setup, trades: seq<Trade>, k: nat)
    requires k < |trades|
  {
    Explained(x, trades[k], x.config.initialBalance + SumNet(trades[..k]))
  }

  ghost predicate TradesExplained(x: Setup, trades: seq<Trade>) {
    forall k :: 0 <= k < |trades| ==> ExplainedAt(x, trades, k)
  }

  // ---------------------------------------------------------------------------
  // Kept bar by bar
  // ---------------------------------------------------------------------------

  /** How many bars have been gone through for fills, for triggers, for exits and for waiting signals. */
  datatype Progress = Progress(filled: nat, checked: nat, asked: nat, waited: nat)

  ghost predicate Opened(x: Setup, p: OpenPosition, balance: real, done: Progress) {
    exists h: nat, i: nat :: i < done.filled && Fills(x, p, balance, h, i) && Kept(x, p, i, done.checked, done.asked)
  }

  ghost predicate Waiting(x: Setup, signal: Signal, balance: real, done: Progress) {
    exists h: nat :: h < done.waited && GivenOn(x, signal, h) && Waited(x, signal, balance, h, done.waited)
  }

  ghost predicate Sound(x: Setup, st: State, done: Progress) {
    && st.balance == x.config.initialBalance + SumNet(st.trades)
    && (st.pending.None? || st.position.None?)
    && (st.pending.Some? ==> Waiting(x, st.pending.value, st.balance, done))
    && (st.position.Some? ==> Opened(x, st.position.value, st.balance, done))
    && TradesExplained(x, st.trades)
  }

  lemma AnotherExplained(x: Setup, trades: seq<Trade>, t: Trade)
    requires TradesExplained(x, trades) && Explained(x, t, x.config.initialBalance + SumNet(trades))
    ensures TradesExplained(x, trades + [t])
  {
    hide ExplainedAt, Explained, SumNet;
    forall k | 0 <= k < |trades + [t]|
      ensures ExplainedAt(x, trades + [t], k)
    {
      AnotherExplainedAt(x, trades, t, k);
    }
  }

  lemma AnotherExplainedAt(x: Setup, trades: seq<Trade>, t: Trade, k: nat)
    requires k <= |trades|
    requires if k < |trades| then ExplainedAt(x, trades, k)
             else Explained(x, t, x.config.initialBalance + SumNet(trades))
    ensures ExplainedAt(x, trades + [t], k)
  {
    hide Explained, SumNet;
    assert (trades + [t])[..k] == trades[..k];
    assert trades[..|trades|] == trades;
  }

  lemma SumNetSnoc(trades: seq<Trade>, t: Trade)
    ensures SumNet(trades + [t]) == SumNet(trades) + t.netPnl
  {
    assert (trades + [t])[..|trades|] == trades;
  }

  /** Closing a position that was kept until bar `j` explains the trade. */
  lemma CloseExplained(x: Setup, p: OpenPosition, balance: real, j: nat, done: Progress, rawExit: real,
                       reason: ExitReason)
    requires j < |x.data.m5| && Opened(x, p, balance, done) && Ends(x, p, j, rawExit, reason)
    requires done.filled == j + 1 && done.checked >= j && done.asked >= j
    ensures Explained(x, ClosePosition(x.config, p, x.data.m5[j], rawExit, reason, CloseTime(x.data.m5[j])), balance)
  {
    var t := ClosePosition(x.config, p, x.data.m5[j], rawExit, reason, CloseTime(x.data.m5[j]));
    assert t.exitReason == reason;
    hide ClosePosition, Fills, Ends, Trigger, AsksExit;
    var h: nat, i: nat :| i < done.filled && Fills(x, p, balance, h, i) && Kept(x, p, i, done.checked, done.asked);
    assert Explains(x, t, balance, h, i, j, p, rawExit);
  }

  lemma CloseOutSound(x: Setup, st: State, j: nat, done: Progress, rawExit: real, reason: ExitReason, next: Progress)
    requires j < |x.data.m5| && Sound(x, st, done) && st.position.Some?
    requires Ends(x, st.position.value, j, rawExit, reason)
    requires done.filled == j + 1 && done.checked >= j && done.asked >= j
    ensures Sound(x, CloseOut(x.config, st, x.data.m5[j], rawExit, reason, CloseTime(x.data.m5[j])), next)
  {
    hide ClosePosition, Ends, Opened, Waiting, Explained, TradesExplained, SumNet;
    var t := ClosePosition(x.config, st.position.value, x.data.m5[j], rawExit, reason, CloseTime(x.data.m5[j]));
    CloseExplained(x, st.position.value, st.balance, j, done, rawExit, reason);
    AnotherExplained(x, st.trades, t);
    SumNetSnoc(st.trades, t);
  }

  /** Before bar `j`, and while it is gone through. */
  function Before(j: nat): Progress {
    Progress(j, j, j, j)
  }

  lemma BarStarts(x: Setup, st: State, j: nat)
    requires Sound(x, st, Before(j))
    ensures Sound(x, st, Progress(j + 1, j, j, j))
  {
    hide Fills, Kept, TradesExplained, GivenOn, Waited;
  }

  lemma OpenedChecked(x: Setup, p: OpenPosition, balance: real, j: nat, waited: nat)
    requires j < |x.data.m5| && Opened(x, p, balance, Progress(j + 1, j, j, waited)) && Trigger(p, x.data.m5[j]).None?
    ensures Opened(x, p, balance, Progress(j + 1, j + 1, j, waited))
  {
    hide Fills, Trigger, AsksExit;
    var h: nat, i: nat :| i < j + 1 && Fills(x, p, balance, h, i) && Kept(x, p, i, j, j);
    assert Kept(x, p, i, j + 1, j);
  }

  lemma OpenedAsked(x: Setup, p: OpenPosition, balance: real, j: nat)
    requires j < |x.data.m5| && Opened(x, p, balance, Progress(j + 1, j + 1, j, j + 1)) && !AsksExit(x, p.direction, j)
    ensures Opened(x, p, balance, Before(j + 1))
  {
    hide Fills, Trigger, AsksExit;
    var h: nat, i: nat :| i < j + 1 && Fills(x, p, balance, h, i) && Kept(x, p, i, j + 1, j);
    assert Kept(x, p, i, j + 1, j + 1);
  }

  lemma OpenedUnchecked(x: Setup, p: OpenPosition, balance: real, done: Progress)
    requires Opened(x, p, balance, done) && done.checked > 0 && done.checked - 1 < |x.data.m5|
    requires done.filled == done.checked
    ensures Trigger(p, x.data.m5[done.checked - 1]).None?
  {
    hide Fills, Trigger, AsksExit;
  }

  lemma ManageSound(x: Setup, st: State, j: nat, waited: nat)
    requires j < |x.data.m5| && Sound(x, st, Progress(j + 1, j, j, waited))
    ensures Sound(x, ManagePosition(x.config, st, x.data.m5[j], CloseTime(x.data.m5[j])),
                  Progress(j + 1, j + 1, j, waited))
  {
    hide CloseOut, Opened, TradesExplained, SumNet, GivenOn, Waited, Trigger;
    var done, next := Progress(j + 1, j, j, waited), Progress(j + 1, j + 1, j, waited);
    if st.position.Some? {
      var trigger := Trigger(st.position.value, x.data.m5[j]);
      if trigger.Some? {
        TriggerEnds(x, st.position.value, j);
        hide Sound;
        CloseOutSound(x, st, j, done, trigger.value.0, trigger.value.1, next);
      } else {
        OpenedChecked(x, st.position.value, st.balance, j, waited);
      }
    }
  }

  lemma TriggerEnds(x: Setup, p: OpenPosition, j: nat)
    requires j < |x.data.m5| && Trigger(p, x.data.m5[j]).Some?
    ensures Ends(x, p, j, Trigger(p, x.data.m5[j]).value.0, Trigger(p, x.data.m5[j]).value.1)
  {
    hide AsksExit;
  }

  lemma FilledNow(x: Setup, signal: Signal, balance: real, j: nat, done: Progress)
    requires j < |x.data.m5| && Waiting(x, signal, balance, done) && done.waited == j && !Lapses(signal, x.data.m5[j])
    requires FillPending(x.config, signal, x.data.m5[j], balance).Some?
    ensures Opened(x, FillPending(x.config, signal, x.data.m5[j], balance).value, balance, Progress(j + 1, j, j, j + 1))
  {
    var p := FillPending(x.config, signal, x.data.m5[j], balance).value;
    FillKeepsSignal(x.config, signal, x.data.m5[j], balance);
    hide FillPending, GivenOn, Waited, Lapses, Trigger, AsksExit;
    var h: nat :| h < j && GivenOn(x, signal, h) && Waited(x, signal, balance, h, j);
    assert Fills(x, p, balance, h, j);
    assert Kept(x, p, j, j, j);
  }

  lemma FillKeepsSignal(config: Config, signal: Signal, candle: Candle, balance: real)
    requires FillPending(config, signal, candle, balance).Some?
    ensures FillPending(config, signal, candle, balance).value.signal == signal
  {
    hide FillVolume;
  }

  lemma StillWaiting(x: Setup, signal: Signal, balance: real, j: nat, done: Progress, next: Progress)
    requires j < |x.data.m5| && Waiting(x, signal, balance, done) && done.waited == j && next.waited == j + 1
    requires !Lapses(signal, x.data.m5[j]) && FillPending(x.config, signal, x.data.m5[j], balance).None?
    ensures Waiting(x, signal, balance, next)
  {
    hide FillPending, GivenOn, Lapses;
    var h: nat :| h < j && GivenOn(x, signal, h) && Waited(x, signal, balance, h, j);
    assert Waited(x, signal, balance, h, j + 1);
  }

  lemma PendingSound(x: Setup, st: State, j: nat)
    requires j < |x.data.m5| && Sound(x, st, Progress(j + 1, j + 1, j, j))
    ensures Sound(x, ManagePending(x.config, st, x.data.m5[j], CloseTime(x.data.m5[j])),
                  Progress(j + 1, j + 1, j, j + 1))
  {
    hide FillPending, ManagePosition, TradesExplained, SumNet, Waiting, Opened;
    var done := Progress(j + 1, j + 1, j, j);
    var candle := x.data.m5[j];
    if st.position.Some? {
      OpenedWaits(x, st.position.value, st.balance, j);
    } else if st.pending.Some? && !Lapses(st.pending.value, candle) {
      var signal := st.pending.value;
      var filled := FillPending(x.config, signal, candle, st.balance);
      if filled.Some? {
        FilledNow(x, signal, st.balance, j, done);
        ManageSound(x, st.(position := filled, pending := None), j, j + 1);
      } else {
        StillWaiting(x, signal, st.balance, j, done, Progress(j + 1, j + 1, j, j + 1));
      }
    }
  }

  lemma OpenedWaits(x: Setup, p: OpenPosition, balance: real, j: nat)
    requires Opened(x, p, balance, Progress(j + 1, j + 1, j, j))
    ensures Opened(x, p, balance, Progress(j + 1, j + 1, j, j + 1))
  {
    hide Fills, Kept;
  }

  lemma GivenNow(x: Setup, balance: real, j: nat)
    requires j < |x.data.m5| && GivenOn(x, SignalOn(x, j), j)
    ensures Waiting(x, SignalOn(x, j), balance, Before(j + 1))
  {
    hide GivenOn, FillPending;
    assert Waited(x, SignalOn(x, j), balance, j, j + 1);
  }

  lemma DecideSound(x: Setup, st: State, j: nat)
    requires j < |x.data.m5| && Sound(x, st, Progress(j + 1, j + 1, j, j + 1))
    ensures Sound(x, Decide(x.config, x.strategy, st, Seen(x, j), x.data.m5[j], CloseTime(x.data.m5[j])), Before(j + 1))
  {
    hide CloseOut, TradesExplained, SumNet, Waiting, Opened, Seen, Trigger;
    var done := Progress(j + 1, j + 1, j, j + 1);
    if st.position.Some? {
      var p := st.position.value;
      if AsksExit(x, p.direction, j) {
        OpenedUnchecked(x, p, st.balance, done);
        CloseOutSound(x, st, j, done, x.data.m5[j].close, StrategyExit, Before(j + 1));
      } else {
        OpenedAsked(x, p, st.balance, j);
      }
    } else if st.pending.Some? {
      SameWaiting(x, st.pending.value, st.balance, done, Before(j + 1));
    } else if GivenOn(x, SignalOn(x, j), j) {
      GivenNow(x, st.balance, j);
    }
  }

  lemma SameWaiting(x: Setup, signal: Signal, balance: real, done: Progress, next: Progress)
    requires Waiting(x, signal, balance, done) && done.waited == next.waited
    ensures Waiting(x, signal, balance, next)
  {
    hide GivenOn, Waited;
  }

  lemma BarSound(x: Setup, st: State, j: nat)
    requires j < |x.data.m5| && Sound(x, st, Before(j))
    ensures Sound(x, Bar(x.config, x.strategy, st, Seen(x, j), x.data.m5[j]), Before(j + 1))
  {
    hide ManagePosition, ManagePending, Decide, Sound, Seen, Before;
    var at := CloseTime(x.data.m5[j]);
    BarStarts(x, st, j);
    ManageSound(x, st, j, j);
    var managed := ManagePosition(x.config, st, x.data.m5[j], at);
    PendingSound(x, managed, j);
    DecideSound(x, ManagePending(x.config, managed, x.data.m5[j], at), j);
  }

  lemma {:induction false} RunSound(x: Setup, n: nat)
    requires 0 < |x.data.m5| && n <= |x.data.m5|
    ensures Sound(x, After(x.config, x.strategy, x.data, n), Before(n))
  {
    hide Bar;
    if n == 0 {
      assert After(x.config, x.strategy, x.data, 0) == Start(x.config, x.data.m5[0].timestamp);
    } else {
      hide Sound, Before;
      RunSound(x, n - 1);
      BarSound(x, After(x.config, x.strategy, x.data, n - 1), n - 1);
    }
  }

  /**
   * Every trade of a backtest is the whole life of one signal. The strategy gave it at the close of a bar to an account
   * that held nothing; the trade opened on the first later bar that could fill it, before it lapsed, sized on the
   * balance that the earlier trades left; and it closed on the first bar that reached its stop or target, or on which
   * the strategy asked for an exit, or else at the end of the data.
   */
  lemma EveryTradeExplained(config: Config, strategy: Strategy, data: Bars)
    requires 0 < |data.m5|
    ensures TradesExplained(Setup(config, strategy, data), Outcome(config, strategy, data).trades)
  {
    hide After, CloseOut, Sound, Finish, TradesExplained, Ends;
    var x := Setup(config, strategy, data);
    var n := |data.m5|;
    var st, last := After(config, strategy, data, n), data.m5[n - 1];
    RunSound(x, n);
    SoundTrades(x, st, Before(n));
    if st.position.Some? && config.closeAtEnd {
      EndEnds(x, st);
      CloseOutSound(x, st, n - 1, Before(n), last.close, EndOfData, Before(n));
      SoundTrades(x, CloseOut(config, st, last, last.close, EndOfData, CloseTime(last)), Before(n));
    }
    FinishTrades(config, st, last);
  }

  lemma EndEnds(x: Setup, st: State)
    requires 0 < |x.data.m5| && Sound(x, st, Before(|x.data.m5|)) && st.position.Some? && x.config.closeAtEnd
    ensures var n := |x.data.m5|; Ends(x, st.position.value, n - 1, x.data.m5[n - 1].close, EndOfData)
  {
    hide Fills, Trigger, AsksExit, TradesExplained, Waiting, SumNet;
    var n := |x.data.m5|;
    var h: nat, i: nat :| i < n && Fills(x, st.position.value, st.balance, h, i) && Kept(x, st.position.value, i, n, n);
  }

  lemma SoundTrades(x: Setup, st: State, done: Progress)
    requires Sound(x, st, done)
    ensures TradesExplained(x, st.trades)
  {
    hide TradesExplained, Opened, Waiting;
  }

  lemma FinishTrades(config: Config, st: State, last: Candle)
    ensures Finish(config, st, last).trades ==
            if st.position.Some? && config.closeAtEnd
            then CloseOut(config, st, last, last.close, EndOfData, CloseTime(last)).trades
            else st.trades
  {
    hide CloseOut;
  }

  // ---------------------------------------------------------------------------
  // The accounts of every trade
  // ---------------------------------------------------------------------------

  function SpreadCost(config: Config, volume: real, cost: real): real {
    volume * config.valuePerUnit * cost
  }

  /** The risk a balance allows, with the rounding tolerance's share of one volume step. */
  function RiskAllowed(config: Config, balance: real, riskPerLot: real): real {
    balance * config.riskFraction + 0.000000000001 * config.volumeStep * riskPerLot
  }

  function Commissions(config: Config, volume: real): real {
    2.0 * (volume * config.commissionPerSide)
  }

  /**
   * The accounts of one trade that a signal opened on bar `a` with the given balance and that closed on bar `b`: where
   * it was filled, what it risked, what it cost and, when it was stopped out, what it lost.
   */
  predicate Accounts(config: Config, signal: Signal, a: Candle, b: Candle, t: Trade, balance: real) {
    && signal.entryMin.Some? && signal.entryMax.Some? && signal.takeProfits != []
    && var entryMin, entryMax := signal.entryMin.value, signal.entryMax.value;
    && var rawEntry := RawEntry(a, entryMin, entryMax);
    && t.openedAt == a.timestamp && t.closedAt == CloseTime(b)
    && a.low <= rawEntry <= a.high && entryMin <= rawEntry <= entryMax
    && t.entryPrice == rawEntry + t.direction.Sign() * ExecutionCost(config, a)
    && signal.Direction() == Some(t.direction) && signal.stopLoss == Some(t.stopLoss)
    && t.takeProfit == signal.takeProfits[0]
    && balance > 0.0 && t.volume > 0.0
    && 0.0 < t.plannedRisk <= RiskAllowed(config, balance, RiskPerLot(config, t.entryPrice, t.stopLoss))
    && t.netPnl == t.grossPnl - t.costs && t.costs >= 0.0
    && t.costs == SpreadCost(config, t.volume, ExecutionCost(config, a) + ExecutionCost(config, b))
       + Commissions(config, t.volume)
    && (t.exitReason == StopLoss ==>
          && b.low <= t.stopLoss <= b.high && t.rMultiple <= -1.0
          && t.netPnl == -(t.plannedRisk + SpreadCost(config, t.volume, ExecutionCost(config, b))
                           + Commissions(config, t.volume)))
  }

  /** The part of the accounts that the fill settles. */
  ghost predicate FillAccounts(config: Config, candle: Candle, p: OpenPosition, balance: real) {
    && PositionSound(config, p)
    && p.signal.entryMin.Some? && p.signal.entryMax.Some? && p.signal.takeProfits != []
    && var entryMin, entryMax := p.signal.entryMin.value, p.signal.entryMax.value;
    && p.rawEntry == RawEntry(candle, entryMin, entryMax)
    && candle.low <= p.rawEntry <= candle.high && entryMin <= p.rawEntry <= entryMax
    && p.entryPrice == p.rawEntry + p.direction.Sign() * ExecutionCost(config, candle)
    && p.openedAt == candle.timestamp
    && p.signal.Direction() == Some(p.direction) && p.signal.stopLoss == Some(p.stopLoss)
    && p.takeProfit == p.signal.takeProfits[0]
    && balance > 0.0
    && 0.0 < p.plannedRisk <= RiskAllowed(config, balance, RiskPerLot(config, p.entryPrice, p.stopLoss))
  }

  lemma FillIsAccounted(config: Config, candle: Candle, p: OpenPosition, balance: real)
    requires FillPending(config, p.signal, candle, balance) == Some(p)
    ensures FillAccounts(config, candle, p, balance)
  {
    hide FillPending, ExecutionCost, RiskPerLot, RawEntry;
    FillNeedsZone(config, p.signal, candle, balance);
    FillSound(config, p.signal, candle, balance);
    FillWithinBudget(config, p.signal, candle, balance);
    FillIsSound(config, p.signal, candle, balance);
    hide PositionSound;
  }

  lemma CostAccounts(config: Config, p: OpenPosition, entryCost: real, candle: Candle, rawExit: real,
                     reason: ExitReason, at: Time)
    requires PositionSound(config, p) && p.entryPrice == p.rawEntry + p.direction.Sign() * entryCost
    ensures var t := ClosePosition(config, p, candle, rawExit, reason, at);
            && t.netPnl == t.grossPnl - t.costs && t.costs >= 0.0
            && t.costs == SpreadCost(config, p.volume, entryCost + ExecutionCost(config, candle))
               + Commissions(config, p.volume)
  {
    CostsExact(config, p, candle, rawExit, reason, at);
    SignSquared(p.direction, entryCost);
    assert p.direction.Sign() * (p.entryPrice - p.rawEntry) == entryCost;
    hide ClosePosition, ExecutionCost, PositionSound;
  }

  lemma StopAccounts(config: Config, p: OpenPosition, candle: Candle, at: Time)
    requires PositionSound(config, p)
    ensures var t := ClosePosition(config, p, candle, p.stopLoss, StopLoss, at);
            && t.rMultiple <= -1.0
            && t.netPnl == -(t.plannedRisk + SpreadCost(config, p.volume, ExecutionCost(config, candle))
                             + Commissions(config, p.volume))
  {
    StopLosesPlannedRisk(config, p, candle, at);
    hide ClosePosition, ExecutionCost, PositionSound;
  }

  lemma ExplainedAccounts(x: Setup, t: Trade, balance: real, h: nat, i: nat, j: nat, p: OpenPosition, rawExit: real)
    requires Explains(x, t, balance, h, i, j, p, rawExit)
    ensures h < i <= j < |x.data.m5| && p.signal == SignalOn(x, h)
    ensures Accounts(x.config, p.signal, x.data.m5[i], x.data.m5[j], t, balance)
  {
    hide FillPending, ClosePosition, ExecutionCost, RiskPerLot, RiskAllowed, SpreadCost, Commissions, RawEntry;
    hide Asked, AsksExit, SignalOn, Waited, Kept;
    var at := CloseTime(x.data.m5[j]);
    FillIsAccounted(x.config, x.data.m5[i], p, balance);
    assert p.volume > 0.0;
    CostAccounts(x.config, p, ExecutionCost(x.config, x.data.m5[i]), x.data.m5[j], rawExit, t.exitReason, at);
    CloseKeeps(x.config, p, x.data.m5[j], rawExit, t.exitReason, at);
    if t.exitReason == StopLoss {
      StopAccounts(x.config, p, x.data.m5[j], at);
    }
    hide PositionSound;
  }

  lemma FillNeedsZone(config: Config, signal: Signal, candle: Candle, balance: real)
    requires FillPending(config, signal, candle, balance).Some?
    ensures signal.entryMin.Some? && signal.entryMax.Some?
  {
    hide FillVolume;
  }

  lemma SignSquared(direction: Direction, cost: real)
    ensures direction.Sign() * (direction.Sign() * cost) == cost
  {
  }

  lemma CloseKeeps(config: Config, p: OpenPosition, candle: Candle, rawExit: real, reason: ExitReason, at: Time)
    ensures var t := ClosePosition(config, p, candle, rawExit, reason, at);
            && t.openedAt == p.openedAt && t.closedAt == at && t.entryPrice == p.entryPrice
            && t.direction == p.direction && t.volume == p.volume && t.plannedRisk == p.plannedRisk
            && t.stopLoss == p.stopLoss && t.takeProfit == p.takeProfit && t.exitReason == reason
  {
    hide ExecutionCost;
  }

  /**
   * The strategy's signal of one bar opened the trade on a later bar, and it closed on that one or after, as accounted.
   */
  ghost predicate Accounted(x: Setup, t: Trade, balance: real) {
    exists h: nat, i: nat, j: nat :: AccountedOn(x, t, balance, h, i, j)
  }

  ghost predicate AccountedOn(x: Setup, t: Trade, balance: real, h: nat, i: nat, j: nat) {
    && h < i <= j < |x.data.m5|
    && Accounts(x.config, SignalOn(x, h), x.data.m5[i], x.data.m5[j], t, balance)
  }

  /**
   * In every backtest, every trade opens on a bar strictly after the one whose close gave its signal. Its raw fill is
   * the price at which that bar first trades inside the signal's own entry zone, its stop and target are the signal's,
   * its planned risk is within the budget of the balance before it, its costs are exactly both sides' price costs and
   * commissions, and a stop-out loses exactly the planned risk, the exit cost and the commissions.
   */
  lemma EveryTradeAccounted(config: Config, strategy: Strategy, data: Bars, k: nat)
    requires 0 < |data.m5| && k < |Outcome(config, strategy, data).trades|
    ensures var trades := Outcome(config, strategy, data).trades;
            Accounted(Setup(config, strategy, data), trades[k], config.initialBalance + SumNet(trades[..k]))
  {
    hide Outcome, Explained, Accounted, SumNet;
    var x := Setup(config, strategy, data);
    EveryTradeExplained(config, strategy, data);
    var trades := Outcome(config, strategy, data).trades;
    assert ExplainedAt(x, trades, k);
    ExplainedIsAccounted(x, trades[k], config.initialBalance + SumNet(trades[..k]));
  }

  lemma ExplainedIsAccounted(x: Setup, t: Trade, balance: real)
    requires Explained(x, t, balance)
    ensures Accounted(x, t, balance)
  {
    hide Explains, Accounts;
    var h: nat, i: nat, j: nat, p, rawExit :| Explains(x, t, balance, h, i, j, p, rawExit);
    ExplainedAccounts(x, t, balance, h, i, j, p, rawExit);
    assert AccountedOn(x, t, balance, h, i, j);
  }
}
