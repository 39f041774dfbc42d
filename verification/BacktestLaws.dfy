/** What holds of every backtest: no look-ahead, conservation, and the accounting of each trade. */
module BacktestLaws {
  import opened Domain
  import opened Candles
  import opened Trading
  import opened Backtest

  // ---------------------------------------------------------------------------
  // No look-ahead
  // ---------------------------------------------------------------------------

  lemma {:induction false} AvailableNested(s: seq<Candle>, early: Time, late: Time)
    requires early <= late
    ensures Available(Available(s, Some(late), true), Some(early), true) == Available(s, Some(early), true)
  {
    if s != [] {
      var front, last := s[..|s| - 1], s[|s| - 1];
      AvailableNested(front, early, late);
      var kept := Available(front, Some(late), true);
      if IsAvailable(last, Some(late), true) {
        assert Available(s, Some(late), true) == kept + [last];
        assert (kept + [last])[..|kept|] == kept;
      }
    }
  }

  lemma AvailableM5(data: Bars, i: nat)
    requires ValidData(data) && i < |data.m5|
    ensures Available(data.m5, Some(CloseTime(data.m5[i])), true) == data.m5[..i + 1]
  {
    CloseTimesIncrease(data.m5);
    AvailableIsPrefix(data.m5, CloseTime(data.m5[i]), i + 1);
  }

  /** Two data sets that nobody could tell apart when bar `i` closes. */
  ghost predicate SameSoFar(a: Bars, b: Bars, i: nat)
    requires i < |a.m5| && i < |b.m5|
  {
    var at := CloseTime(a.m5[i]);
    && a.m5[..i + 1] == b.m5[..i + 1]
    && Available(a.h1, Some(at), true) == Available(b.h1, Some(at), true)
    && Available(a.m15, Some(at), true) == Available(b.m15, Some(at), true)
  }

  lemma SameEarlier(a: Bars, b: Bars, i: nat)
    requires ValidData(a) && ValidData(b) && 0 < i < |a.m5| && i < |b.m5| && SameSoFar(a, b, i)
    ensures SameSoFar(a, b, i - 1)
  {
    var early, late := CloseTime(a.m5[i - 1]), CloseTime(a.m5[i]);
    CloseTimesIncrease(a.m5);
    AvailableNested(a.h1, early, late);
    AvailableNested(b.h1, early, late);
    AvailableNested(a.m15, early, late);
    AvailableNested(b.m15, early, late);
    assert a.m5[..i] == a.m5[..i + 1][..i] && b.m5[..i] == b.m5[..i + 1][..i];
  }

  lemma SameWindows(config: Config, a: Bars, b: Bars, i: nat)
    requires ValidData(a) && ValidData(b) && i < |a.m5| && i < |b.m5| && SameSoFar(a, b, i)
    ensures a.m5[i] == b.m5[i]
    ensures WindowsAt(config, a, CloseTime(a.m5[i])) == WindowsAt(config, b, CloseTime(a.m5[i]))
  {
    assert a.m5[i] == a.m5[..i + 1][i] == b.m5[..i + 1][i] == b.m5[i];
    AvailableM5(a, i);
    AvailableM5(b, i);
  }

  /**
   * Whatever the strategy, everything the engine holds after bar `i` is a function of what was known
   * when that bar closed: data sets that agree so far give the same state.
   */
  lemma {:induction false} NoLookAhead(config: Config, strategy: Strategy, a: Bars, b: Bars, i: nat)
    requires ValidData(a) && ValidData(b) && i < |a.m5| && i < |b.m5| && SameSoFar(a, b, i)
    ensures After(config, strategy, a, i + 1) == After(config, strategy, b, i + 1)
  {
    hide ValidData, SameSoFar, Bar, WindowsAt;
    SameWindows(config, a, b, i);
    if i > 0 {
      SameEarlier(a, b, i);
      NoLookAhead(config, strategy, a, b, i - 1);
    } else {
      assert After(config, strategy, a, 0) == Start(config, a.m5[0].timestamp);
      assert After(config, strategy, b, 0) == Start(config, b.m5[0].timestamp);
    }
  }

  // ---------------------------------------------------------------------------
  // Conservation
  // ---------------------------------------------------------------------------

  function SumNet(trades: seq<Trade>): real {
    if trades == [] then 0.0 else SumNet(trades[..|trades| - 1]) + trades[|trades| - 1].netPnl
  }

  function Count<T>(o: Option<T>): nat {
    if o.Some? then 1 else 0
  }

  /** Each signal is waiting, in the market, traded or expired; the curve is the running balance at each close. */
  ghost predicate Conserved(config: Config, st: State) {
    && (st.pending.None? || st.position.None?)
    && st.generated == st.expired + |st.trades| + Count(st.pending) + Count(st.position)
    && st.balance == config.initialBalance + SumNet(st.trades)
    && |st.curve| == |st.trades| + 1
    && (forall k :: 0 <= k < |st.curve| ==> st.curve[k].equity == config.initialBalance + SumNet(st.trades[..k]))
    && (forall k :: 0 <= k < |st.trades| ==> st.curve[k + 1].timestamp == st.trades[k].closedAt)
  }

  lemma CloseOutConserves(config: Config, st: State, candle: Candle, rawExit: real, reason: ExitReason, at: Time)
    requires Conserved(config, st) && st.position.Some?
    ensures Conserved(config, CloseOut(config, st, candle, rawExit, reason, at))
  {
    assert ClosePosition(config, st.position.value, candle, rawExit, reason, at).closedAt == at;
    hide ClosePosition;
    var next := CloseOut(config, st, candle, rawExit, reason, at);
    assert next.trades[..|st.trades|] == st.trades;
    assert next.trades[..|next.trades|] == next.trades;
    forall k | 0 <= k < |next.curve|
      ensures next.curve[k].equity == config.initialBalance + SumNet(next.trades[..k])
    {
      if k < |st.curve| {
        assert next.trades[..k] == st.trades[..k];
      }
    }
  }

  /**
   * One bar keeps conservation and closes at most one trade, stamped with the bar's close; it never
   * reopens on the bar it closed.
   */
  lemma BarConserves(config: Config, strategy: Strategy, st: State, windows: Bars, candle: Candle)
    requires Conserved(config, st)
    ensures var next := Bar(config, strategy, st, windows, candle);
            && Conserved(config, next)
            && (next.curve == st.curve || (next.position.None? && Stamped(st, next, CloseTime(candle))))
  {
    var at := CloseTime(candle);
    var managed := ManagePosition(config, st, candle, at);
    ManageConserves(config, st, candle, at);
    var settled := ManagePending(config, managed, candle, at);
    PendingConserves(config, managed, candle, at);
    hide Conserved, ManagePosition, ManagePending, Decide;
    DecideConserves(config, strategy, settled, windows, candle, at);
  }

  lemma ManageConserves(config: Config, st: State, candle: Candle, at: Time)
    requires Conserved(config, st)
    ensures var next := ManagePosition(config, st, candle, at);
            && Conserved(config, next)
            && (next == st || (st.position.Some? && next.position.None? && next.pending.None? && Stamped(st, next, at)))
  {
    hide ClosePosition, Trigger;
    if st.position.Some? {
      var trigger := Trigger(st.position.value, candle);
      if trigger.Some? {
        CloseOutConserves(config, st, candle, trigger.value.0, trigger.value.1, at);
        assert CloseOut(config, st, candle, trigger.value.0, trigger.value.1, at).curve[..|st.curve|] == st.curve;
      }
    }
  }

  ghost predicate Stamped(st: State, next: State, at: Time) {
    |next.curve| == |st.curve| + 1 && next.curve[..|st.curve|] == st.curve && next.curve[|st.curve|].timestamp == at
  }

  lemma PendingConserves(config: Config, st: State, candle: Candle, at: Time)
    requires Conserved(config, st)
    ensures var next := ManagePending(config, st, candle, at);
            && Conserved(config, next)
            && (next.curve == st.curve || (st.pending.Some? && next.position.None? && Stamped(st, next, at)))
            && (st.pending.None? ==> next == st)
  {
    hide ClosePosition, FillPending, Trigger, ManagePosition;
    if st.position.None? && st.pending.Some? {
      var filled := FillPending(config, st.pending.value, candle, st.balance);
      if filled.Some? {
        ManageConserves(config, st.(position := filled, pending := None), candle, at);
      }
    }
  }

  lemma DecideConserves(config: Config, strategy: Strategy, st: State, windows: Bars, candle: Candle, at: Time)
    requires Conserved(config, st)
    ensures var next := Decide(config, strategy, st, windows, candle, at);
            && Conserved(config, next)
            && (next.curve == st.curve || (st.position.Some? && next.position.None? && Stamped(st, next, at)))
  {
    hide ClosePosition;
    if st.position.Some? {
      CloseOutConserves(config, st, candle, candle.close, StrategyExit, at);
      assert CloseOut(config, st, candle, candle.close, StrategyExit, at).curve[..|st.curve|] == st.curve;
    }
  }

  /** The curve starts at `start`, strictly increases and ends by `limit`; nothing is open if a point falls on it. */
  ghost predicate Timed(st: State, start: Time, limit: Time) {
    && |st.curve| > 0 && st.curve[0].timestamp == start
    && (forall j, k :: 0 <= j < k < |st.curve| ==> st.curve[j].timestamp < st.curve[k].timestamp)
    && (forall k :: 0 <= k < |st.curve| ==> st.curve[k].timestamp <= limit)
    && (st.curve[|st.curve| - 1].timestamp == limit ==> st.position.None?)
  }

  lemma TimedStep(st: State, next: State, start: Time, limit: Time, at: Time)
    requires Timed(st, start, limit) && limit < at
    requires next.curve == st.curve || (next.position.None? && Stamped(st, next, at))
    ensures Timed(next, start, at)
  {
    if next.curve != st.curve {
      assert next.curve == st.curve + [next.curve[|st.curve|]];
    }
  }

  lemma {:induction false} RunConserves(config: Config, strategy: Strategy, data: Bars, n: nat)
    requires ValidData(data) && n <= |data.m5|
    ensures Conserved(config, After(config, strategy, data, n))
    ensures Timed(After(config, strategy, data, n), data.m5[0].timestamp,
                  if n == 0 then data.m5[0].timestamp else CloseTime(data.m5[n - 1]))
  {
    hide Bar;
    var start := data.m5[0].timestamp;
    if n == 0 {
      assert After(config, strategy, data, 0) == Start(config, start);
    } else {
      RunConserves(config, strategy, data, n - 1);
      var candle := data.m5[n - 1];
      var st := After(config, strategy, data, n - 1);
      CloseTimesIncrease(data.m5);
      var limit := if n == 1 then start else CloseTime(data.m5[n - 2]);
      assert limit < CloseTime(candle);
      hide Conserved, ValidData, Timed, Stamped;
      BarConserves(config, strategy, st, WindowsAt(config, data, CloseTime(candle)), candle);
      TimedStep(st, After(config, strategy, data, n), start, limit, CloseTime(candle));
    }
  }

  /**
   * Over a whole backtest no signal is lost: every one generated either expired, was traded, or is the one
   * left open when closing at the end is off; and the final balance is the initial one plus all net results.
   */
  lemma BacktestConserves(config: Config, strategy: Strategy, data: Bars)
    requires ValidData(data)
    ensures var r := Outcome(config, strategy, data);
            var leftOpen := After(config, strategy, data, |data.m5|).position.Some? && !config.closeAtEnd;
            && r.signalsGenerated == r.signalsExpired + |r.trades| + (if leftOpen then 1 else 0)
            && r.finalBalance == r.initialBalance + SumNet(r.trades)
  {
    RunConserves(config, strategy, data, |data.m5|);
    var last := data.m5[|data.m5| - 1];
    var st := After(config, strategy, data, |data.m5|);
    hide After, ClosePosition;
    if st.position.Some? {
      CloseOutConserves(config, st, last, last.close, EndOfData, CloseTime(last));
    }
  }

  /**
   * The curve is the running balance: it starts at `initial`, gains one point per trade at that trade's close,
   * ends with the final balance at the end of the data, and never goes back in time.
   */
  ghost predicate RunningBalance(curve: seq<EquityPoint>, trades: seq<Trade>, initial: real, final: real,
                                 start: Time, end: Time)
  {
    && |trades| < |curve| <= |trades| + 2
    && curve[0].timestamp == start
    && (forall k :: 0 <= k <= |trades| ==> curve[k].equity == initial + SumNet(trades[..k]))
    && (forall k :: 0 <= k < |trades| ==> curve[k + 1].timestamp == trades[k].closedAt)
    && curve[|curve| - 1] == EquityPoint(end, final)
    && (forall j, k :: 0 <= j < k < |curve| ==> curve[j].timestamp < curve[k].timestamp)
  }

  lemma EquityCurveIsRunningBalance(config: Config, strategy: Strategy, data: Bars)
    requires ValidData(data)
    ensures var r := Outcome(config, strategy, data);
            RunningBalance(r.equityCurve, r.trades, r.initialBalance, r.finalBalance, r.startedAt, r.endedAt)
  {
    RunConserves(config, strategy, data, |data.m5|);
    hide After, Conserved, Timed, Finish, ValidData, RunningBalance;
    FinishCurve(config, After(config, strategy, data, |data.m5|), data.m5[|data.m5| - 1], data.m5[0].timestamp);
  }

  lemma FinishCurve(config: Config, st: State, last: Candle, start: Time)
    requires Conserved(config, st) && Timed(st, start, CloseTime(last))
    ensures var final := Finish(config, st, last);
            RunningBalance(final.curve, final.trades, config.initialBalance, final.balance, start, CloseTime(last))
  {
    hide CloseOut, Conserved, Timed, RunningBalance;
    var at := CloseTime(last);
    EndCloses(config, st, last, start);
    EndAppends(config, if st.position.Some? && config.closeAtEnd
                       then CloseOut(config, st, last, last.close, EndOfData, at) else st, start, at);
  }

  lemma EndCloses(config: Config, st: State, last: Candle, start: Time)
    requires Conserved(config, st) && Timed(st, start, CloseTime(last))
    ensures var at := CloseTime(last);
            var closed := if st.position.Some? && config.closeAtEnd
                          then CloseOut(config, st, last, last.close, EndOfData, at) else st;
            Conserved(config, closed) && Timed(closed, start, at)
  {
    hide ClosePosition;
    if st.position.Some? {
      CloseOutConserves(config, st, last, last.close, EndOfData, CloseTime(last));
      hide Conserved;
    }
  }

  lemma EndAppends(config: Config, st: State, start: Time, at: Time)
    requires Conserved(config, st) && Timed(st, start, at)
    ensures st.curve != []
    ensures var curve := if st.curve[|st.curve| - 1].timestamp != at
                         then st.curve + [EquityPoint(at, st.balance)] else st.curve;
            RunningBalance(curve, st.trades, config.initialBalance, st.balance, start, at)
  {
    hide SumNet;
    assert st.trades[..|st.trades|] == st.trades;
  }

  // ---------------------------------------------------------------------------
  // The accounting of one trade
  // ---------------------------------------------------------------------------

  /** A fill happens where the bar and the entry zone both trade, with the stop on the losing side. */
  lemma FillSound(config: Config, signal: Signal, candle: Candle, balance: real)
    requires FillPending(config, signal, candle, balance).Some?
    ensures var p := FillPending(config, signal, candle, balance).value;
            && candle.low <= p.rawEntry <= candle.high
            && signal.entryMin.value <= p.rawEntry <= signal.entryMax.value
            && p.entryPrice == p.rawEntry + p.direction.Sign() * ExecutionCost(config, candle)
            && StopOnLosingSide(p.direction, p.stopLoss, p.entryPrice)
            && p.plannedRisk == RiskPerLot(config, p.entryPrice, p.stopLoss) * p.volume
            && p.entryCommission == p.volume * config.commissionPerSide
            && p.openedAt == candle.timestamp && p.signal == signal
            && p.rawEntry == RawEntry(candle, signal.entryMin.value, signal.entryMax.value)
            && signal.Direction() == Some(p.direction) && signal.stopLoss == Some(p.stopLoss)
            && signal.takeProfits != [] && p.takeProfit == signal.takeProfits[0]
  {
    hide FillVolume;
  }

  lemma FillVolumeBounds(config: Config, balance: real, riskPerLot: real)
    requires riskPerLot > 0.0 && FillVolume(config, balance, riskPerLot).Some?
    ensures var v := FillVolume(config, balance, riskPerLot).value;
            && balance > 0.0
            && config.minimumVolume <= v <= config.maximumVolume + 0.000000000001 * config.volumeStep
            && v * riskPerLot <= balance * config.riskFraction + 0.000000000001 * config.volumeStep * riskPerLot
  {
    var budget := Max(balance, 0.0) * config.riskFraction;
    var raw := budget / riskPerLot;
    var capped := Min(raw, config.maximumVolume);
    var v := (capped / config.volumeStep + TOLERANCE).Floor as real * config.volumeStep;
    StepsWithinCap(capped, config.volumeStep);
    assert raw * riskPerLot == budget;
    WithinBudget(v, capped, raw, config.volumeStep, riskPerLot);
  }

  const TOLERANCE := 0.000000000001

  /** Rounding to whole steps with the tolerance overshoots by at most the tolerance's share of a step. */
  lemma StepsWithinCap(capped: real, step: real)
    requires step > 0.0
    ensures (capped / step + TOLERANCE).Floor as real * step <= capped + TOLERANCE * step
  {
    var q := capped / step;
    var n := (q + TOLERANCE).Floor as real;
    assert q * step == capped;
    Scale(n, q + TOLERANCE, step);
    assert (q + TOLERANCE) * step == q * step + TOLERANCE * step;
  }

  lemma WithinBudget(v: real, capped: real, raw: real, step: real, riskPerLot: real)
    requires v <= capped + TOLERANCE * step && capped <= raw && riskPerLot > 0.0
    ensures v * riskPerLot <= raw * riskPerLot + TOLERANCE * step * riskPerLot
  {
    var slack := TOLERANCE * step;
    Scale(v, raw + slack, riskPerLot);
    assert (raw + slack) * riskPerLot == raw * riskPerLot + slack * riskPerLot;
  }

  /** The planned loss of a fill stays within the risk budget, up to the rounding tolerance of one volume step. */
  lemma FillWithinBudget(config: Config, signal: Signal, candle: Candle, balance: real)
    requires FillPending(config, signal, candle, balance).Some?
    ensures var p := FillPending(config, signal, candle, balance).value;
            && balance > 0.0 && p.plannedRisk > 0.0
            && config.minimumVolume <= p.volume <= config.maximumVolume + 0.000000000001 * config.volumeStep
            && p.plannedRisk <= balance * config.riskFraction
                                + 0.000000000001 * config.volumeStep * RiskPerLot(config, p.entryPrice, p.stopLoss)
  {
    FillSound(config, signal, candle, balance);
    var p := FillPending(config, signal, candle, balance).value;
    var riskPerLot := RiskPerLot(config, p.entryPrice, p.stopLoss);
    assert FillVolume(config, balance, riskPerLot) == Some(p.volume) by {
      hide FillVolume;
    }
    hide FillPending;
    FillVolumeBounds(config, balance, riskPerLot);
    assert p.plannedRisk == riskPerLot * p.volume > 0.0;
  }

  /** What every open position satisfies, whenever it was opened. */
  ghost predicate PositionSound(config: Config, p: OpenPosition) {
    && p.volume > 0.0
    && p.direction.Sign() * (p.entryPrice - p.rawEntry) >= 0.0
    && StopOnLosingSide(p.direction, p.stopLoss, p.entryPrice)
    && p.plannedRisk == RiskPerLot(config, p.entryPrice, p.stopLoss) * p.volume
    && p.entryCommission == p.volume * config.commissionPerSide
  }

  lemma FillIsSound(config: Config, signal: Signal, candle: Candle, balance: real)
    requires FillPending(config, signal, candle, balance).Some?
    ensures PositionSound(config, FillPending(config, signal, candle, balance).value)
  {
    FillSound(config, signal, candle, balance);
    FillWithinBudget(config, signal, candle, balance);
    hide FillPending, RiskPerLot;
  }

  /** Costs are exactly the spread and slippage of both sides at the traded size, plus both commissions. */
  lemma CostsExact(config: Config, p: OpenPosition, candle: Candle, rawExit: real, reason: ExitReason, at: Time)
    requires PositionSound(config, p)
    ensures var t := ClosePosition(config, p, candle, rawExit, reason, at);
            var entryCost := p.direction.Sign() * (p.entryPrice - p.rawEntry);
            && t.netPnl == t.grossPnl - t.costs
            && t.costs == p.volume * config.valuePerUnit * (entryCost + ExecutionCost(config, candle))
                          + 2.0 * (p.volume * config.commissionPerSide)
            && t.costs >= 0.0
  {
    var cost := ExecutionCost(config, candle);
    var sign := p.direction.Sign();
    var entryCost := sign * (p.entryPrice - p.rawEntry);
    SpreadCosts(sign, rawExit, p.rawEntry, p.entryPrice, cost, p.volume, config.valuePerUnit);
    CostNonNegative(config, candle);
    hide ExecutionCost;
    Product(p.volume, config.valuePerUnit);
    Product(p.volume * config.valuePerUnit, entryCost + cost);
    Product(p.volume, config.commissionPerSide);
  }

  lemma CostNonNegative(config: Config, candle: Candle)
    ensures ExecutionCost(config, candle) >= 0.0
  {
  }

  /** Trading at worse prices on both sides costs the two price differences at the traded size. */
  lemma SpreadCosts(sign: real, rawExit: real, rawEntry: real, entry: real, cost: real, volume: real, unit: real)
    requires sign == 1.0 || sign == -1.0
    ensures sign * (rawExit - rawEntry) * volume * unit - sign * (rawExit - sign * cost - entry) * volume * unit
         == volume * unit * (sign * (entry - rawEntry) + cost)
  {
    Factor(sign * (rawExit - rawEntry), sign * (rawExit - sign * cost - entry), volume, unit);
    assert sign * (rawExit - rawEntry) - sign * (rawExit - sign * cost - entry) == sign * (entry - rawEntry) + cost;
  }

  lemma Factor(a: real, b: real, volume: real, unit: real)
    ensures a * volume * unit - b * volume * unit == volume * unit * (a - b)
  {
  }

  lemma Product(x: real, y: real)
    requires x >= 0.0 && y >= 0.0
    ensures x * y >= 0.0
  {
  }

  /** A stopped-out trade loses its planned risk, the exit cost and both commissions: never less than one R. */
  lemma StopLosesPlannedRisk(config: Config, p: OpenPosition, candle: Candle, at: Time)
    requires PositionSound(config, p)
    ensures var t := ClosePosition(config, p, candle, p.stopLoss, StopLoss, at);
            && t.plannedRisk > 0.0
            && t.netPnl == -(t.plannedRisk + p.volume * config.valuePerUnit * ExecutionCost(config, candle)
                             + 2.0 * (p.volume * config.commissionPerSide))
            && t.netPnl <= -t.plannedRisk
            && t.rMultiple <= -1.0
  {
    var t := ClosePosition(config, p, candle, p.stopLoss, StopLoss, at);
    var cost, unit := ExecutionCost(config, candle), config.valuePerUnit;
    var distance := Abs(p.entryPrice - p.stopLoss);
    assert t.rMultiple == t.netPnl / t.plannedRisk by {
      assert distance > 0.0;
      Positive(distance * unit, p.volume);
    }
    assert t.netPnl == -(distance + cost) * p.volume * unit - 2.0 * (p.volume * config.commissionPerSide);
    assert p.plannedRisk == distance * unit * p.volume;
    hide ClosePosition, ExecutionCost, RiskPerLot, Abs;
    StopArithmetic(distance, cost, p.volume, unit);
    Product(p.volume, config.commissionPerSide);
    Ratio(t.netPnl, t.plannedRisk);
  }

  lemma Positive(x: real, y: real)
    requires x > 0.0 && y > 0.0
    ensures x * y > 0.0
  {
  }

  lemma StopArithmetic(distance: real, cost: real, volume: real, unit: real)
    requires distance > 0.0 && cost >= 0.0 && volume > 0.0 && unit > 0.0
    ensures (distance + cost) * volume * unit == distance * unit * volume + volume * unit * cost
    ensures distance * unit * volume > 0.0 && volume * unit * cost >= 0.0
  {
    assert volume * unit > 0.0;
    Product(volume * unit, cost);
    assert distance * (volume * unit) > 0.0;
  }

  lemma Ratio(loss: real, risk: real)
    requires risk > 0.0 && loss <= -risk
    ensures loss / risk <= -1.0
  {
    assert (loss / risk) * risk == loss;
  }
}
