/** The period returns of a backtest's own trades. */
module Returns {
  import opened Domain
  import Sorting
  import opened Text
  import opened Backtest
  import opened BacktestLaws
  import opened TradeAccounts
  import opened Metrics

  /** Later instants never have an earlier period key, as with zero-padded dates. */
  ghost predicate FollowsTime(key: Time -> string) {
    forall s, t :: s <= t ==> TextLe(key(s), key(t))
  }

  function ByPeriod(trades: seq<Trade>, key: Time -> string): seq<Closed> {
    seq(|trades|, i requires 0 <= i < |trades| => Closed(key(trades[i].closedAt), trades[i].netPnl))
  }

  lemma {:induction false} TotalIsSumNet(trades: seq<Trade>, key: Time -> string)
    ensures Total(ByPeriod(trades, key)) == SumNet(trades)
  {
    if trades != [] {
      var front := trades[..|trades| - 1];
      TotalIsSumNet(front, key);
      assert ByPeriod(trades, key)[..|front|] == ByPeriod(front, key);
    }
  }

  /** Trades close in time order, so their periods come in key order. */
  lemma TradesInPeriodOrder(config: Config, strategy: Strategy, data: Bars, key: Time -> string)
    requires ValidData(data) && FollowsTime(key)
    ensures InPeriodOrder(ByPeriod(Outcome(config, strategy, data).trades, key))
  {
    assert 0 < |data.m5|;
    hide Outcome, ValidData;
    EquityCurveIsRunningBalance(config, strategy, data);
    var r := Outcome(config, strategy, data);
    forall i, j | 0 <= i < j < |r.trades|
      ensures TextLe(key(r.trades[i].closedAt), key(r.trades[j].closedAt))
    {
      assert r.equityCurve[i + 1].timestamp < r.equityCurve[j + 1].timestamp;
    }
  }

  lemma PositiveBeforeTrade(config: Config, strategy: Strategy, data: Bars, key: Time -> string, k: nat)
    requires 0 < |data.m5| && k < |Outcome(config, strategy, data).trades|
    ensures config.initialBalance + Total(ByPeriod(Outcome(config, strategy, data).trades, key)[..k]) > 0.0
  {
    hide Outcome, Accounts, SumNet, Total;
    var trades := Outcome(config, strategy, data).trades;
    EveryTradeAccounted(config, strategy, data, k);
    AccountedIsPositive(Setup(config, strategy, data), trades[k], config.initialBalance + SumNet(trades[..k]));
    TotalIsSumNet(trades[..k], key);
    assert ByPeriod(trades, key)[..k] == ByPeriod(trades[..k], key);
  }

  lemma AccountedIsPositive(x: Setup, t: Trade, balance: real)
    requires Accounted(x, t, balance)
    ensures balance > 0.0
  {
    hide RiskAllowed, SpreadCost, Commissions, ExecutionCost, RiskPerLot;
  }

  /** In every backtest the returns of the periods compound from the initial balance to the final one. */
  lemma BacktestReturnsCompound(config: Config, strategy: Strategy, data: Bars, key: Time -> string,
                                rows: seq<PeriodPnl>)
    requires ValidData(data) && FollowsTime(key)
    requires HoldsPeriods(rows, ByPeriod(Outcome(config, strategy, data).trades, key))
    requires Sorting.SortedBy(rows, PeriodLe)
    ensures Compounded(config.initialBalance, rows) == Outcome(config, strategy, data).finalBalance
  {
    assert 0 < |data.m5|;
    hide Outcome, ValidData, HoldsPeriods, Total, SumNet, Compounded, LastReturn, TextLe;
    var r := Outcome(config, strategy, data);
    var closed := ByPeriod(r.trades, key);
    BacktestConserves(config, strategy, data);
    PeriodsSumToTotal(rows, closed);
    TotalIsSumNet(r.trades, key);
    TradesInPeriodOrder(config, strategy, data, key);
    forall k | 0 <= k < |closed|
      ensures config.initialBalance + Total(closed[..k]) != 0.0
    {
      PositiveBeforeTrade(config, strategy, data, key, k);
    }
    NeverBusted(config.initialBalance, rows, closed);
    CompoundsUnlessBusted(config.initialBalance, rows);
  }

  lemma CompoundsUnlessBusted(initial: real, rows: seq<PeriodPnl>)
    requires !Busted(initial, rows)
    ensures Compounded(initial, rows) == BalanceAfter(initial, rows)
  {
    if rows != [] {
      assert BalanceAfter(initial, rows[..0]) == initial;
      CompoundingTelescopes(initial, rows);
    }
  }
}
