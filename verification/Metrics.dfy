/** One-pass performance metrics, each proved equal to its plain definition. */
module Metrics {
  import opened Domain
  import Sorting
  import opened Text

  // ---------------------------------------------------------------------------
  // Streaks
  // ---------------------------------------------------------------------------

  predicate Counts(value: real, gains: bool) {
    if gains then value > 0.0 else value < 0.0
  }

  /** `values[a..b]` is an unbroken run of gains, or of losses. */
  ghost predicate IsRun(values: seq<real>, gains: bool, a: nat, b: nat) {
    a <= b <= |values| && forall i :: a <= i < b ==> Counts(values[i], gains)
  }

  /** `n` is the length of the longest run. */
  ghost predicate LongestRun(values: seq<real>, gains: bool, n: nat) {
    && (exists a: nat, b: nat :: IsRun(values, gains, a, b) && b - a == n)
    && (forall a: nat, b: nat :: IsRun(values, gains, a, b) ==> b - a <= n)
  }

  /** The run that ends at the last value is exactly `n` long. */
  ghost predicate TrailingRun(values: seq<real>, gains: bool, n: nat) {
    && n <= |values| && IsRun(values, gains, |values| - n, |values|)
    && (n < |values| ==> !Counts(values[|values| - n - 1], gains))
  }

  lemma ExtendRun(values: seq<real>, x: real, gains: bool, longest: nat, current: nat)
    requires LongestRun(values, gains, longest) && TrailingRun(values, gains, current)
    ensures var current' := if Counts(x, gains) then current + 1 else 0;
            && TrailingRun(values + [x], gains, current')
            && LongestRun(values + [x], gains, if longest >= current' then longest else current')
  {
    hide Counts;
    var all := values + [x];
    var current' := if Counts(x, gains) then current + 1 else 0;
    var longest' := if longest >= current' then longest else current';
    var a: nat, b: nat :| IsRun(values, gains, a, b) && b - a == longest;
    assert IsRun(all, gains, a, b);
    assert IsRun(all, gains, |all| - current', |all|);
    forall c: nat, d: nat | IsRun(all, gains, c, d)
      ensures d - c <= longest'
    {
      if d <= |values| {
        assert forall i :: c <= i < d ==> all[i] == values[i];
        assert IsRun(values, gains, c, d);
      } else {
        assert current' < |all| ==> !Counts(all[|all| - current' - 1], gains);
        assert d - c <= current';
      }
    }
  }

  /** The longest unbroken runs of gains and of losses. */
  method Streaks(values: seq<real>) returns (wins: nat, losses: nat)
    ensures LongestRun(values, true, wins)
    ensures LongestRun(values, false, losses)
  {
    wins, losses := 0, 0;
    var currentWins, currentLosses := 0, 0;
    assert IsRun([], true, 0, 0) && IsRun([], false, 0, 0);
    for i := 0 to |values|
      invariant LongestRun(values[..i], true, wins) && TrailingRun(values[..i], true, currentWins)
      invariant LongestRun(values[..i], false, losses) && TrailingRun(values[..i], false, currentLosses)
    {
      hide LongestRun, TrailingRun;
      var value := values[i];
      ExtendRun(values[..i], value, true, wins, currentWins);
      ExtendRun(values[..i], value, false, losses, currentLosses);
      assert values[..i + 1] == values[..i] + [value];
      if value > 0.0 {
        currentWins := currentWins + 1;
        currentLosses := 0;
      } else if value < 0.0 {
        currentLosses := currentLosses + 1;
        currentWins := 0;
      } else {
        currentWins, currentLosses := 0, 0;
      }
      wins := if wins >= currentWins then wins else currentWins;
      losses := if losses >= currentLosses then losses else currentLosses;
    }
    assert values[..|values|] == values;
  }

  // ---------------------------------------------------------------------------
  // Drawdown
  // ---------------------------------------------------------------------------

  function Peak(equity: seq<real>): real
    requires equity != []
  {
    if |equity| == 1 then equity[0] else Max(Peak(equity[..|equity| - 1]), equity[|equity| - 1])
  }

  /** The fall of the last point from the running peak, absolute and as a fraction of a positive peak. */
  function LastFall(equity: seq<real>): real
    requires equity != []
  {
    Peak(equity) - equity[|equity| - 1]
  }

  function LastFraction(equity: seq<real>): real
    requires equity != []
  {
    if Peak(equity) > 0.0 then LastFall(equity) / Peak(equity) else 0.0
  }

  function DrawdownAmount(equity: seq<real>): real {
    if equity == [] then 0.0 else Max(DrawdownAmount(equity[..|equity| - 1]), LastFall(equity))
  }

  function DrawdownFraction(equity: seq<real>): real {
    if equity == [] then 0.0 else Max(DrawdownFraction(equity[..|equity| - 1]), LastFraction(equity))
  }

  /** One pass over the curve with a running peak. */
  method Drawdown(equity: seq<real>) returns (amount: real, fraction: real)
    ensures amount == DrawdownAmount(equity)
    ensures fraction == DrawdownFraction(equity)
  {
    amount, fraction := 0.0, 0.0;
    if equity == [] {
      return;
    }
    var peak := equity[0];
    for n := 0 to |equity|
      invariant peak == if n == 0 then equity[0] else Peak(equity[..n])
      invariant amount == DrawdownAmount(equity[..n])
      invariant fraction == DrawdownFraction(equity[..n])
    {
      assert equity[..n + 1][..n] == equity[..n];
      var point := equity[n];
      peak := if point > peak then point else peak;
      var fall := peak - point;
      var lost := if peak > 0.0 then fall / peak else 0.0;
      amount := if fall > amount then fall else amount;
      fraction := if lost > fraction then lost else fraction;
    }
    assert equity[..|equity|] == equity;
  }

  lemma {:induction false} PeakIsMaximum(equity: seq<real>) returns (top: nat)
    requires equity != []
    ensures top < |equity| && equity[top] == Peak(equity)
    ensures forall k :: 0 <= k < |equity| ==> equity[k] <= Peak(equity)
  {
    top := 0;
    if |equity| > 1 {
      var front := equity[..|equity| - 1];
      top := PeakIsMaximum(front);
      assert forall k :: 0 <= k < |front| ==> equity[k] == front[k];
      if Peak(equity) != Peak(front) {
        top := |equity| - 1;
      }
    }
  }

  /** The amount is the largest fall from any point to itself or a later one. */
  lemma {:induction false} DrawdownIsLargestFall(equity: seq<real>) returns (high: nat, low: nat)
    requires equity != []
    ensures high <= low < |equity| && equity[high] - equity[low] == DrawdownAmount(equity)
    ensures forall i, j :: 0 <= i <= j < |equity| ==> equity[i] - equity[j] <= DrawdownAmount(equity)
  {
    var n := |equity| - 1;
    var front := equity[..n];
    var top := PeakIsMaximum(equity);
    hide Peak;
    high, low := top, n;
    if n > 0 {
      var h, l := DrawdownIsLargestFall(front);
      assert forall i, j :: 0 <= i <= j < n ==> equity[i] - equity[j] == front[i] - front[j];
      if DrawdownAmount(front) >= LastFall(equity) {
        high, low := h, l;
      }
    } else {
      assert DrawdownAmount(front) == 0.0;
    }
  }

  function FractionLost(high: real, low: real): real
    requires high > 0.0
  {
    (high - low) / high
  }

  lemma HigherPeakLosesMore(low: real, high: real, e: real)
    requires 0.0 < low <= high && e >= 0.0
    ensures FractionLost(low, e) <= FractionLost(high, e)
  {
    var x, y := FractionLost(low, e), FractionLost(high, e);
    assert x * low == low - e && y * high == high - e;
    Quotients(1.0 - x, low, 1.0 - y, high, e);
  }

  lemma Quotients(u: real, low: real, v: real, high: real, e: real)
    requires 0.0 < low <= high && e >= 0.0 && u * low == e && v * high == e
    ensures v <= u
  {
    Unscale(v, high);
    assert v * (high - low) >= 0.0;
    assert (u - v) * low == v * (high - low);
    Unscale(u - v, low);
  }

  lemma Unscale(x: real, k: real)
    requires k > 0.0 && x * k >= 0.0
    ensures x >= 0.0
  {
  }

  lemma LowerPeakLosesMore(low: real, high: real, e: real)
    requires 0.0 < low < high && e < 0.0
    ensures FractionLost(low, e) > FractionLost(high, e)
  {
    var u, v := 1.0 - FractionLost(low, e), 1.0 - FractionLost(high, e);
    assert u * low == e && v * high == e;
    NegativeQuotients(u, low, v, high, e);
  }

  lemma NegativeQuotients(u: real, low: real, v: real, high: real, e: real)
    requires 0.0 < low < high && e < 0.0 && u * low == e && v * high == e
    ensures u < v
  {
    assert v < 0.0;
    assert v * (low - high) > 0.0;
    assert (v - u) * low == v * (low - high);
  }

  /** The fraction is one that some later point really lost, so it never overstates the worst loss. */
  lemma {:induction false} FractionIsAttained(equity: seq<real>) returns (high: nat, low: nat)
    requires equity != [] && DrawdownFraction(equity) != 0.0
    ensures high <= low < |equity| && equity[high] > 0.0
    ensures FractionLost(equity[high], equity[low]) == DrawdownFraction(equity)
  {
    var front := equity[..|equity| - 1];
    var top := PeakIsMaximum(equity);
    hide Peak;
    high, low := top, |equity| - 1;
    if DrawdownFraction(front) >= LastFraction(equity) {
      assert DrawdownFraction([]) == 0.0;
      high, low := FractionIsAttained(front);
    }
  }

  /** The smallest positive equity of the curve, or zero when none is positive. */
  function LowestPositive(equity: seq<real>): real {
    if equity == [] then 0.0
    else
      var before, last := LowestPositive(equity[..|equity| - 1]), equity[|equity| - 1];
      if last > 0.0 && (before == 0.0 || last < before) then last else before
  }

  lemma {:induction false} LowestPositiveIsLowest(equity: seq<real>) returns (at: nat)
    ensures LowestPositive(equity) >= 0.0
    ensures LowestPositive(equity) > 0.0 ==> at < |equity| && equity[at] == LowestPositive(equity)
    ensures forall k :: 0 <= k < |equity| && equity[k] > 0.0 ==> 0.0 < LowestPositive(equity) <= equity[k]
  {
    at := 0;
    if equity != [] {
      var n := |equity| - 1;
      at := LowestPositiveIsLowest(equity[..n]);
      assert forall k :: 0 <= k < n ==> equity[..n][k] == equity[k];
      if LowestPositive(equity) != LowestPositive(equity[..n]) {
        at := n;
      }
    }
  }

  /** Comparing two losses is comparing two products. */
  lemma LossesCompare(x: real, e: real, y: real, f: real)
    requires x > 0.0 && y > 0.0
    ensures FractionLost(x, e) <= FractionLost(y, f) <==> f * x <= e * y
  {
    var u, v := 1.0 - FractionLost(x, e), 1.0 - FractionLost(y, f);
    assert u * x == e && v * y == f;
    hide FractionLost;
    ScaledCompare(u, v, x, y);
  }

  lemma ScaledCompare(u: real, v: real, x: real, y: real)
    requires x > 0.0 && y > 0.0
    ensures v <= u <==> v * y * x <= u * x * y
  {
    var area := x * y;
    assert area > 0.0;
    assert u * x * y - v * y * x == (u - v) * area;
    if v <= u {
      assert (u - v) * area >= 0.0;
    } else {
      assert (v - u) * area > 0.0;
    }
  }

  /** Some point lost at least as much of its running peak as point `j` lost of the lowest positive equity before it. */
  ghost predicate Outdone(equity: seq<real>, j: nat)
    requires j < |equity|
  {
    exists k :: 0 <= k < |equity| && OutdoneBy(equity, j, k)
  }

  predicate OutdoneBy(equity: seq<real>, j: nat, k: nat)
    requires j < |equity| && k < |equity|
  {
    var peak := Peak(equity[..k + 1]);
    peak > 0.0 && equity[k] * LowestPositive(equity[..j + 1]) <= equity[j] * peak
  }

  /** The reported fraction is at least the loss since any earlier positive point. */
  ghost predicate CoversEveryLoss(equity: seq<real>) {
    forall i, j :: 0 <= i <= j < |equity| && equity[i] > 0.0 ==>
      FractionLost(equity[i], equity[j]) <= DrawdownFraction(equity)
  }

  lemma {:induction false} FractionCoversPoint(equity: seq<real>, k: nat)
    requires k < |equity|
    ensures LastFraction(equity[..k + 1]) <= DrawdownFraction(equity)
  {
    var n := |equity| - 1;
    if k < n {
      FractionCoversPoint(equity[..n], k);
      assert equity[..n][..k + 1] == equity[..k + 1];
    } else {
      assert equity[..k + 1] == equity;
    }
    hide LastFraction;
  }

  lemma {:induction false} FractionIsOfAPoint(equity: seq<real>) returns (k: nat)
    requires DrawdownFraction(equity) != 0.0
    ensures k < |equity| && LastFraction(equity[..k + 1]) == DrawdownFraction(equity)
  {
    hide LastFraction;
    var n := |equity| - 1;
    k := n;
    assert equity[..n + 1] == equity;
    if DrawdownFraction(equity[..n]) == DrawdownFraction(equity) {
      k := FractionIsOfAPoint(equity[..n]);
      assert equity[..n][..k + 1] == equity[..k + 1];
    }
  }

  lemma OutdoneIsCovered(equity: seq<real>, i: nat, j: nat)
    requires i <= j < |equity| && equity[i] > 0.0 && equity[j] < 0.0 && Outdone(equity, j)
    ensures FractionLost(equity[i], equity[j]) <= DrawdownFraction(equity)
  {
    hide Peak, LowestPositive, FractionLost, DrawdownFraction;
    var k :| 0 <= k < |equity| && OutdoneBy(equity, j, k);
    var peak, lowest := Peak(equity[..k + 1]), LowestPositive(equity[..j + 1]);
    var at := LowestPositiveIsLowest(equity[..j + 1]);
    assert equity[..j + 1][i] == equity[i];
    if lowest < equity[i] {
      LowerPeakLosesMore(lowest, equity[i], equity[j]);
    }
    LossesCompare(lowest, equity[j], peak, equity[k]);
    FractionCoversPoint(equity, k);
    FractionOfPeak(equity, k);
  }

  lemma FractionOfPeak(equity: seq<real>, k: nat)
    requires k < |equity|
    ensures var peak := Peak(equity[..k + 1]);
            LastFraction(equity[..k + 1]) == if peak > 0.0 then FractionLost(peak, equity[k]) else 0.0
  {
    hide Peak;
  }

  lemma CoveredIsOutdone(equity: seq<real>, j: nat)
    requires j < |equity| && equity[j] < 0.0 && LowestPositive(equity[..j + 1]) > 0.0
    requires CoversEveryLoss(equity)
    ensures Outdone(equity, j)
  {
    var lowest := LowestPositive(equity[..j + 1]);
    var at := LowestPositiveIsLowest(equity[..j + 1]);
    assert equity[..j + 1][at] == equity[at];
    LossAboveZero(lowest, equity[j]);
    hide Peak, LowestPositive, FractionLost, DrawdownFraction, LastFraction;
    assert FractionLost(equity[at], equity[j]) <= DrawdownFraction(equity);
    var k := FractionIsOfAPoint(equity);
    FractionOfPeak(equity, k);
    LossesCompare(lowest, equity[j], Peak(equity[..k + 1]), equity[k]);
    assert OutdoneBy(equity, j, k);
  }

  lemma LossAboveZero(high: real, low: real)
    requires low < 0.0 < high
    ensures FractionLost(high, low) > 0.0
  {
    assert FractionLost(high, low) * high == high - low;
  }

  /**
   * The reported fraction is the largest loss since any earlier positive point exactly when every point below zero is
   * outdone: some point fell at least as far, in proportion, from its running peak as this one did from the lowest
   * positive equity before it.
   */
  lemma FractionIsLargestIff(equity: seq<real>)
    ensures CoversEveryLoss(equity) <==>
            forall j :: 0 <= j < |equity| && equity[j] < 0.0 && LowestPositive(equity[..j + 1]) > 0.0 ==>
              Outdone(equity, j)
  {
    hide Outdone, DrawdownFraction, FractionLost, LowestPositive;
    if CoversEveryLoss(equity) {
      forall j | 0 <= j < |equity| && equity[j] < 0.0 && LowestPositive(equity[..j + 1]) > 0.0
        ensures Outdone(equity, j)
      {
        CoveredIsOutdone(equity, j);
      }
    }
    if forall j :: 0 <= j < |equity| && equity[j] < 0.0 && LowestPositive(equity[..j + 1]) > 0.0 ==>
      Outdone(equity, j) {
      forall i, j | 0 <= i <= j < |equity| && equity[i] > 0.0
        ensures FractionLost(equity[i], equity[j]) <= DrawdownFraction(equity)
      {
        PairIsCovered(equity, i, j);
      }
    }
  }

  lemma PairIsCovered(equity: seq<real>, i: nat, j: nat)
    requires i <= j < |equity| && equity[i] > 0.0
    requires equity[j] < 0.0 && LowestPositive(equity[..j + 1]) > 0.0 ==> Outdone(equity, j)
    ensures FractionLost(equity[i], equity[j]) <= DrawdownFraction(equity)
  {
    hide Outdone, DrawdownFraction, FractionLost, LowestPositive, Peak, LastFraction;
    if equity[j] >= 0.0 {
      var _ := PeakIsMaximum(equity[..j + 1]);
      assert equity[..j + 1][i] == equity[i];
      HigherPeakLosesMore(equity[i], Peak(equity[..j + 1]), equity[j]);
      FractionCoversPoint(equity, j);
      FractionOfPeak(equity, j);
    } else {
      var _ := LowestPositiveIsLowest(equity[..j + 1]);
      assert equity[..j + 1][i] == equity[i];
      OutdoneIsCovered(equity, i, j);
    }
  }

  /** While equity never goes below zero, the fraction is the largest loss. */
  lemma FractionIsLargest(equity: seq<real>)
    requires forall k :: 0 <= k < |equity| ==> equity[k] >= 0.0
    ensures CoversEveryLoss(equity)
  {
    hide CoversEveryLoss, Outdone, LowestPositive;
    FractionIsLargestIff(equity);
  }

  /** Below zero the running peak can miss the worst loss: rising from 1 to 2 and falling to -1 counts as 3/2, not 2. */
  lemma FractionMissedBelowZero()
    ensures var equity := [1.0, 2.0, -1.0];
            DrawdownFraction(equity) == 1.5 < FractionLost(equity[0], equity[2])
  {
    var equity := [1.0, 2.0, -1.0];
    assert equity[..2] == [1.0, 2.0] && [1.0, 2.0][..1] == [1.0] && [1.0][..0] == [];
    assert Peak([1.0, 2.0]) == 2.0 && Peak(equity) == 2.0;
    assert DrawdownFraction([1.0]) == 0.0 && DrawdownFraction([1.0, 2.0]) == 0.0;
  }

  // ---------------------------------------------------------------------------
  // Results per period
  // ---------------------------------------------------------------------------

  /** What the period tables read of a trade: the text key of its closing period, and its net result. */
  datatype Closed = Closed(period: string, netPnl: real)

  datatype PeriodPnl = PeriodPnl(period: string, pnl: real)

  function Total(trades: seq<Closed>): real {
    if trades == [] then 0.0 else Total(trades[..|trades| - 1]) + trades[|trades| - 1].netPnl
  }

  function TotalOf(trades: seq<Closed>, period: string): real {
    if trades == [] then 0.0
    else
      var last := trades[|trades| - 1];
      TotalOf(trades[..|trades| - 1], period) + (if last.period == period then last.netPnl else 0.0)
  }

  predicate PeriodLe(a: PeriodPnl, b: PeriodPnl) {
    TextLe(a.period, b.period)
  }

  lemma PeriodOrder()
    ensures Sorting.TotalPreorder(PeriodLe)
  {
    forall a, b
      ensures PeriodLe(a, b) || PeriodLe(b, a)
    {
      TextTotal(a.period, b.period);
    }
    forall a, b, c | PeriodLe(a, b) && PeriodLe(b, c)
      ensures PeriodLe(a, c)
    {
      TextTransitive(a.period, b.period, c.period);
    }
  }

  ghost predicate HasRow(rows: seq<PeriodPnl>, period: string) {
    exists i :: 0 <= i < |rows| && rows[i].period == period
  }

  ghost predicate HasTrade(trades: seq<Closed>, period: string) {
    exists k :: 0 <= k < |trades| && trades[k].period == period
  }

  ghost predicate DistinctPeriods(rows: seq<PeriodPnl>) {
    forall i, j :: 0 <= i < j < |rows| ==> rows[i].period != rows[j].period
  }

  /** One row per period that closed a trade, holding the sum of that period's results. */
  ghost predicate HoldsPeriods(rows: seq<PeriodPnl>, trades: seq<Closed>) {
    && DistinctPeriods(rows)
    && (forall i :: 0 <= i < |rows| ==> rows[i].pnl == TotalOf(trades, rows[i].period))
    && (forall p :: HasRow(rows, p) <==> HasTrade(trades, p))
  }

  lemma AnotherTrade(trades: seq<Closed>, n: nat)
    requires n < |trades|
    ensures forall p :: HasTrade(trades[..n + 1], p) <==> HasTrade(trades[..n], p) || p == trades[n].period
  {
    forall p
      ensures HasTrade(trades[..n + 1], p) <==> HasTrade(trades[..n], p) || p == trades[n].period
    {
      assert trades[..n + 1][n] == trades[n];
      if HasTrade(trades[..n], p) {
        var k :| 0 <= k < n && trades[..n][k].period == p;
        assert trades[..n + 1][k].period == p;
      }
      if HasTrade(trades[..n + 1], p) && p != trades[n].period {
        var k :| 0 <= k < n + 1 && trades[..n + 1][k].period == p;
        assert trades[..n][k].period == p;
      }
    }
  }

  lemma AnotherRow(rows: seq<PeriodPnl>, row: PeriodPnl, p: string)
    ensures HasRow(rows + [row], p) <==> HasRow(rows, p) || p == row.period
  {
    assert (rows + [row])[|rows|] == row;
    if HasRow(rows, p) {
      var i :| 0 <= i < |rows| && rows[i].period == p;
      assert (rows + [row])[i].period == p;
    }
  }

  method GroupByPeriod(trades: seq<Closed>) returns (grouped: map<string, real>)
    ensures forall p :: p in grouped <==> HasTrade(trades, p)
    ensures forall p :: p in grouped ==> grouped[p] == TotalOf(trades, p)
  {
    grouped := map[];
    for n := 0 to |trades|
      invariant forall p :: p in grouped <==> HasTrade(trades[..n], p)
      invariant forall p :: TotalOf(trades[..n], p) == if p in grouped then grouped[p] else 0.0
    {
      var trade := trades[n];
      assert trades[..n + 1][..n] == trades[..n];
      AnotherTrade(trades, n);
      var sofar := if trade.period in grouped then grouped[trade.period] else 0.0;
      grouped := grouped[trade.period := sofar + trade.netPnl];
    }
    assert trades[..|trades|] == trades;
  }

  /** The net result of each period, in the order of the period keys. */
  method PeriodTotals(trades: seq<Closed>) returns (rows: seq<PeriodPnl>)
    ensures HoldsPeriods(rows, trades)
    ensures Sorting.SortedBy(rows, PeriodLe)
  {
    var grouped := GroupByPeriod(trades);
    hide TotalOf;
    rows := [];
    var todo := grouped.Keys;
    while todo != {}
      invariant todo <= grouped.Keys
      invariant DistinctPeriods(rows)
      invariant forall i :: 0 <= i < |rows| ==>
                  rows[i].period in grouped && rows[i].period !in todo && rows[i].pnl == grouped[rows[i].period]
      invariant forall p :: p in grouped && p !in todo ==> HasRow(rows, p)
      decreases todo
    {
      var period :| period in todo;
      var row := PeriodPnl(period, grouped[period]);
      forall p
        ensures HasRow(rows + [row], p) <==> HasRow(rows, p) || p == row.period
      {
        AnotherRow(rows, row, p);
      }
      rows := rows + [row];
      todo := todo - {period};
    }
    assert HoldsPeriods(rows, trades);
    PeriodOrder();
    Sorting.SortBySorts(rows, PeriodLe);
    SameRows(rows, Sorting.SortBy(rows, PeriodLe), trades);
    rows := Sorting.SortBy(rows, PeriodLe);
  }

  lemma SameRows(a: seq<PeriodPnl>, b: seq<PeriodPnl>, trades: seq<Closed>)
    requires multiset(a) == multiset(b) && HoldsPeriods(a, trades)
    ensures HoldsPeriods(b, trades)
  {
    hide TotalOf;
    forall i | 0 <= i < |b|
      ensures b[i].pnl == TotalOf(trades, b[i].period)
    {
      assert b[i] in multiset(a);
      var k :| 0 <= k < |a| && a[k] == b[i];
    }
    forall p
      ensures HasRow(a, p) <==> HasRow(b, p)
    {
      RowMoves(a, b, p);
      RowMoves(b, a, p);
    }
    forall i, j | 0 <= i < j < |b|
      ensures b[i].period != b[j].period
    {
      Distinct(a, b, i, j);
    }
  }

  lemma RowMoves(a: seq<PeriodPnl>, b: seq<PeriodPnl>, p: string)
    requires multiset(a) == multiset(b)
    ensures HasRow(a, p) ==> HasRow(b, p)
  {
    if HasRow(a, p) {
      var i :| 0 <= i < |a| && a[i].period == p;
      assert a[i] in multiset(b);
      var j :| 0 <= j < |b| && b[j] == a[i];
    }
  }

  lemma Distinct(a: seq<PeriodPnl>, b: seq<PeriodPnl>, i: nat, j: nat)
    requires multiset(a) == multiset(b) && i < j < |b|
    requires DistinctPeriods(a)
    ensures b[i].period != b[j].period
  {
    var x, y := b[i], b[j];
    assert x in multiset(a) && y in multiset(a);
    if x == y {
      assert b == b[..j] + [b[j]] + b[j + 1..] && b[..j][i] == x;
      assert multiset(b)[x] >= 2;
      OnceOnly(a, x);
    }
  }

  lemma {:induction false} OnceOnly(a: seq<PeriodPnl>, x: PeriodPnl)
    requires DistinctPeriods(a)
    ensures multiset(a)[x] <= 1
  {
    if a != [] {
      OnceOnly(a[1..], x);
      assert a == [a[0]] + a[1..];
      if a[0] == x {
        assert x !in a[1..];
      }
    }
  }

  function Sum(rows: seq<PeriodPnl>): real {
    if rows == [] then 0.0 else Sum(rows[..|rows| - 1]) + rows[|rows| - 1].pnl
  }

  /** The same periods, with the totals of other trades. */
  function Retotal(rows: seq<PeriodPnl>, trades: seq<Closed>): seq<PeriodPnl> {
    seq(|rows|, i requires 0 <= i < |rows| => PeriodPnl(rows[i].period, TotalOf(trades, rows[i].period)))
  }

  lemma {:induction false} AddTrade(rows: seq<PeriodPnl>, trades: seq<Closed>)
    requires trades != []
    requires DistinctPeriods(rows)
    ensures var last := trades[|trades| - 1];
            Sum(Retotal(rows, trades)) == Sum(Retotal(rows, trades[..|trades| - 1]))
                                          + (if HasRow(rows, last.period) then last.netPnl else 0.0)
  {
    var front, last := trades[..|trades| - 1], trades[|trades| - 1];
    if rows != [] {
      var n := |rows| - 1;
      AddTrade(rows[..n], trades);
      assert Retotal(rows, trades)[..n] == Retotal(rows[..n], trades);
      assert Retotal(rows, front)[..n] == Retotal(rows[..n], front);
      AnotherRow(rows[..n], rows[n], last.period);
      assert rows == rows[..n] + [rows[n]];
    }
  }

  lemma {:induction false} RetotalSums(rows: seq<PeriodPnl>, trades: seq<Closed>)
    requires DistinctPeriods(rows)
    requires forall k :: 0 <= k < |trades| ==> HasRow(rows, trades[k].period)
    ensures Sum(Retotal(rows, trades)) == Total(trades)
  {
    if trades == [] {
      ZeroRows(rows);
    } else {
      RetotalSums(rows, trades[..|trades| - 1]);
      AddTrade(rows, trades);
    }
  }

  lemma {:induction false} ZeroRows(rows: seq<PeriodPnl>)
    ensures Sum(Retotal(rows, [])) == 0.0
  {
    if rows != [] {
      ZeroRows(rows[..|rows| - 1]);
      assert Retotal(rows, [])[..|rows| - 1] == Retotal(rows[..|rows| - 1], []);
    }
  }

  /** However trades fall into periods, the period results add up to the total result. */
  lemma PeriodsSumToTotal(rows: seq<PeriodPnl>, trades: seq<Closed>)
    requires HoldsPeriods(rows, trades)
    ensures Sum(rows) == Total(trades)
  {
    forall k | 0 <= k < |trades|
      ensures HasRow(rows, trades[k].period)
    {
      assert HasTrade(trades, trades[k].period);
    }
    RetotalSums(rows, trades);
    assert Retotal(rows, trades) == rows;
  }

  // ---------------------------------------------------------------------------
  // Returns per period
  // ---------------------------------------------------------------------------

  function BalanceAfter(initial: real, rows: seq<PeriodPnl>): real {
    initial + Sum(rows)
  }

  /** The return of the last period on the balance it started from; zero on a zero balance. */
  function LastReturn(initial: real, rows: seq<PeriodPnl>): real
    requires rows != []
  {
    var balance := BalanceAfter(initial, rows[..|rows| - 1]);
    if balance != 0.0 then rows[|rows| - 1].pnl / balance else 0.0
  }

  method PeriodReturns(initial: real, rows: seq<PeriodPnl>) returns (table: seq<(string, real)>)
    ensures |table| == |rows|
    ensures forall i :: 0 <= i < |rows| ==> table[i] == (rows[i].period, LastReturn(initial, rows[..i + 1]))
  {
    table := [];
    var balance := initial;
    for n := 0 to |rows|
      invariant |table| == n
      invariant balance == BalanceAfter(initial, rows[..n])
      invariant forall i :: 0 <= i < n ==> table[i] == (rows[i].period, LastReturn(initial, rows[..i + 1]))
    {
      var PeriodPnl(period, pnl) := rows[n];
      assert rows[..n + 1][..n] == rows[..n];
      table := table + [(period, if balance != 0.0 then pnl / balance else 0.0)];
      balance := balance + pnl;
    }
  }

  /** The initial balance grown by every period's return in turn. */
  function Compounded(initial: real, rows: seq<PeriodPnl>): real {
    if rows == [] then initial else Compounded(initial, rows[..|rows| - 1]) * (1.0 + LastReturn(initial, rows))
  }

  /** Some period starts from a zero balance. */
  ghost predicate Busted(initial: real, rows: seq<PeriodPnl>) {
    exists n :: 0 <= n < |rows| && BalanceAfter(initial, rows[..n]) == 0.0
  }

  lemma {:induction false} CompoundingTelescopes(initial: real, rows: seq<PeriodPnl>)
    requires initial != 0.0
    ensures Compounded(initial, rows) == if Busted(initial, rows) then 0.0 else BalanceAfter(initial, rows)
  {
    if rows != [] {
      var n := |rows| - 1;
      var front := rows[..n];
      CompoundingTelescopes(initial, front);
      BustedEarlier(initial, rows);
      var balance, r := BalanceAfter(initial, front), LastReturn(initial, rows);
      assert BalanceAfter(initial, rows) == balance + rows[n].pnl;
      if balance != 0.0 {
        assert r * balance == rows[n].pnl;
        assert balance * (1.0 + r) == balance + r * balance;
      }
    }
  }

  lemma BustedEarlier(initial: real, rows: seq<PeriodPnl>)
    requires rows != []
    ensures Busted(initial, rows) <==>
            Busted(initial, rows[..|rows| - 1]) || BalanceAfter(initial, rows[..|rows| - 1]) == 0.0
  {
    var front := rows[..|rows| - 1];
    assert forall n :: 0 <= n < |front| ==> front[..n] == rows[..n];
    if Busted(initial, front) {
      var n :| 0 <= n < |front| && BalanceAfter(initial, front[..n]) == 0.0;
      assert BalanceAfter(initial, rows[..n]) == 0.0;
    }
  }

  /**
   * Compounding the period returns gives the final balance exactly when no period starts from a zero balance,
   * or the account ends at zero anyway.
   */
  lemma ReturnsCompoundToBalance(initial: real, rows: seq<PeriodPnl>)
    requires initial != 0.0
    ensures Compounded(initial, rows) == BalanceAfter(initial, rows) <==>
            !Busted(initial, rows) || BalanceAfter(initial, rows) == 0.0
  {
    CompoundingTelescopes(initial, rows);
  }

  /** Losing everything and earning it back compounds to zero. */
  lemma RecoveredBustCompoundsToZero()
    ensures var rows := [PeriodPnl("a", -1.0), PeriodPnl("b", 1.0)];
            Compounded(1.0, rows) == 0.0 && BalanceAfter(1.0, rows) == 1.0
  {
    var rows := [PeriodPnl("a", -1.0), PeriodPnl("b", 1.0)];
    assert rows[..1] == [PeriodPnl("a", -1.0)] && rows[..1][..0] == [];
    assert Sum(rows[..1]) == -1.0 && Sum(rows) == 0.0;
    assert BalanceAfter(1.0, rows[..1]) == 0.0;
    CompoundingTelescopes(1.0, rows);
  }

  /** The trades come in the order of their periods. */
  ghost predicate InPeriodOrder(trades: seq<Closed>) {
    forall i, j :: 0 <= i < j < |trades| ==> TextLe(trades[i].period, trades[j].period)
  }

  ghost predicate FirstOf(trades: seq<Closed>, period: string, k: nat) {
    && k < |trades| && trades[k].period == period
    && (forall i :: 0 <= i < k ==> trades[i].period != period)
  }

  lemma {:induction false} HasFirst(trades: seq<Closed>, period: string) returns (k: nat)
    requires HasTrade(trades, period)
    ensures FirstOf(trades, period, k)
  {
    var n := |trades| - 1;
    if HasTrade(trades[..n], period) {
      k := HasFirst(trades[..n], period);
      assert forall i :: 0 <= i <= k ==> trades[..n][i] == trades[i];
    } else {
      k := n;
      assert forall i :: 0 <= i < n ==> trades[..n][i] == trades[i];
    }
  }

  /** No trade of an earlier row comes at or after the first trade of row `n`. */
  lemma EarlierRowsEnd(rows: seq<PeriodPnl>, trades: seq<Closed>, n: nat, k: nat, i: nat, m: nat)
    requires Sorting.SortedBy(rows, PeriodLe) && DistinctPeriods(rows) && InPeriodOrder(trades)
    requires i < n < |rows| && FirstOf(trades, rows[n].period, k) && k <= m < |trades|
    ensures trades[m].period != rows[i].period
  {
    if trades[m].period == rows[i].period {
      assert PeriodLe(rows[i], rows[n]);
      TextAntisymmetric(rows[i].period, rows[n].period);
    }
  }

  lemma {:induction false} TotalSettled(trades: seq<Closed>, period: string, k: nat)
    requires k <= |trades| && forall m :: k <= m < |trades| ==> trades[m].period != period
    ensures TotalOf(trades, period) == TotalOf(trades[..k], period)
  {
    if k < |trades| {
      var front := trades[..|trades| - 1];
      TotalSettled(front, period, k);
      assert front[..k] == trades[..k];
    } else {
      assert trades[..k] == trades;
    }
  }

  /** The rows before row `n` hold exactly the trades before its first one. */
  lemma RowsHoldPrefix(rows: seq<PeriodPnl>, trades: seq<Closed>, n: nat, k: nat)
    requires HoldsPeriods(rows, trades) && Sorting.SortedBy(rows, PeriodLe) && InPeriodOrder(trades)
    requires n < |rows| && FirstOf(trades, rows[n].period, k)
    ensures HoldsPeriods(rows[..n], trades[..k])
  {
    hide TotalOf;
    forall i | 0 <= i < n
      ensures rows[..n][i].pnl == TotalOf(trades[..k], rows[..n][i].period)
    {
      forall m | k <= m < |trades|
        ensures trades[m].period != rows[i].period
      {
        EarlierRowsEnd(rows, trades, n, k, i, m);
      }
      TotalSettled(trades, rows[i].period, k);
    }
    forall p
      ensures HasRow(rows[..n], p) <==> HasTrade(trades[..k], p)
    {
      RowsMeetPrefix(rows, trades, n, k, p);
    }
  }

  lemma RowsMeetPrefix(rows: seq<PeriodPnl>, trades: seq<Closed>, n: nat, k: nat, p: string)
    requires HoldsPeriods(rows, trades) && Sorting.SortedBy(rows, PeriodLe) && InPeriodOrder(trades)
    requires n < |rows| && FirstOf(trades, rows[n].period, k)
    ensures HasRow(rows[..n], p) <==> HasTrade(trades[..k], p)
  {
    hide TotalOf;
    if HasRow(rows[..n], p) {
      var i :| 0 <= i < n && rows[..n][i].period == p;
      assert rows[i].period == p && HasRow(rows, p);
      var m :| 0 <= m < |trades| && trades[m].period == p;
      if m >= k {
        EarlierRowsEnd(rows, trades, n, k, i, m);
      }
      assert trades[..k][m].period == p;
    }
    if HasTrade(trades[..k], p) {
      var m :| 0 <= m < k && trades[..k][m].period == p;
      assert trades[m].period == p && HasTrade(trades, p);
      var i :| 0 <= i < |rows| && rows[i].period == p;
      if i > n {
        assert PeriodLe(rows[n], rows[i]) && TextLe(trades[m].period, trades[k].period);
        TextAntisymmetric(p, rows[n].period);
      }
      assert rows[..n][i].period == p;
    }
  }

  /** With trades in period order, no period starts from a zero balance unless some trade does. */
  lemma NeverBusted(initial: real, rows: seq<PeriodPnl>, trades: seq<Closed>)
    requires HoldsPeriods(rows, trades) && Sorting.SortedBy(rows, PeriodLe) && InPeriodOrder(trades)
    requires forall k :: 0 <= k < |trades| ==> initial + Total(trades[..k]) != 0.0
    ensures !Busted(initial, rows)
  {
    forall n | 0 <= n < |rows|
      ensures BalanceAfter(initial, rows[..n]) != 0.0
    {
      assert HasRow(rows, rows[n].period);
      var k := HasFirst(trades, rows[n].period);
      RowsHoldPrefix(rows, trades, n, k);
      PeriodsSumToTotal(rows[..n], trades[..k]);
    }
  }
}
