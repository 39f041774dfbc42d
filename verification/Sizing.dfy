/** Position sizing from the broker's own loss calculation. */
module Sizing {
  import opened Domain
  import opened Trading
  import opened MockBroker

  /** The broker's linear profit of a move, or the error it raises. */
  function Profit(symbols: map<string, Spec>, env: Conditions, symbol: string, direction: Direction, volume: real,
                  open: real, close: real): Result<real>
  {
    if !env.Up() then Err(UNAVAILABLE)
    else if symbol !in symbols then Err("unknown broker symbol")
    else if symbols[symbol].tickValue <= 0.0 then Err("tick value is unavailable")
    else
      var ticks := (close - open) / symbols[symbol].tickSize;
      Ok(ticks * symbols[symbol].tickValue * volume * direction.Sign())
  }

  datatype Sized = Sized(volume: real, cashRisk: real, riskFraction: real, allowedCashRisk: real, lossAtOneLot: real)

  /** The inputs the sizer does not reject outright. */
  predicate ValidInputs(account: Account, direction: Direction, entry: real, stop: real, fraction: real) {
    && account.equity > 0.0 && account.freeMargin > 0.0
    && 0.0 < fraction <= 1.0 && entry > 0.0 && stop > 0.0
    && (if direction == Long then stop < entry else entry < stop)
  }

  function Rejection(account: Account, direction: Direction, entry: real, stop: real, fraction: real): string {
    if account.equity <= 0.0 || account.freeMargin <= 0.0 then "ACCOUNT_EQUITY_OR_FREE_MARGIN_INVALID"
    else if fraction <= 0.0 || fraction > 1.0 then "RISK_FRACTION_INVALID"
    else if entry <= 0.0 || stop <= 0.0 || entry == stop then "STOP_DISTANCE_INVALID"
    else if direction == Long && stop >= entry then "LONG_STOP_NOT_BELOW_ENTRY"
    else if direction == Short && stop <= entry then "SHORT_STOP_NOT_ABOVE_ENTRY"
    else ""
  }

  function Budget(account: Account, fraction: real): real {
    account.equity * fraction
  }

  /** The volume to ask for: the affordable volume, capped at the broker's maximum and rounded down to its grid. */
  function Rounded(spec: Spec, allowed: real, loss: real): Result<real>
    requires loss > 0.0
  {
    var capped := Min(allowed / loss, spec.volumeMax);
    if capped < spec.volumeMin then Err("BROKER_MINIMUM_VOLUME_EXCEEDS_RISK_LIMIT")
    else
      var volume := spec.volumeMin + StepsBelow(spec, capped) as real * spec.volumeStep;
      if volume < spec.volumeMin || volume > spec.volumeMax then Err("ROUNDED_VOLUME_OUTSIDE_BROKER_LIMITS")
      else Ok(volume)
  }

  function StepsBelow(spec: Spec, capped: real): int {
    ((capped - spec.volumeMin) / spec.volumeStep).Floor
  }

  /** The sizing of one order; the broker is asked twice, under the conditions of each call. */
  function Calculate(symbols: map<string, Spec>, first: Conditions, second: Conditions, account: Account, spec: Spec,
                     direction: Direction, entry: real, stop: real, fraction: real): Result<Sized>
  {
    var rejection := Rejection(account, direction, entry, stop, fraction);
    if rejection != "" then Err(rejection)
    else Within(symbols, first, second, spec, direction, entry, stop, account.equity, Budget(account, fraction))
  }

  function Within(symbols: map<string, Spec>, first: Conditions, second: Conditions, spec: Spec,
                  direction: Direction, entry: real, stop: real, equity: real, allowed: real): Result<Sized>
    requires equity > 0.0
  {
    var oneLot := Profit(symbols, first, spec.name, direction, 1.0, entry, stop);
    if oneLot.Err? then Err(oneLot.error)
    else
      var loss := Abs(oneLot.value);
      if loss <= 0.0 then Err("BROKER_LOSS_CALCULATION_INVALID")
      else
        var volume := Rounded(spec, allowed, loss);
        if volume.Err? then Err(volume.error)
        else
          var actual := Profit(symbols, second, spec.name, direction, volume.value, entry, stop);
          if actual.Err? then Err(actual.error)
          else if Abs(actual.value) <= 0.0 || Abs(actual.value) > allowed then Err("ROUNDED_VOLUME_EXCEEDS_RISK_LIMIT")
          else Ok(Sized(volume.value, Abs(actual.value), Abs(actual.value) / equity, allowed, loss))
  }

  /** The loss of one lot between entry and stop. */
  function LossPerLot(spec: Spec, entry: real, stop: real): real {
    Abs(entry - stop) / spec.tickSize * spec.tickValue
  }

  /** What a volume loses at the stop, given the loss of one lot. */
  function CashRisk(volume: real, loss: real): real {
    volume * loss
  }

  /** The volume so many steps above the broker's minimum. */
  function Stepped(spec: Spec, steps: nat): real {
    spec.volumeMin + steps as real * spec.volumeStep
  }

  /** A volume on the broker's grid that is within both its maximum and the budget. */
  predicate Affordable(spec: Spec, loss: real, budget: real, steps: nat) {
    Stepped(spec, steps) <= spec.volumeMax && CashRisk(Stepped(spec, steps), loss) <= budget
  }

  lemma NoRejection(account: Account, direction: Direction, entry: real, stop: real, fraction: real)
    ensures Rejection(account, direction, entry, stop, fraction) == "" <==>
              ValidInputs(account, direction, entry, stop, fraction)
  {
  }

  lemma ProfitIsLoss(symbols: map<string, Spec>, env: Conditions, spec: Spec, direction: Direction, volume: real,
                     entry: real, stop: real)
    requires env.Up() && spec.name in symbols && symbols[spec.name] == spec && spec.tickValue > 0.0 && volume > 0.0
    requires entry != stop
    ensures var p := Profit(symbols, env, spec.name, direction, volume, entry, stop);
            p.Ok? && Abs(p.value) == CashRisk(volume, LossPerLot(spec, entry, stop))
    ensures LossPerLot(spec, entry, stop) > 0.0
  {
    var per := Abs(entry - stop) / spec.tickSize;
    Quotient(Abs(entry - stop), spec.tickSize);
    Positive(per, spec.tickValue);
    Positive(per * spec.tickValue, volume);
    var ticks := (stop - entry) / spec.tickSize;
    assert ticks == per || ticks == -per by {
      NegatedQuotient(entry - stop, spec.tickSize);
    }
    SignedProduct(ticks, per, spec.tickValue, volume, direction.Sign());
  }

  lemma Quotient(x: real, y: real)
    requires x > 0.0 && y > 0.0
    ensures x / y > 0.0
  {
  }

  lemma NegatedQuotient(x: real, y: real)
    requires y > 0.0
    ensures (-x) / y == -(x / y)
  {
  }

  lemma Positive(x: real, y: real)
    requires x > 0.0 && y > 0.0
    ensures x * y > 0.0
  {
  }

  lemma SignedProduct(ticks: real, per: real, value: real, volume: real, sign: real)
    requires (ticks == per || ticks == -per) && (sign == 1.0 || sign == -1.0)
    requires per * value * volume > 0.0
    ensures Abs(ticks * value * volume * sign) == volume * (per * value)
  {
    assert ticks * value * volume == per * value * volume || ticks * value * volume == -(per * value * volume);
  }

  lemma BudgetQuotient(budget: real, loss: real, volume: real)
    requires loss > 0.0
    ensures volume <= budget / loss <==> volume * loss <= budget
  {
    var q := budget / loss;
    assert q * loss == budget;
    if volume <= q {
      Scale(volume, q, loss);
    } else {
      ScaleStrict(q, volume, loss);
    }
  }

  /** Rounding down to the grid finds the greatest grid volume not above the cap. */
  lemma GridFloor(spec: Spec, capped: real)
    requires spec.volumeMin <= capped
    ensures 0 <= StepsBelow(spec, capped)
    ensures Stepped(spec, StepsBelow(spec, capped)) <= capped
    ensures forall j: nat :: Stepped(spec, j) <= capped ==> j <= StepsBelow(spec, capped)
  {
    var q := (capped - spec.volumeMin) / spec.volumeStep;
    assert q * spec.volumeStep == capped - spec.volumeMin;
    assert 0.0 <= q by {
      if q < 0.0 {
        ScaleStrict(q, 0.0, spec.volumeStep);
      }
    }
    Scale(q.Floor as real, q, spec.volumeStep);
    forall j: nat | Stepped(spec, j) <= capped
      ensures j <= q.Floor
    {
      if j as real > q {
        ScaleStrict(q, j as real, spec.volumeStep);
      }
      Floored(j, q);
    }
  }

  lemma Floored(j: nat, q: real)
    ensures j as real <= q ==> j <= q.Floor
  {
  }

  lemma GridStep(spec: Spec, steps: nat)
    ensures OnGrid(spec, Stepped(spec, steps)) && spec.volumeMin <= Stepped(spec, steps)
  {
    var volume := Stepped(spec, steps);
    assert volume - spec.volumeMin == steps as real * spec.volumeStep;
    assert (volume - spec.volumeMin) / spec.volumeStep == steps as real;
    Scale(0.0, steps as real, spec.volumeStep);
  }

  /** The size chosen when the minimum lot fits the budget. */
  function Best(spec: Spec, budget: real, loss: real): int
    requires loss > 0.0
  {
    StepsBelow(spec, Min(budget / loss, spec.volumeMax))
  }

  /** The steps chosen are affordable, and no larger number of steps is. */
  lemma BestIsGreatest(spec: Spec, budget: real, loss: real)
    requires loss > 0.0 && spec.volumeMin * loss <= budget
    ensures var k := Best(spec, budget, loss);
            k >= 0 && Affordable(spec, loss, budget, k) && forall j: nat :: Affordable(spec, loss, budget, j) ==> j <= k
  {
    var capped := Min(budget / loss, spec.volumeMax);
    BudgetQuotient(budget, loss, spec.volumeMin);
    GridFloor(spec, capped);
    hide StepsBelow, Stepped;
    var k: nat := Best(spec, budget, loss);
    BudgetQuotient(budget, loss, Stepped(spec, k));
    forall j: nat | Affordable(spec, loss, budget, j)
      ensures j <= k
    {
      BudgetQuotient(budget, loss, Stepped(spec, j));
    }
  }

  lemma RoundedExact(spec: Spec, budget: real, loss: real)
    requires loss > 0.0
    ensures CashRisk(spec.volumeMin, loss) > budget ==>
              Rounded(spec, budget, loss) == Err("BROKER_MINIMUM_VOLUME_EXCEEDS_RISK_LIMIT")
    ensures CashRisk(spec.volumeMin, loss) <= budget ==>
              && Best(spec, budget, loss) >= 0
              && Rounded(spec, budget, loss) == Ok(Stepped(spec, Best(spec, budget, loss)))
  {
    BudgetQuotient(budget, loss, spec.volumeMin);
    if CashRisk(spec.volumeMin, loss) <= budget {
      BestIsGreatest(spec, budget, loss);
      var k: nat := Best(spec, budget, loss);
      GridStep(spec, k);
      var capped := Min(budget / loss, spec.volumeMax);
      assert k == StepsBelow(spec, capped) && spec.volumeMin <= capped;
      hide StepsBelow, OnGrid, Best, CashRisk;
      assert spec.volumeMin <= Stepped(spec, k) <= spec.volumeMax;
    }
  }

  lemma ChosenVolume(spec: Spec, budget: real, loss: real)
    requires loss > 0.0 && CashRisk(spec.volumeMin, loss) <= budget
    ensures Rounded(spec, budget, loss).Ok?
    ensures var volume := Rounded(spec, budget, loss).value;
            && VolumeAllowed(spec, volume) && volume > 0.0
            && 0.0 < CashRisk(volume, loss) <= budget
            && GreatestAffordable(spec, loss, budget, volume)
  {
    RoundedExact(spec, budget, loss);
    BestIsGreatest(spec, budget, loss);
    hide Rounded, Best, OnGrid;
    var k: nat := Best(spec, budget, loss);
    GridStep(spec, k);
    Positive(Stepped(spec, k), loss);
    hide Stepped;
    assert Affordable(spec, loss, budget, k);
  }

  /** The volume lies on the grid at some affordable step, and no affordable step is larger. */
  ghost predicate GreatestAffordable(spec: Spec, loss: real, budget: real, volume: real) {
    exists k: nat ::
      && volume == Stepped(spec, k) && Affordable(spec, loss, budget, k)
      && forall j: nat :: Affordable(spec, loss, budget, j) ==> j <= k
  }

  /** A result is right when it is the best affordable size, or the rejection that none exists. */
  ghost predicate Exact(r: Result<Sized>, spec: Spec, loss: real, budget: real) {
    && (r.Ok? <==> CashRisk(spec.volumeMin, loss) <= budget)
    && (r.Err? ==> r.error == "BROKER_MINIMUM_VOLUME_EXCEEDS_RISK_LIMIT")
    && (r.Ok? ==>
          && r.value.cashRisk == CashRisk(r.value.volume, loss) <= r.value.allowedCashRisk == budget
          && VolumeAllowed(spec, r.value.volume)
          && GreatestAffordable(spec, loss, budget, r.value.volume))
  }

  lemma WithinExact(symbols: map<string, Spec>, first: Conditions, second: Conditions, spec: Spec,
                    direction: Direction, entry: real, stop: real, equity: real, budget: real)
    requires equity > 0.0 && entry != stop
    requires first.Up() && second.Up() && spec.name in symbols && symbols[spec.name] == spec && spec.tickValue > 0.0
    ensures Exact(Within(symbols, first, second, spec, direction, entry, stop, equity, budget),
                  spec, LossPerLot(spec, entry, stop), budget)
  {
    ProfitIsLoss(symbols, first, spec, direction, 1.0, entry, stop);
    var loss := LossPerLot(spec, entry, stop);
    RoundedExact(spec, budget, loss);
    assert CashRisk(1.0, loss) == loss;
    hide LossPerLot, Profit, Rounded, GreatestAffordable, Best, VolumeAllowed, CashRisk;
    if CashRisk(spec.volumeMin, loss) <= budget {
      ChosenVolume(spec, budget, loss);
      var volume := Rounded(spec, budget, loss).value;
      ProfitIsLoss(symbols, second, spec, direction, volume, entry, stop);
    }
  }

  lemma CalculateIsWithin(symbols: map<string, Spec>, first: Conditions, second: Conditions, account: Account,
                          spec: Spec, direction: Direction, entry: real, stop: real, fraction: real)
    requires Rejection(account, direction, entry, stop, fraction) == "" && account.equity > 0.0
    ensures Calculate(symbols, first, second, account, spec, direction, entry, stop, fraction)
         == Within(symbols, first, second, spec, direction, entry, stop, account.equity, Budget(account, fraction))
  {
  }

  /**
   * Sizing succeeds exactly when the minimum lot's loss fits the budget. It then yields the greatest volume on the
   * broker's grid that fits both the budget and the maximum, and that volume passes the broker's own volume check.
   */
  lemma SizingExact(symbols: map<string, Spec>, first: Conditions, second: Conditions, account: Account, spec: Spec,
                    direction: Direction, entry: real, stop: real, fraction: real)
    requires ValidInputs(account, direction, entry, stop, fraction)
    requires first.Up() && second.Up() && spec.name in symbols && symbols[spec.name] == spec && spec.tickValue > 0.0
    ensures Exact(Calculate(symbols, first, second, account, spec, direction, entry, stop, fraction),
                  spec, LossPerLot(spec, entry, stop), Budget(account, fraction))
  {
    NoRejection(account, direction, entry, stop, fraction);
    assert account.equity > 0.0 && entry != stop;
    hide *;
    WithinExact(symbols, first, second, spec, direction, entry, stop, account.equity, Budget(account, fraction));
    CalculateIsWithin(symbols, first, second, account, spec, direction, entry, stop, fraction);
  }
}
