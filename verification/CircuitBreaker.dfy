/** Latching loss locks, period rollover and manual recovery over an optimistic-lock store. */
module CircuitBreaker {
  import opened Domain
  import opened Trading

  const HOUR := 3600 * SECOND
  const DAY := 24 * HOUR

  /** Days are proleptic ordinals; day 1 is a Monday, and Monday is weekday 0. */
  type Day = int

  function Weekday(day: Day): int {
    (day + 6) % 7
  }

  /** The newest reset weekday that is not after `day`. */
  function WeekStart(day: Day, resetWeekday: int): Day {
    day - (Weekday(day) - resetWeekday) % 7
  }

  /**
   * A week starts on its reset weekday, and two days share a week exactly when no reset weekday falls after the first.
   */
  lemma WeekStartExact(day: Day, later: Day, resetWeekday: int)
    requires 0 <= resetWeekday < 7 && day <= later
    ensures WeekStart(day, resetWeekday) <= day < WeekStart(day, resetWeekday) + 7
    ensures Weekday(WeekStart(day, resetWeekday)) == resetWeekday
    ensures WeekStart(day, resetWeekday) <= WeekStart(later, resetWeekday)
    ensures WeekStart(day, resetWeekday) == WeekStart(later, resetWeekday) <==>
            forall d {:trigger Weekday(d)} :: day < d <= later ==> Weekday(d) != resetWeekday
  {
    var a, b := WeekStart(day, resetWeekday), WeekStart(later, resetWeekday);
    WeekStartWeekday(day, resetWeekday);
    WeekStartWeekday(later, resetWeekday);
    if a == b {
      forall d {:trigger Weekday(d)} | day < d <= later
        ensures Weekday(d) != resetWeekday
      {
        SameWeekday(a, d);
      }
    } else {
      SameWeekday(a, b);
      assert day < b <= later;
    }
  }

  lemma WeekStartWeekday(day: Day, resetWeekday: int)
    requires 0 <= resetWeekday < 7
    ensures WeekStart(day, resetWeekday) <= day < WeekStart(day, resetWeekday) + 7
    ensures Weekday(WeekStart(day, resetWeekday)) == resetWeekday
  {
  }

  /** Two days of the same weekday are a whole number of weeks apart. */
  lemma SameWeekday(a: Day, d: Day)
    ensures Weekday(a) == Weekday(d) ==> (d - a) % 7 == 0
  {
  }

  datatype CircuitState = CircuitState(
    accountId: string,
    day: Day,
    weekStart: Day,
    dailyLocked: bool,
    weeklyLocked: bool,
    accountLocked: bool,
    killSwitch: bool,
    manualReenable: bool,
    reason: string,
    version: nat,
    updatedAt: Time)

  // ---------------------------------------------------------------------------
  // The compare-and-swap store
  // ---------------------------------------------------------------------------

  function Lookup(states: map<string, CircuitState>, accountId: string): Option<CircuitState> {
    if accountId in states then Some(states[accountId]) else None
  }

  function VersionOf(current: Option<CircuitState>): nat {
    if current.Some? then current.value.version else 0
  }

  const CONFLICT := "circuit state optimistic-lock conflict"

  /** Saves on top of the expected version, or reports a conflict and changes nothing. */
  function CompareAndSwap(states: map<string, CircuitState>, state: CircuitState, expected: nat)
    : (map<string, CircuitState>, Result<CircuitState>)
  {
    if VersionOf(Lookup(states, state.accountId)) != expected then (states, Err(CONFLICT))
    else
      var persisted := state.(version := expected + 1);
      (states[state.accountId := persisted], Ok(persisted))
  }

  class InMemoryCircuitStore {
    var states: map<string, CircuitState>

    constructor ()
      ensures states == map[]
    {
      states := map[];
    }

    method Load(accountId: string) returns (r: Option<CircuitState>)
      ensures r == Lookup(states, accountId)
    {
      if accountId in states {
        return Some(states[accountId]);
      }
      return None;
    }

    method Save(state: CircuitState, expected: nat) returns (r: Result<CircuitState>)
      modifies this
      ensures (states, r) == CompareAndSwap(old(states), state, expected)
    {
      var current := Load(state.accountId);
      var currentVersion := if current.Some? then current.value.version else 0;
      if currentVersion != expected {
        return Err(CONFLICT);
      }
      var persisted := state.(version := expected + 1);
      states := states[state.accountId := persisted];
      return Ok(persisted);
    }
  }

  // ---------------------------------------------------------------------------
  // What each operation does to a state
  // ---------------------------------------------------------------------------

  /** The day and week a decision belongs to. */
  datatype Period = Period(day: Day, week: Day)

  function PeriodOf(now: Time, resetHour: int, resetWeekday: int): Period {
    var day := (now - resetHour * HOUR) / DAY;
    Period(day, WeekStart(day, resetWeekday))
  }

  /** A clock that does not go back never yields an earlier period. */
  lemma PeriodsFollowClock(now: Time, later: Time, resetHour: int, resetWeekday: int)
    requires 0 <= resetWeekday < 7 && now <= later
    ensures PeriodOf(now, resetHour, resetWeekday).day <= PeriodOf(later, resetHour, resetWeekday).day
    ensures PeriodOf(now, resetHour, resetWeekday).week <= PeriodOf(later, resetHour, resetWeekday).week
  {
    DaysFollowClock(now - resetHour * HOUR, later - resetHour * HOUR);
    WeekStartExact(PeriodOf(now, resetHour, resetWeekday).day, PeriodOf(later, resetHour, resetWeekday).day,
                   resetWeekday);
  }

  lemma DaysFollowClock(x: int, y: int)
    requires x <= y
    ensures x / DAY <= y / DAY
  {
    assert DAY == 86_400_000_000;
  }

  function Fresh(accountId: string, period: Period, now: Time): CircuitState {
    CircuitState(accountId, period.day, period.week, false, false, false, false, false, "", 0, now)
  }

  /** Opens a new period: a lock of another day or week no longer counts. */
  function RolledOver(state: CircuitState, period: Period, now: Time): CircuitState {
    state.(day := period.day,
           weekStart := period.week,
           dailyLocked := state.day == period.day && state.dailyLocked,
           weeklyLocked := state.weekStart == period.week && state.weeklyLocked,
           updatedAt := now)
  }

  predicate IsStale(state: CircuitState, period: Period) {
    state.day != period.day || state.weekStart != period.week
  }

  datatype Operation =
    | Read
    | Evaluate(equity: real, usage: Usage, limits: Limits)
    | Kill
    | Reset(clearKillSwitch: bool)

  predicate LossReached(equity: real, used: real, fraction: real) {
    equity <= 0.0 || used >= equity * fraction
  }

  predicate DrawdownReached(equity: real, peak: Option<real>, limit: real) {
    peak.Some? && peak.value > 0.0 && Max(0.0, (peak.value - equity) / peak.value) >= limit
  }

  function Reasons(daily: bool, weekly: bool, account: bool): string {
    var first := if daily then ["DAILY_LOSS_LIMIT_REACHED"] else [];
    var second := if weekly then ["WEEKLY_LOSS_LIMIT_REACHED"] else [];
    var third := if account then ["ACCOUNT_DRAWDOWN_LIMIT_REACHED"] else [];
    Joined(first + second + third)
  }

  /** The state an operation wants to commit, from the state of the current period. */
  function Applied(op: Operation, state: CircuitState, now: Time): CircuitState {
    match op
    case Read => state
    case Evaluate(equity, usage, limits) =>
      var daily := state.dailyLocked || LossReached(equity, usage.dailyLoss + usage.openRisk, limits.maximumDailyLoss);
      var weekly := state.weeklyLocked
      || LossReached(equity, usage.weeklyLoss + usage.openRisk, limits.maximumWeeklyLoss);
      var account := state.accountLocked || DrawdownReached(equity, usage.peakEquity, limits.maximumAccountDrawdown);
      var reasons := Reasons(daily, weekly, account);
      state.(dailyLocked := daily, weeklyLocked := weekly, accountLocked := account,
             manualReenable := state.manualReenable || account,
             reason := if reasons != "" then reasons else state.reason, updatedAt := now)
    case Kill => state.(killSwitch := true, reason := "KILL_SWITCH_ACTIVE", updatedAt := now)
    case Reset(clear) =>
      state.(dailyLocked := false, weeklyLocked := false, accountLocked := false,
             killSwitch := !clear && state.killSwitch, manualReenable := false,
             reason := "MANUAL_RESET", updatedAt := now)
  }

  /** Whether the operation writes its result: an evaluation that changes nothing does not. */
  predicate Writes(op: Operation, state: CircuitState, now: Time) {
    match op
    case Read => false
    case Evaluate(_, _, _) => Applied(op, state, now) != state
    case _ => true
  }

  // ---------------------------------------------------------------------------
  // The breaker
  // ---------------------------------------------------------------------------

  /** What one undisturbed operation leaves in the store, and returns. */
  function Performed(states: map<string, CircuitState>, accountId: string, op: Operation, period: Period, now: Time)
    : (map<string, CircuitState>, CircuitState)
  {
    var (current, state) := Opened(states, accountId, period, now);
    if Writes(op, state, now) then
      var updated := Applied(op, state, now).(version := state.version + 1);
      (current[accountId := updated], updated)
    else (current, state)
  }

  /** The state of the current period, opening it first if the stored one belongs to another. */
  function Opened(states: map<string, CircuitState>, accountId: string, period: Period, now: Time)
    : (map<string, CircuitState>, CircuitState)
  {
    var loaded := Lookup(states, accountId);
    if loaded.None? then (states, Fresh(accountId, period, now))
    else if IsStale(loaded.value, period) then
      var rolled := RolledOver(loaded.value, period, now).(version := loaded.value.version + 1);
      (states[accountId := rolled], rolled)
    else (states, loaded.value)
  }

  ghost predicate WellKeyed(states: map<string, CircuitState>) {
    forall a :: a in states ==> states[a].accountId == a && states[a].version > 0
  }

  class Breaker {
    const store: InMemoryCircuitStore
    const limits: Limits
    const resetHour: int
    const resetWeekday: int

    constructor (store: InMemoryCircuitStore, limits: Limits, resetHour: int, resetWeekday: int)
      requires 0 <= resetHour <= 23 && 0 <= resetWeekday <= 6
      ensures this.store == store && this.limits == limits
      ensures this.resetHour == resetHour && this.resetWeekday == resetWeekday
    {
      this.store, this.limits := store, limits;
      this.resetHour, this.resetWeekday := resetHour, resetWeekday;
    }

    /** Never conflicts when nobody else writes, and returns the state of the current period. */
    method Get(accountId: string, now: Time) returns (r: Result<CircuitState>)
      requires WellKeyed(store.states)
      modifies store
      ensures r.Ok? && (store.states, r.value) ==
              Opened(old(store.states), accountId, PeriodOf(now, resetHour, resetWeekday), now)
      ensures WellKeyed(store.states)
      ensures r.value.accountId == accountId && r.value.version == VersionOf(Lookup(store.states, accountId))
    {
      var period := PeriodOf(now, resetHour, resetWeekday);
      var loaded := store.Load(accountId);
      if loaded.None? {
        return Ok(Fresh(accountId, period, now));
      }
      var state := loaded.value;
      var dailyLocked := if state.day == period.day then state.dailyLocked else false;
      var weeklyLocked := if state.weekStart == period.week then state.weeklyLocked else false;
      if state.day != period.day || state.weekStart != period.week
         || dailyLocked != state.dailyLocked || weeklyLocked != state.weeklyLocked
      {
        var updated := state.(day := period.day, weekStart := period.week, dailyLocked := dailyLocked,
                              weeklyLocked := weeklyLocked, updatedAt := now);
        r := store.Save(updated, state.version);
        return;
      }
      return Ok(state);
    }

    method EvaluateAccount(accountId: string, equity: real, usage: Usage, now: Time) returns (r: Result<CircuitState>)
      requires WellKeyed(store.states)
      modifies store
      ensures r.Ok? && (store.states, r.value) ==
              Performed(old(store.states), accountId, Evaluate(equity, usage, limits),
                        PeriodOf(now, resetHour, resetWeekday), now)
      ensures WellKeyed(store.states)
    {
      hide Opened, PeriodOf, Applied;
      var got := Get(accountId, now);
      var state := got.value;
      var updated := Assess(state, equity, usage, now);
      if updated == state {
        return Ok(state);
      }
      r := store.Save(updated, state.version);
    }

    /** Latches every lock whose limit is reached; nothing is ever unlatched here. */
    method Assess(state: CircuitState, equity: real, usage: Usage, now: Time) returns (updated: CircuitState)
      ensures updated == Applied(Evaluate(equity, usage, limits), state, now)
      ensures updated.accountId == state.accountId
    {
      hide Reasons;
      var dailyUsed := usage.dailyLoss + usage.openRisk;
      var weeklyUsed := usage.weeklyLoss + usage.openRisk;
      var daily := state.dailyLocked || equity <= 0.0 || dailyUsed >= equity * limits.maximumDailyLoss;
      var weekly := state.weeklyLocked || equity <= 0.0 || weeklyUsed >= equity * limits.maximumWeeklyLoss;
      var account := state.accountLocked;
      if usage.peakEquity.Some? {
        var peak := usage.peakEquity.value;
        var drawdown := Max(0.0, (peak - equity) / peak);
        account := account || drawdown >= limits.maximumAccountDrawdown;
      }
      var reason := LockReasons(daily, weekly, account);
      updated := state.(dailyLocked := daily, weeklyLocked := weekly, accountLocked := account,
                            manualReenable := state.manualReenable || account,
                            reason := if reason != "" then reason else state.reason, updatedAt := now);
    }

    static method LockReasons(daily: bool, weekly: bool, account: bool) returns (reason: string)
      ensures reason == Reasons(daily, weekly, account)
    {
      var reasons: seq<string> := [];
      if daily {
        reasons := reasons + ["DAILY_LOSS_LIMIT_REACHED"];
      }
      if weekly {
        reasons := reasons + ["WEEKLY_LOSS_LIMIT_REACHED"];
      }
      if account {
        reasons := reasons + ["ACCOUNT_DRAWDOWN_LIMIT_REACHED"];
      }
      assert reasons == (if daily then ["DAILY_LOSS_LIMIT_REACHED"] else [])
                        + (if weekly then ["WEEKLY_LOSS_LIMIT_REACHED"] else [])
                        + (if account then ["ACCOUNT_DRAWDOWN_LIMIT_REACHED"] else []);
      return Joined(reasons);
    }

    method ActivateKillSwitch(accountId: string, now: Time) returns (r: Result<CircuitState>)
      requires WellKeyed(store.states)
      modifies store
      ensures r.Ok? && (store.states, r.value) ==
              Performed(old(store.states), accountId, Kill, PeriodOf(now, resetHour, resetWeekday), now)
      ensures WellKeyed(store.states)
    {
      var got := Get(accountId, now);
      var updated := got.value.(killSwitch := true, reason := "KILL_SWITCH_ACTIVE", updatedAt := now);
      r := store.Save(updated, got.value.version);
    }

    /** Refused without authorization, before the store is touched. */
    method ManualReset(accountId: string, now: Time, authorized: bool, clearKillSwitch: bool)
      returns (r: Result<CircuitState>)
      requires WellKeyed(store.states)
      modifies store
      ensures r.Ok? <==> authorized
      ensures !authorized ==> store.states == old(store.states)
      ensures authorized ==>
                (store.states, r.value) == Performed(old(store.states), accountId, Reset(clearKillSwitch),
                                                     PeriodOf(now, resetHour, resetWeekday), now)
      ensures WellKeyed(store.states)
    {
      if !authorized {
        return Err("manual circuit reset requires authorization");
      }
      var got := Get(accountId, now);
      var state := got.value;
      var updated := state.(dailyLocked := false, weeklyLocked := false, accountLocked := false,
                            killSwitch := if clearKillSwitch then false else state.killSwitch,
                            manualReenable := false, reason := "MANUAL_RESET", updatedAt := now);
      r := store.Save(updated, state.version);
    }
  }
}
