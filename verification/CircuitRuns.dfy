/** Any number of workers reading, evaluating, killing and resetting one shared circuit store, step by step. */
module CircuitRuns {
  import opened Domain
  import opened Trading
  import opened CircuitBreaker

  /** One call in progress; it may be interrupted between any two store accesses. */
  datatype Worker =
    | Loading(accountId: string, op: Operation, period: Period, now: Time)
    | Rolling(accountId: string, op: Operation, period: Period, now: Time, base: CircuitState)
    | Acting(accountId: string, op: Operation, period: Period, now: Time, base: CircuitState)
    | Done(result: Result<CircuitState>)

  datatype Change = Rollover | Did(op: Operation)

  /** A successful save: what was done, when, and to which state. */
  datatype Commit = Commit(change: Change, period: Period, now: Time, base: CircuitState, state: CircuitState)

  datatype System = System(
    states: map<string, CircuitState>,
    workers: map<nat, Worker>,
    history: map<string, seq<Commit>>)

  datatype Event =
    | Call(id: nat, accountId: string, op: Operation, period: Period, now: Time)
    | Proceed(id: nat)
    | Crash(id: nat)

  const EMPTY := System(map[], map[], map[])

  function HistoryOf(sys: System, accountId: string): seq<Commit> {
    if accountId in sys.history then sys.history[accountId] else []
  }

  /** What a call does once it holds the state of its period. */
  function Settled(w: Worker, state: CircuitState): Worker
    requires !w.Done?
  {
    if Writes(w.op, state, w.now) then Acting(w.accountId, w.op, w.period, w.now, state) else Done(Ok(state))
  }

  function AfterLoad(w: Worker, loaded: Option<CircuitState>): Worker
    requires w.Loading?
  {
    if loaded.None? then Settled(w, Fresh(w.accountId, w.period, w.now))
    else if IsStale(loaded.value, w.period) then Rolling(w.accountId, w.op, w.period, w.now, loaded.value)
    else Settled(w, loaded.value)
  }

  function Wanted(w: Worker): CircuitState
    requires w.Rolling? || w.Acting?
  {
    if w.Rolling? then RolledOver(w.base, w.period, w.now) else Applied(w.op, w.base, w.now)
  }

  /** One compare-and-swap of a worker; its commit joins the history of the account. */
  function Saved(sys: System, id: nat, w: Worker): System
    requires w.Rolling? || w.Acting?
  {
    var (states, r) := CompareAndSwap(sys.states, Wanted(w), w.base.version);
    if r.Err? then sys.(workers := sys.workers[id := Done(r)])
    else
      var commit := Commit(if w.Rolling? then Rollover else Did(w.op), w.period, w.now, w.base, r.value);
      System(states,
             sys.workers[id := if w.Rolling? then Settled(w, r.value) else Done(r)],
             sys.history[w.accountId := HistoryOf(sys, w.accountId) + [commit]])
  }

  function Advance(sys: System, event: Event): System {
    match event
    case Call(id, accountId, op, period, now) =>
      if id in sys.workers then sys else sys.(workers := sys.workers[id := Loading(accountId, op, period, now)])
    case Proceed(id) =>
      if id !in sys.workers then sys
      else
        var w := sys.workers[id];
        (match w
         case Loading(accountId, _, _, _) =>
           sys.(workers := sys.workers[id := AfterLoad(w, Lookup(sys.states, accountId))])
         case Done(_) => sys
         case _ => Saved(sys, id, w))
    case Crash(id) => sys.(workers := sys.workers - {id})
  }

  function Ran(events: seq<Event>): System {
    if events == [] then EMPTY else Advance(Ran(events[..|events| - 1]), events[|events| - 1])
  }

  // ---------------------------------------------------------------------------
  // No update is lost
  // ---------------------------------------------------------------------------

  /** What a commit must hold, given the state it follows. */
  ghost predicate Linked(accountId: string, c: Commit, k: nat) {
    && c.base.accountId == accountId && c.base.version == k
    && (k == 0 ==> c.base == Fresh(accountId, c.period, c.now))
    && match c.change
       case Rollover => c.state == RolledOver(c.base, c.period, c.now).(version := k + 1)
       case Did(op) => !IsStale(c.base, c.period) && c.state == Applied(op, c.base, c.now).(version := k + 1)
  }

  /** Every commit is its operation applied to the commit right before it. */
  ghost predicate Chain(accountId: string, h: seq<Commit>) {
    && (forall k :: 0 <= k < |h| ==> Linked(accountId, h[k], k))
    && (forall k :: 0 < k < |h| ==> h[k].base == h[k - 1].state)
  }

  ghost predicate StoreOk(sys: System, a: string) {
    var h := HistoryOf(sys, a);
    Chain(a, h) && Lookup(sys.states, a) == if h == [] then None else Some(h[|h| - 1].state)
  }

  /** A worker about to save holds either a committed state or the fresh state of its own period. */
  ghost predicate WorkerOk(sys: System, w: Worker) {
    w.Rolling? || w.Acting? ==>
      var h := HistoryOf(sys, w.accountId);
      && w.base.accountId == w.accountId
      && (w.base.version == 0 ==> w.Acting? && w.base == Fresh(w.accountId, w.period, w.now))
      && (w.base.version > 0 ==> w.base.version <= |h| && h[w.base.version - 1].state == w.base)
      && (w.Acting? ==> !IsStale(w.base, w.period))
  }

  ghost predicate SystemOk(sys: System) {
    && (forall a :: StoreOk(sys, a))
    && (forall id :: id in sys.workers ==> WorkerOk(sys, sys.workers[id]))
  }

  lemma {:induction false} LinkKeepsAccount(accountId: string, c: Commit, k: nat)
    requires Linked(accountId, c, k)
    ensures c.state.accountId == accountId && c.state.version == k + 1
  {
    hide DrawdownReached, LossReached, Reasons;
  }

  lemma VersionIsLength(sys: System, a: string)
    requires StoreOk(sys, a)
    ensures VersionOf(Lookup(sys.states, a)) == |HistoryOf(sys, a)|
    ensures a in sys.states ==> sys.states[a].accountId == a
  {
    hide Linked;
    var h := HistoryOf(sys, a);
    if h != [] {
      LinkKeepsAccount(a, h[|h| - 1], |h| - 1);
    }
  }

  lemma LoadKeepsOk(sys: System, w: Worker)
    requires w.Loading? && StoreOk(sys, w.accountId)
    ensures WorkerOk(sys, AfterLoad(w, Lookup(sys.states, w.accountId)))
  {
    hide Writes, Chain;
    VersionIsLength(sys, w.accountId);
  }

  /**
   * The save of a consistent worker succeeds exactly when nothing was committed since it read, and extends the chain.
   */
  lemma SaveExtendsChain(sys: System, id: nat, w: Worker)
    requires (w.Rolling? || w.Acting?) && WorkerOk(sys, w) && StoreOk(sys, w.accountId)
    ensures var sys' := Saved(sys, id, w);
            var h := HistoryOf(sys, w.accountId);
            && StoreOk(sys', w.accountId) && WorkerOk(sys', sys'.workers[id])
            && (forall a :: a != w.accountId ==> HistoryOf(sys', a) == HistoryOf(sys, a)
                                                 && Lookup(sys'.states, a) == Lookup(sys.states, a))
            && h <= HistoryOf(sys', w.accountId)
            && (|h| == w.base.version <==> HistoryOf(sys', w.accountId) != h)
  {
    hide RolledOver, Applied, Writes, IsStale;
    var a := w.accountId;
    var h := HistoryOf(sys, a);
    VersionIsLength(sys, a);
    var (states, r) := CompareAndSwap(sys.states, Wanted(w), w.base.version);
    WantedKeepsAccount(w);
    if r.Ok? {
      var commit := Commit(if w.Rolling? then Rollover else Did(w.op), w.period, w.now, w.base, r.value);
      assert Linked(a, commit, |h|);
      assert Chain(a, h + [commit]) by {
        hide Linked;
      }
      SavedOk(sys, id, w, commit);
    }
  }

  lemma SavedOk(sys: System, id: nat, w: Worker, commit: Commit)
    requires (w.Rolling? || w.Acting?) && StoreOk(sys, w.accountId)
    requires var r := CompareAndSwap(sys.states, Wanted(w), w.base.version).1;
             r.Ok? && commit == Commit(if w.Rolling? then Rollover else Did(w.op), w.period, w.now, w.base, r.value)
    requires Chain(w.accountId, HistoryOf(sys, w.accountId) + [commit])
             && w.base.version == |HistoryOf(sys, w.accountId)|
    requires Wanted(w).accountId == w.accountId && (w.Rolling? ==> !IsStale(Wanted(w), w.period))
    ensures var sys' := Saved(sys, id, w);
            StoreOk(sys', w.accountId) && WorkerOk(sys', sys'.workers[id])
  {
    var h' := HistoryOf(sys, w.accountId) + [commit];
    var sys' := Saved(sys, id, w);
    assert HistoryOf(sys', w.accountId) == h';
    hide Wanted, Writes, Chain;
    assert commit.state == Wanted(w).(version := w.base.version + 1);
    assert !IsStale(Wanted(w), w.period) ==> !IsStale(commit.state, w.period);
  }

  lemma WantedKeepsAccount(w: Worker)
    requires w.Rolling? || w.Acting?
    ensures Wanted(w).accountId == w.base.accountId
    ensures w.Rolling? ==> !IsStale(Wanted(w), w.period)
  {
  }

  lemma OthersStayOk(sys: System, sys': System, w: Worker)
    requires WorkerOk(sys, w)
    requires forall a :: HistoryOf(sys, a) <= HistoryOf(sys', a)
    ensures WorkerOk(sys', w)
  {
    if w.Rolling? || w.Acting? {
      assert HistoryOf(sys, w.accountId) <= HistoryOf(sys', w.accountId);
    }
  }

  lemma AdvanceKeepsOk(sys: System, event: Event)
    requires SystemOk(sys)
    ensures SystemOk(Advance(sys, event))
  {
    hide StoreOk, WorkerOk, Saved, AfterLoad;
    var sys' := Advance(sys, event);
    if event.Proceed? && event.id in sys.workers {
      var w := sys.workers[event.id];
      match w
      case Loading(_, _, _, _) =>
        LoadKeepsOk(sys, w);
        SameStore(sys, sys');
      case Done(_) =>
      case _ =>
        SaveExtendsChain(sys, event.id, w);
        SaveTouchesOne(sys, event.id, w);
        forall id | id in sys.workers
          ensures WorkerOk(sys', sys.workers[id])
        {
          OthersStayOk(sys, sys', sys.workers[id]);
        }
        forall a
          ensures StoreOk(sys', a)
        {
          if a != w.accountId {
            SameAccount(sys, sys', a);
          }
        }
    } else {
      SameStore(sys, sys');
      if event.Call? {
        NewWorkerOk(sys', event);
      }
    }
  }

  lemma SaveTouchesOne(sys: System, id: nat, w: Worker)
    requires w.Rolling? || w.Acting?
    ensures forall other :: other in Saved(sys, id, w).workers <==> other in sys.workers || other == id
    ensures forall other :: other in sys.workers && other != id ==>
              Saved(sys, id, w).workers[other] == sys.workers[other]
  {
  }

  lemma NewWorkerOk(sys: System, event: Event)
    requires event.Call?
    ensures WorkerOk(sys, Loading(event.accountId, event.op, event.period, event.now))
  {
  }

  lemma SameAccount(sys: System, sys': System, a: string)
    requires StoreOk(sys, a) && HistoryOf(sys', a) == HistoryOf(sys, a)
             && Lookup(sys'.states, a) == Lookup(sys.states, a)
    ensures StoreOk(sys', a)
  {
  }

  lemma SameStore(sys: System, sys': System)
    requires sys.states == sys'.states && sys.history == sys'.history
    ensures forall a :: StoreOk(sys, a) ==> StoreOk(sys', a)
    ensures forall w :: WorkerOk(sys, w) ==> WorkerOk(sys', w)
  {
  }

  /**
   * In every interleaving, with crashes anywhere, each account's committed states form one chain: every commit is
   * its operation applied to the commit right before it, and the store holds the last one.
   */
  lemma {:induction false} NoLostUpdates(events: seq<Event>, accountId: string)
    ensures StoreOk(Ran(events), accountId)
  {
    RunOk(events);
    hide Ran, StoreOk;
  }

  lemma {:induction false} RunOk(events: seq<Event>)
    ensures SystemOk(Ran(events))
  {
    hide SystemOk, Advance;
    if events == [] {
      EmptyOk();
    } else {
      RunOk(events[..|events| - 1]);
      AdvanceKeepsOk(Ran(events[..|events| - 1]), events[|events| - 1]);
    }
  }

  lemma EmptyOk()
    ensures SystemOk(EMPTY)
  {
  }

  // ---------------------------------------------------------------------------
  // What a chain keeps
  // ---------------------------------------------------------------------------

  ghost predicate IsReset(c: Commit) {
    c.change.Did? && c.change.op.Reset?
  }

  /** The account lock and the need for manual re-enabling are always the same fact. */
  lemma {:induction false} LocksAgree(accountId: string, h: seq<Commit>, k: nat)
    requires Chain(accountId, h) && k < |h|
    ensures h[k].state.accountLocked == h[k].state.manualReenable
  {
    hide DrawdownReached, LossReached, Reasons;
    assert Linked(accountId, h[k], k);
    if k > 0 {
      LocksAgree(accountId, h, k - 1);
    }
  }

  /** Only a manual reset unlocks an account, and only one told to clears the kill switch. */
  lemma LatchesHold(accountId: string, h: seq<Commit>, k: nat)
    requires Chain(accountId, h) && 0 < k < |h|
    ensures h[k - 1].state.accountLocked && !h[k].state.accountLocked ==> IsReset(h[k])
    ensures h[k - 1].state.killSwitch && !h[k].state.killSwitch ==> h[k].change == Did(Reset(true))
  {
    hide DrawdownReached, LossReached, Reasons;
    assert Linked(accountId, h[k], k);
  }

  /** The account lock outlives everything but a reset, and the kill switch everything but a clearing reset. */
  lemma {:induction false} LatchesSurvive(accountId: string, h: seq<Commit>, j: nat, k: nat)
    requires Chain(accountId, h) && j <= k < |h|
    ensures h[j].state.accountLocked && (forall i :: j < i <= k ==> !IsReset(h[i])) ==> h[k].state.accountLocked
    ensures h[j].state.killSwitch && (forall i :: j < i <= k ==> h[i].change != Did(Reset(true))) ==>
              h[k].state.killSwitch
  {
    if j < k {
      LatchesSurvive(accountId, h, j, k - 1);
      LatchesHold(accountId, h, k);
    }
  }

  /** One commit that is no reset keeps a lock of the same period. */
  lemma LockStep(accountId: string, h: seq<Commit>, k: nat)
    requires Chain(accountId, h) && 0 < k < |h| && !IsReset(h[k])
    ensures h[k - 1].state.dailyLocked && h[k].state.day == h[k - 1].state.day ==> h[k].state.dailyLocked
    ensures h[k - 1].state.weeklyLocked && h[k].state.weekStart == h[k - 1].state.weekStart ==> h[k].state.weeklyLocked
    ensures h[k].state.day == h[k].period.day && h[k].state.weekStart == h[k].period.week
  {
    hide DrawdownReached, LossReached, Reasons;
    assert Linked(accountId, h[k], k);
  }

  /** While periods never go back, a daily lock holds for the rest of its day unless it is reset. */
  lemma {:induction false} DailyLockSurvives(accountId: string, h: seq<Commit>, j: nat, k: nat)
    requires Chain(accountId, h) && j <= k < |h|
    requires forall i :: j < i <= k ==> !IsReset(h[i]) && h[i - 1].state.day <= h[i].state.day
    requires h[j].state.dailyLocked && h[k].state.day == h[j].state.day
    ensures h[k].state.dailyLocked
  {
    if j < k {
      DaysBetween(h, j, k);
      DailyLockSurvives(accountId, h, j, k - 1);
      LockStep(accountId, h, k);
    }
  }

  lemma {:induction false} DaysBetween(h: seq<Commit>, j: nat, k: nat)
    requires j < k < |h|
    requires forall i :: j < i <= k ==> h[i - 1].state.day <= h[i].state.day
    ensures h[j].state.day <= h[k - 1].state.day
  {
    if j < k - 1 {
      DaysBetween(h, j, k - 1);
    }
  }

  /** The same for a weekly lock and its week. */
  lemma {:induction false} WeeklyLockSurvives(accountId: string, h: seq<Commit>, j: nat, k: nat)
    requires Chain(accountId, h) && j <= k < |h|
    requires forall i :: j < i <= k ==> !IsReset(h[i]) && h[i - 1].state.weekStart <= h[i].state.weekStart
    requires h[j].state.weeklyLocked && h[k].state.weekStart == h[j].state.weekStart
    ensures h[k].state.weeklyLocked
  {
    if j < k {
      WeeksBetween(h, j, k);
      WeeklyLockSurvives(accountId, h, j, k - 1);
      LockStep(accountId, h, k);
    }
  }

  lemma {:induction false} WeeksBetween(h: seq<Commit>, j: nat, k: nat)
    requires j < k < |h|
    requires forall i :: j < i <= k ==> h[i - 1].state.weekStart <= h[i].state.weekStart
    ensures h[j].state.weekStart <= h[k - 1].state.weekStart
  {
    if j < k - 1 {
      WeeksBetween(h, j, k - 1);
    }
  }

  /** An evaluation that reaches the daily limit, or the weekly one. */
  predicate LatchesDay(c: Commit) {
    && c.change.Did? && c.change.op.Evaluate?
    && var Evaluate(equity, usage, limits) := c.change.op;
       LossReached(equity, usage.dailyLoss + usage.openRisk, limits.maximumDailyLoss)
  }

  predicate LatchesWeek(c: Commit) {
    && c.change.Did? && c.change.op.Evaluate?
    && var Evaluate(equity, usage, limits) := c.change.op;
       LossReached(equity, usage.weeklyLoss + usage.openRisk, limits.maximumWeeklyLoss)
  }

  /** Commit `i` latches, and from then to `k` nothing is reset and every commit belongs to the day of `i`. */
  ghost predicate HoldsDay(h: seq<Commit>, i: nat, k: nat) {
    && i <= k < |h| && LatchesDay(h[i])
    && (forall m :: i < m <= k ==> !IsReset(h[m]) && h[m].period.day == h[i].period.day)
  }

  ghost predicate HoldsWeek(h: seq<Commit>, i: nat, k: nat) {
    && i <= k < |h| && LatchesWeek(h[i])
    && (forall m :: i < m <= k ==> !IsReset(h[m]) && h[m].period.week == h[i].period.week)
  }

  /** A commit is locked when it latches, or when it carries the lock of the commit before it into the same period. */
  lemma LockedByStep(accountId: string, h: seq<Commit>, k: nat)
    requires Chain(accountId, h) && k < |h|
    ensures h[k].state.day == h[k].period.day && h[k].state.weekStart == h[k].period.week
    ensures h[k].state.dailyLocked <==>
            LatchesDay(h[k]) || (k > 0 && !IsReset(h[k]) && h[k - 1].state.dailyLocked
                                 && h[k].period.day == h[k - 1].state.day)
    ensures h[k].state.weeklyLocked <==>
            LatchesWeek(h[k]) || (k > 0 && !IsReset(h[k]) && h[k - 1].state.weeklyLocked
                                  && h[k].period.week == h[k - 1].state.weekStart)
  {
    hide DrawdownReached, LossReached, Reasons;
    assert Linked(accountId, h[k], k);
  }

  /**
   * A commit is locked for the day exactly when some evaluation up to it reached the daily limit and, from that one on,
   * nothing was reset and every commit was made on that evaluation's day.
   */
  lemma {:induction false} DailyLockedIff(accountId: string, h: seq<Commit>, k: nat)
    requires Chain(accountId, h) && k < |h|
    ensures h[k].state.dailyLocked <==> exists i: nat :: HoldsDay(h, i, k)
  {
    hide Chain, LatchesDay, LatchesWeek, IsReset;
    LockedByStep(accountId, h, k);
    if LatchesDay(h[k]) {
      assert HoldsDay(h, k, k);
    }
    if k > 0 {
      DailyLockedIff(accountId, h, k - 1);
      LockedByStep(accountId, h, k - 1);
      if h[k - 1].state.dailyLocked && !IsReset(h[k]) && h[k].period.day == h[k - 1].state.day {
        var i: nat :| HoldsDay(h, i, k - 1);
        assert h[k - 1].period.day == h[i].period.day;
        assert HoldsDay(h, i, k);
      }
      if i: nat :| HoldsDay(h, i, k) && i < k {
        assert HoldsDay(h, i, k - 1);
        assert h[k - 1].period.day == h[i].period.day;
      }
    }
  }

  /** The same for the week. */
  lemma {:induction false} WeeklyLockedIff(accountId: string, h: seq<Commit>, k: nat)
    requires Chain(accountId, h) && k < |h|
    ensures h[k].state.weeklyLocked <==> exists i: nat :: HoldsWeek(h, i, k)
  {
    hide Chain, LatchesDay, LatchesWeek, IsReset;
    LockedByStep(accountId, h, k);
    if LatchesWeek(h[k]) {
      assert HoldsWeek(h, k, k);
    }
    if k > 0 {
      WeeklyLockedIff(accountId, h, k - 1);
      LockedByStep(accountId, h, k - 1);
      if h[k - 1].state.weeklyLocked && !IsReset(h[k]) && h[k].period.week == h[k - 1].state.weekStart {
        var i: nat :| HoldsWeek(h, i, k - 1);
        assert h[k - 1].period.week == h[i].period.week;
        assert HoldsWeek(h, i, k);
      }
      if i: nat :| HoldsWeek(h, i, k) && i < k {
        assert HoldsWeek(h, i, k - 1);
        assert h[k - 1].period.week == h[i].period.week;
      }
    }
  }

  /** In every interleaving the stored locks are exactly what the committed evaluations, days and resets say. */
  lemma StoredLocksExact(events: seq<Event>, accountId: string)
    requires accountId in Ran(events).states
    ensures var state, h := Ran(events).states[accountId], HistoryOf(Ran(events), accountId);
            && h != []
            && var last := |h| - 1;
               && (state.dailyLocked <==> exists i: nat :: HoldsDay(h, i, last))
               && (state.weeklyLocked <==> exists i: nat :: HoldsWeek(h, i, last))
  {
    NoLostUpdates(events, accountId);
    var sys := Ran(events);
    var h := HistoryOf(sys, accountId);
    assert Lookup(sys.states, accountId) == Some(sys.states[accountId]);
    hide Ran, Chain, HoldsDay, HoldsWeek;
    DailyLockedIff(accountId, h, |h| - 1);
    WeeklyLockedIff(accountId, h, |h| - 1);
  }

  /** In every reachable system the stored state of an account agrees on its lock, however the workers interleaved. */
  lemma StoredLocksAgree(events: seq<Event>, accountId: string)
    requires accountId in Ran(events).states
    ensures var state := Ran(events).states[accountId];
            state.accountLocked == state.manualReenable && state.accountId == accountId
            && state.version == |HistoryOf(Ran(events), accountId)|
  {
    NoLostUpdates(events, accountId);
    var sys := Ran(events);
    var h := HistoryOf(sys, accountId);
    assert Lookup(sys.states, accountId) == Some(sys.states[accountId]);
    hide Ran;
    LocksAgree(accountId, h, |h| - 1);
    VersionIsLength(sys, accountId);
  }

  /** A call that runs undisturbed on a system where its identity is new. */
  function Alone(sys: System, id: nat, accountId: string, op: Operation, period: Period, now: Time): System {
    var called := Advance(sys, Call(id, accountId, op, period, now));
    Advance(Advance(Advance(called, Proceed(id)), Proceed(id)), Proceed(id))
  }

  /**
   * A lock of day 5 is gone on day 5 itself, with no reset, once a worker whose clock still reads day 4 has read the
   * state.
   */
  lemma LaggingClockUnlocks(a: string)
    ensures var ruined :=
            Evaluate(0.0, UsageData(0.0, 0.0, 0.0, None), LimitsData(0.01, 0.03, 0.07, 0.1, 1, 1, 2.0, 1.0, 1));
            var locked := Alone(EMPTY, 0, a, ruined, Period(5, 1), 50);
            var lagging := Alone(locked, 1, a, Read, Period(4, 1), 40);
            var current := Alone(lagging, 2, a, Read, Period(5, 1), 60);
            && a in locked.states && locked.states[a].day == 5 && locked.states[a].dailyLocked
            && a in current.states && current.states[a].day == 5 && !current.states[a].dailyLocked
            && forall i :: 0 <= i < |HistoryOf(current, a)| ==> !IsReset(HistoryOf(current, a)[i])
  {
    hide Alone, Reasons;
    var ruined := Evaluate(0.0, UsageData(0.0, 0.0, 0.0, None), LimitsData(0.01, 0.03, 0.07, 0.1, 1, 1, 2.0, 1.0, 1));
    var locked := Alone(EMPTY, 0, a, ruined, Period(5, 1), 50);
    var lagging := Alone(locked, 1, a, Read, Period(4, 1), 40);
    AloneWrites(EMPTY, 0, a, ruined, Period(5, 1), 50);
    AloneRolls(locked, 1, a, Period(4, 1), 40);
    AloneRolls(lagging, 2, a, Period(5, 1), 60);
  }

  lemma AloneWrites(sys: System, id: nat, a: string, op: Operation, period: Period, now: Time)
    requires id !in sys.workers && a !in sys.states && HistoryOf(sys, a) == []
    requires op.Evaluate? && op.equity <= 0.0
    ensures var sys' := Alone(sys, id, a, op, period, now);
            && a in sys'.states && sys'.states[a].accountId == a
            && sys'.states[a].dailyLocked && sys'.states[a].weeklyLocked
            && sys'.states[a].day == period.day && sys'.states[a].weekStart == period.week
            && sys'.states[a].version == 1
            && |HistoryOf(sys', a)| == 1 && HistoryOf(sys', a)[0].change == Did(op)
            && sys'.workers.Keys == sys.workers.Keys + {id}
  {
    hide Reasons, DrawdownReached;
  }

  lemma AloneRolls(sys: System, id: nat, a: string, period: Period, now: Time)
    requires id !in sys.workers && a in sys.states && sys.states[a].accountId == a && IsStale(sys.states[a], period)
    ensures var sys' := Alone(sys, id, a, Read, period, now);
            && a in sys'.states
            && sys'.states[a] == RolledOver(sys.states[a], period, now).(version := sys.states[a].version + 1)
            && |HistoryOf(sys', a)| == |HistoryOf(sys, a)| + 1 && HistoryOf(sys, a) <= HistoryOf(sys', a)
            && HistoryOf(sys', a)[|HistoryOf(sys, a)|].change == Rollover
            && sys'.workers.Keys == sys.workers.Keys + {id}
  {
  }
}
