/** Interleaved workers whose saves are a version check and an insert in two transactions of the durable log. */
module CircuitDurable {
  import opened Domain
  import opened Text
  import opened CircuitBreaker
  import Log = CircuitLog
  import Runs = CircuitRuns

  /** A call between two steps, or one that has checked its version and not yet inserted its row. */
  datatype Worker =
    | Between(call: Runs.Worker)
    | Inserting(call: Runs.Worker)

  datatype System = System(rows: seq<Log.Row>, workers: map<nat, Worker>, history: map<string, seq<Runs.Commit>>)

  const EMPTY := System([], map[], map[])

  function HistoryOf(sys: System, accountId: string): seq<Runs.Commit> {
    if accountId in sys.history then sys.history[accountId] else []
  }

  predicate Saves(call: Runs.Worker) {
    call.Rolling? || call.Acting?
  }

  function RowOf(call: Runs.Worker): CircuitState
    requires Saves(call)
  {
    Runs.Wanted(call).(version := call.base.version + 1)
  }

  /** First transaction: a version that is not the expected one ends the call. */
  function AfterCheck(sys: System, configType: string -> string, id: nat, call: Runs.Worker): System
    requires Saves(call)
  {
    var w := Log.Checked(sys.rows, configType, Runs.Wanted(call), call.base.version);
    sys.(workers := sys.workers[id := if w.Finished? then Between(Runs.Done(w.result)) else Inserting(call)])
  }

  /** Second transaction: the row is appended and committed, or meets the unique key. */
  function AfterInsert(sys: System, configType: string -> string, id: nat, call: Runs.Worker): System
    requires Saves(call)
  {
    var (rows, r) := Log.Inserted(sys.rows, configType, RowOf(call));
    if r.Err? then sys.(workers := sys.workers[id := Between(Runs.Done(r))])
    else
      var commit := Runs.Commit(if call.Rolling? then Runs.Rollover else Runs.Did(call.op), call.period, call.now,
                                call.base, r.value);
      System(rows,
             sys.workers[id := Between(if call.Rolling? then Runs.Settled(call, r.value) else Runs.Done(r))],
             sys.history[call.accountId := HistoryOf(sys, call.accountId) + [commit]])
  }

  function Advance(sys: System, configType: string -> string, event: Runs.Event): System {
    match event
    case Call(id, accountId, op, period, now) =>
      if id in sys.workers then sys
      else sys.(workers := sys.workers[id := Between(Runs.Loading(accountId, op, period, now))])
    case Proceed(id) =>
      if id !in sys.workers then sys
      else
        var w := sys.workers[id];
        if w.call.Done? then sys
        else if w.call.Loading? then
          var loaded := Log.Loaded(sys.rows, configType, w.call.accountId);
          sys.(workers := sys.workers[id := Between(Runs.AfterLoad(w.call, loaded))])
        else if w.Between? then AfterCheck(sys, configType, id, w.call)
        else AfterInsert(sys, configType, id, w.call)
    case Crash(id) => sys.(workers := sys.workers - {id})
  }

  function Ran(events: seq<Runs.Event>, configType: string -> string): System {
    if events == [] then EMPTY
    else Advance(Ran(events[..|events| - 1], configType), configType, events[|events| - 1])
  }

  // ---------------------------------------------------------------------------
  // The same run over the map
  // ---------------------------------------------------------------------------

  /** A passed version check is no step of the map. */
  predicate IsSilent(sys: System, configType: string -> string, event: Runs.Event) {
    && event.Proceed? && event.id in sys.workers
    && sys.workers[event.id].Between? && Saves(sys.workers[event.id].call)
    && var call := sys.workers[event.id].call;
       Log.Checked(sys.rows, configType, Runs.Wanted(call), call.base.version).Inserting?
  }

  /** The events as the map sees them. */
  function Shadow(events: seq<Runs.Event>, configType: string -> string): seq<Runs.Event> {
    if events == [] then []
    else
      var front, event := events[..|events| - 1], events[|events| - 1];
      Shadow(front, configType) + if IsSilent(Ran(front, configType), configType, event) then [] else [event]
  }

  function Erased(workers: map<nat, Worker>): map<nat, Runs.Worker> {
    map id | id in workers :: workers[id].call
  }

  ghost predicate WorkerOk(sys: System, configType: string -> string, w: Worker, ids: set<string>) {
    && (!w.call.Done? ==> w.call.accountId in ids)
    && (w.Inserting? ==>
          && Saves(w.call)
          && Log.WriterOk(sys.rows, configType, Log.Writer.Inserting(RowOf(w.call), w.call.base.version), ids))
  }

  /** The durable system and the map's system hold the same calls, history and states. */
  ghost predicate Simulates(sys: System, configType: string -> string, abs: Runs.System, ids: set<string>) {
    && Erased(sys.workers) == abs.workers && sys.history == abs.history
    && Log.Matches(sys.rows, configType, abs.states, ids) && Log.AllSequential(sys.rows)
    && (forall id :: id in sys.workers ==> WorkerOk(sys, configType, sys.workers[id], ids))
  }

  ghost predicate Within(events: seq<Runs.Event>, ids: set<string>) {
    forall i :: 0 <= i < |events| && events[i].Call? ==> events[i].accountId in ids
  }

  lemma EmptySimulates(configType: string -> string, ids: set<string>)
    ensures Simulates(EMPTY, configType, Runs.EMPTY, ids)
  {
    Log.EmptyRefines(configType, ids);
    assert Erased(map[]) == map[];
  }

  /** What a consistent call saves is for its own account. */
  lemma SavesOwnAccount(abs: Runs.System, call: Runs.Worker)
    requires Saves(call) && Runs.WorkerOk(abs, call)
    ensures Runs.Wanted(call).accountId == call.accountId
  {
    Runs.WantedKeepsAccount(call);
    hide Runs.Wanted;
  }

  lemma SameSave(states: map<string, CircuitState>, state: CircuitState, expected: nat)
    ensures CompareAndSwap(states, state.(version := expected + 1), expected) == CompareAndSwap(states, state, expected)
  {
  }

  lemma ErasedUpdate(workers: map<nat, Worker>, id: nat, w: Worker)
    ensures Erased(workers[id := w]) == Erased(workers)[id := w.call]
  {
  }

  lemma ErasedSame(workers: map<nat, Worker>, id: nat, w: Worker)
    requires id in workers && workers[id].call == w.call
    ensures Erased(workers[id := w]) == Erased(workers)
  {
  }

  /** The version check of a save: silent when it passes, a conflict of the map when it fails. */
  lemma CheckSimulates(sys: System, configType: string -> string, abs: Runs.System, id: nat, ids: set<string>)
    requires Simulates(sys, configType, abs, ids) && Runs.SystemOk(abs) && |sys.rows| + 1 < PowerOfTen(Log.WIDTH)
    requires id in sys.workers && sys.workers[id].Between? && Saves(sys.workers[id].call)
    ensures var call := sys.workers[id].call;
            var silent := Log.Checked(sys.rows, configType, Runs.Wanted(call), call.base.version).Inserting?;
            Simulates(AfterCheck(sys, configType, id, call), configType,
                      if silent then abs else Runs.Saved(abs, id, call), ids)
  {
    hide Log.Matches, Log.AllSequential, Runs.Wanted, Runs.WorkerOk, Runs.StoreOk, PowerOfTen, CompareAndSwap;
    hide Log.LogOf, Log.Loaded;
    var call := sys.workers[id].call;
    assert call == abs.workers[id];
    assert Runs.WorkerOk(abs, call);
    SavesOwnAccount(abs, call);
    var state, expected := Runs.Wanted(call), call.base.version;
    Log.CheckRefines(sys.rows, configType, abs.states, state, expected, ids);
    var w := Log.Checked(sys.rows, configType, state, expected);
    if w.Inserting? {
      ErasedSame(sys.workers, id, Inserting(call));
      assert w == Log.Writer.Inserting(RowOf(call), expected);
    } else {
      ErasedUpdate(sys.workers, id, Between(Runs.Done(w.result)));
    }
  }

  /** The insert of a save is the map's save. */
  lemma InsertSimulates(sys: System, configType: string -> string, abs: Runs.System, id: nat, ids: set<string>)
    requires Simulates(sys, configType, abs, ids) && Runs.SystemOk(abs) && |sys.rows| + 1 < PowerOfTen(Log.WIDTH)
    requires Log.TellsApart(configType, ids) && id in sys.workers && sys.workers[id].Inserting?
    ensures var call := sys.workers[id].call;
            Simulates(AfterInsert(sys, configType, id, call), configType, Runs.Saved(abs, id, call), ids)
  {
    hide Log.Matches, Log.AllSequential, Runs.Wanted, Runs.WorkerOk, Runs.StoreOk, PowerOfTen, CompareAndSwap;
    hide Log.LogOf, Log.Inserted, Log.TellsApart;
    var call := sys.workers[id].call;
    assert call == abs.workers[id];
    assert Runs.WorkerOk(abs, call);
    SavesOwnAccount(abs, call);
    var w := Log.Writer.Inserting(RowOf(call), call.base.version);
    Log.InsertRefines(sys.rows, configType, abs.states, w, ids);
    SameSave(abs.states, Runs.Wanted(call), call.base.version);
    Log.InsertGrows(sys.rows, configType, RowOf(call));
    var (rows, r) := Log.Inserted(sys.rows, configType, RowOf(call));
    InsertKeepsResult(sys.rows, configType, RowOf(call));
    var after := if r.Ok? && call.Rolling? then Runs.Settled(call, r.value) else Runs.Done(r);
    SettledKeepsAccount(call, RowOf(call));
    ErasedUpdate(sys.workers, id, Between(after));
    var sys' := AfterInsert(sys, configType, id, call);
    assert sys'.workers == sys.workers[id := Between(after)];
    assert sys'.rows == rows || (r.Err? && sys'.rows == sys.rows);
    forall other | other in sys'.workers
      ensures WorkerOk(sys', configType, sys'.workers[other], ids)
    {
      if other != id {
        assert WorkerOk(sys, configType, sys.workers[other], ids);
      }
    }
  }

  lemma InsertKeepsResult(rows: seq<Log.Row>, configType: string -> string, row: CircuitState)
    ensures var (rows', r) := Log.Inserted(rows, configType, row);
            if r.Ok? then r.value == row else rows' == rows
  {
    hide Log.Taken, Log.VersionText;
  }

  lemma SettledKeepsAccount(call: Runs.Worker, state: CircuitState)
    requires !call.Done?
    ensures var w := Runs.Settled(call, state); w.Done? || w.accountId == call.accountId
  {
    hide Writes;
  }

  lemma LoadSimulates(sys: System, configType: string -> string, abs: Runs.System, id: nat, ids: set<string>)
    requires Simulates(sys, configType, abs, ids) && id in sys.workers && sys.workers[id].call.Loading?
    ensures Simulates(Advance(sys, configType, Runs.Proceed(id)), configType, Runs.Advance(abs, Runs.Proceed(id)), ids)
  {
    hide Log.Loaded, Log.AllSequential, Writes, Log.LogOf;
    var call := sys.workers[id].call;
    assert call == abs.workers[id] && WorkerOk(sys, configType, sys.workers[id], ids);
    var loaded := Log.Loaded(sys.rows, configType, call.accountId);
    assert loaded == Lookup(abs.states, call.accountId);
    LoadKeepsAccount(call, loaded);
    hide Runs.AfterLoad, Log.Matches;
    ErasedUpdate(sys.workers, id, Between(Runs.AfterLoad(call, loaded)));
  }

  lemma LoadKeepsAccount(call: Runs.Worker, loaded: Option<CircuitState>)
    requires call.Loading?
    ensures var w := Runs.AfterLoad(call, loaded); w.Done? || w.accountId == call.accountId
  {
    hide Writes;
  }

  lemma OtherSimulates(sys: System, configType: string -> string, abs: Runs.System, event: Runs.Event, ids: set<string>)
    requires Simulates(sys, configType, abs, ids) && (event.Call? ==> event.accountId in ids)
    requires event.Proceed? ==> event.id !in sys.workers || sys.workers[event.id].call.Done?
    ensures Simulates(Advance(sys, configType, event), configType, Runs.Advance(abs, event), ids)
  {
    hide Log.Matches, Log.AllSequential, Log.LogOf, Log.Loaded, Runs.Saved, AfterCheck, AfterInsert;
    if event.Call? {
      ErasedUpdate(sys.workers, event.id, Between(Runs.Loading(event.accountId, event.op, event.period, event.now)));
    }
    if event.Crash? {
      assert Erased(sys.workers - {event.id}) == Erased(sys.workers) - {event.id};
    }
  }

  lemma AdvanceSimulates(sys: System, configType: string -> string, abs: Runs.System, event: Runs.Event,
                         ids: set<string>)
    requires Simulates(sys, configType, abs, ids) && Runs.SystemOk(abs) && |sys.rows| + 1 < PowerOfTen(Log.WIDTH)
    requires Log.TellsApart(configType, ids) && (event.Call? ==> event.accountId in ids)
    ensures Simulates(Advance(sys, configType, event), configType,
                      if IsSilent(sys, configType, event) then abs else Runs.Advance(abs, event), ids)
  {
    hide Runs.SystemOk, PowerOfTen, Log.TellsApart, AfterCheck, AfterInsert, Runs.Saved, Log.Checked, Log.Loaded;
    hide Runs.AfterLoad, Runs.Wanted;
    if event.Proceed? && event.id in sys.workers && !sys.workers[event.id].call.Done? {
      SameCall(sys, configType, abs, event.id, ids);
      hide Simulates, Erased;
      if sys.workers[event.id].call.Loading? {
        LoadSimulates(sys, configType, abs, event.id, ids);
      } else if sys.workers[event.id].Between? {
        CheckSimulates(sys, configType, abs, event.id, ids);
      } else {
        InsertSimulates(sys, configType, abs, event.id, ids);
      }
    } else {
      hide Simulates;
      OtherSimulates(sys, configType, abs, event, ids);
    }
  }

  lemma SameCall(sys: System, configType: string -> string, abs: Runs.System, id: nat, ids: set<string>)
    requires Simulates(sys, configType, abs, ids) && id in sys.workers
    ensures id in abs.workers && abs.workers[id] == sys.workers[id].call
  {
    hide Log.Matches, Log.AllSequential, WorkerOk;
  }

  lemma RowsGrow(sys: System, configType: string -> string, event: Runs.Event)
    ensures |Advance(sys, configType, event).rows| <= |sys.rows| + 1
  {
    hide Log.Loaded, Log.Checked, Log.Taken, Runs.AfterLoad, Runs.Wanted, Runs.Settled;
  }

  /** Every run over the log is a run over the map, seen at its inserts and failed checks. */
  lemma {:induction false} DurableRefines(events: seq<Runs.Event>, configType: string -> string, ids: set<string>)
    requires Within(events, ids) && Log.TellsApart(configType, ids) && |events| < PowerOfTen(Log.WIDTH)
    ensures Simulates(Ran(events, configType), configType, Runs.Ran(Shadow(events, configType)), ids)
    ensures |Ran(events, configType).rows| <= |events|
  {
    hide PowerOfTen, Simulates, Advance, Log.TellsApart, IsSilent, Runs.Advance, Runs.SystemOk;
    if events == [] {
      EmptySimulates(configType, ids);
    } else {
      var front, event := events[..|events| - 1], events[|events| - 1];
      DurableRefines(front, configType, ids);
      var sys, shadow := Ran(front, configType), Shadow(front, configType);
      Runs.RunOk(shadow);
      AdvanceSimulates(sys, configType, Runs.Ran(shadow), event, ids);
      RowsGrow(sys, configType, event);
      assert (shadow + [event])[..|shadow|] == shadow && shadow + [] == shadow;
    }
  }

  /**
   * However workers interleave their reads, version checks and inserts, and wherever they crash, what an account loads
   * is the last of its commits. The commits form one chain, each its operation applied to the one before, and the locks
   * are exactly those that the committed evaluations, periods and resets give.
   */
  lemma DurableLocksExact(events: seq<Runs.Event>, configType: string -> string, ids: set<string>, accountId: string)
    requires Within(events, ids) && Log.TellsApart(configType, ids) && |events| < PowerOfTen(Log.WIDTH)
    requires accountId in ids
    ensures var sys := Ran(events, configType);
            var loaded, h := Log.Loaded(sys.rows, configType, accountId), HistoryOf(sys, accountId);
            && Runs.Chain(accountId, h)
            && loaded == (if h == [] then None else Some(h[|h| - 1].state))
            && (h != [] ==>
                  var last := |h| - 1;
                  && loaded.value.accountLocked == loaded.value.manualReenable
                  && (loaded.value.dailyLocked <==> exists i: nat :: Runs.HoldsDay(h, i, last))
                  && (loaded.value.weeklyLocked <==> exists i: nat :: Runs.HoldsWeek(h, i, last)))
  {
    hide PowerOfTen, Log.TellsApart, Log.Loaded, Runs.Chain, Runs.HoldsDay, Runs.HoldsWeek, Ran, Runs.Ran;
    DurableRefines(events, configType, ids);
    var shadow := Shadow(events, configType);
    Runs.NoLostUpdates(shadow, accountId);
    var h := HistoryOf(Ran(events, configType), accountId);
    assert h == Runs.HistoryOf(Runs.Ran(shadow), accountId);
    if h != [] {
      Runs.LocksAgree(accountId, h, |h| - 1);
      Runs.DailyLockedIff(accountId, h, |h| - 1);
      Runs.WeeklyLockedIff(accountId, h, |h| - 1);
    }
  }
}
