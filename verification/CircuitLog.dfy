/** The durable circuit store: an append-only version log that refines the compare-and-swap map. */
module CircuitLog {
  import opened Domain
  import opened Text
  import opened CircuitBreaker

  /** One immutable row; the table is unique on (configType, version). */
  datatype Row = Row(configType: string, version: string, payload: CircuitState)

  const WIDTH := 20

  function VersionText(version: nat): string {
    ZeroPadded(version, WIDTH)
  }

  function FromRow(accountId: string, row: Row): CircuitState {
    row.payload.(accountId := accountId, version := ParseNat(row.version))
  }

  /** The row of a type that sorts last by its version text. */
  function Newest(rows: seq<Row>, configType: string): Option<Row> {
    if rows == [] then None
    else
      var best, last := Newest(rows[..|rows| - 1], configType), rows[|rows| - 1];
      if last.configType == configType && (best.None? || TextLe(best.value.version, last.version)) then Some(last)
      else best
  }

  function Loaded(rows: seq<Row>, configType: string -> string, accountId: string): Option<CircuitState> {
    var row := Newest(rows, configType(accountId));
    if row.None? then None else Some(FromRow(accountId, row.value))
  }

  predicate Taken(rows: seq<Row>, configType: string, version: string) {
    exists i :: 0 <= i < |rows| && rows[i].configType == configType && rows[i].version == version
  }

  /** A save in progress: the version check and the insert are separate transactions. */
  datatype Writer =
    | Checking(state: CircuitState, expected: nat)
    | Inserting(row: CircuitState, base: nat)
    | Finished(result: Result<CircuitState>)

  function Checked(rows: seq<Row>, configType: string -> string, state: CircuitState, expected: nat): Writer {
    if VersionOf(Loaded(rows, configType, state.accountId)) != expected then Finished(Err(CONFLICT))
    else Inserting(state.(version := expected + 1), expected)
  }

  function Inserted(rows: seq<Row>, configType: string -> string, row: CircuitState): (seq<Row>, Result<CircuitState>) {
    var entry := Row(configType(row.accountId), VersionText(row.version), row);
    if Taken(rows, entry.configType, entry.version) then (rows, Err(CONFLICT)) else (rows + [entry], Ok(row))
  }

  class SqlCircuitStore {
    var rows: seq<Row>
    const configType: string -> string

    constructor (configType: string -> string)
      ensures rows == [] && this.configType == configType
    {
      rows := [];
      this.configType := configType;
    }

    method Load(accountId: string) returns (r: Option<CircuitState>)
      ensures r == Loaded(rows, configType, accountId)
    {
      var kind := configType(accountId);
      var best: Option<Row> := None;
      for i := 0 to |rows|
        invariant best == Newest(rows[..i], kind)
      {
        assert rows[..i + 1][..i] == rows[..i];
        if rows[i].configType == kind && (best.None? || TextLe(best.value.version, rows[i].version)) {
          best := Some(rows[i]);
        }
      }
      assert rows[..|rows|] == rows;
      return if best.None? then None else Some(FromRow(accountId, best.value));
    }

    /** First transaction of a save: compare the newest version with the expected one. */
    method CheckVersion(state: CircuitState, expected: nat) returns (w: Writer)
      ensures w == Checked(rows, configType, state, expected)
    {
      var current := Load(state.accountId);
      var currentVersion := if current.Some? then current.value.version else 0;
      if currentVersion != expected {
        return Finished(Err(CONFLICT));
      }
      return Inserting(state.(version := expected + 1), expected);
    }

    /** Second transaction: insert the row, or run into the unique key. */
    method InsertRow(row: CircuitState) returns (r: Result<CircuitState>)
      modifies this
      ensures (rows, r) == Inserted(old(rows), configType, row)
    {
      var entry := Row(configType(row.accountId), VersionText(row.version), row);
      if Taken(rows, entry.configType, entry.version) {
        return Err(CONFLICT);
      }
      rows := rows + [entry];
      return Ok(row);
    }

    /** A save that nobody disturbs between its transactions is the map's compare-and-swap. */
    method Save(state: CircuitState, expected: nat, ghost states: map<string, CircuitState>, ghost ids: set<string>)
      returns (r: Result<CircuitState>)
      modifies this
      ensures Mirrored(old(rows), configType, states, ids) && state.accountId in ids ==>
                && r == CompareAndSwap(states, state, expected).1
                && Matches(rows, configType, CompareAndSwap(states, state, expected).0, ids) && AllSequential(rows)
    {
      hide Loaded, Taken, VersionText, AllSequential, Matches, TellsApart, LogOf, PowerOfTen;
      var w := CheckVersion(state, expected);
      if Mirrored(rows, configType, states, ids) && state.accountId in ids {
        CheckRefines(rows, configType, states, state, expected, ids);
        if w.Inserting? {
          InsertRefines(rows, configType, states, w, ids);
        }
      }
      if w.Finished? {
        return Err(CONFLICT);
      }
      r := InsertRow(w.row);
    }
  }

  // ---------------------------------------------------------------------------
  // The log of one account
  // ---------------------------------------------------------------------------

  /** The rows of one type, in the order they were inserted. */
  function LogOf(rows: seq<Row>, configType: string): seq<Row> {
    if rows == [] then []
    else
      var last := rows[|rows| - 1];
      LogOf(rows[..|rows| - 1], configType) + (if last.configType == configType then [last] else [])
  }

  /** Versions are exactly 1..n, in insertion order. */
  ghost predicate Sequential(rows: seq<Row>, configType: string) {
    var log := LogOf(rows, configType);
    forall i :: 0 <= i < |log| ==> log[i].version == VersionText(i + 1) && log[i].configType == configType
  }

  lemma {:induction false} LogFits(rows: seq<Row>, configType: string)
    ensures |LogOf(rows, configType)| <= |rows|
  {
    if rows != [] {
      LogFits(rows[..|rows| - 1], configType);
    }
  }

  lemma VersionOrder(n: nat, m: nat)
    requires n < PowerOfTen(WIDTH) && m < PowerOfTen(WIDTH)
    ensures TextLess(VersionText(n), VersionText(m)) <==> n < m
    ensures VersionText(n) == VersionText(m) <==> n == m
    ensures ParseNat(VersionText(n)) == n
  {
    hide PowerOfTen;
    PaddedIsFixedWidth(n, WIDTH);
    PaddedIsFixedWidth(m, WIDTH);
    FixedWidthOrder(n, m, WIDTH);
    FixedWidthRoundTrip(n, WIDTH);
  }

  /** While versions fit the padded width, ordering by text finds the last row of the log. */
  lemma {:induction false} NewestIsLast(rows: seq<Row>, configType: string)
    requires Sequential(rows, configType) && |LogOf(rows, configType)| < PowerOfTen(WIDTH)
    ensures var log := LogOf(rows, configType);
            Newest(rows, configType) == if log == [] then None else Some(log[|log| - 1])
  {
    hide PowerOfTen, VersionText;
    if rows != [] {
      var front, last := rows[..|rows| - 1], rows[|rows| - 1];
      var before, log := LogOf(front, configType), LogOf(rows, configType);
      assert forall i :: 0 <= i < |before| ==> before[i] == log[i];
      NewestIsLast(front, configType);
      if last.configType == configType && before != [] {
        var n := |before|;
        assert log[n] == last && log[n - 1] == before[n - 1];
        VersionOrder(n, n + 1);
      }
    }
  }

  ghost predicate InLog(log: seq<Row>, version: string) {
    exists i :: 0 <= i < |log| && log[i].version == version
  }

  lemma {:induction false} TakenInLog(rows: seq<Row>, configType: string, version: string)
    ensures Taken(rows, configType, version) <==> InLog(LogOf(rows, configType), version)
  {
    if rows != [] {
      var front, last := rows[..|rows| - 1], rows[|rows| - 1];
      TakenInLog(front, configType, version);
      TakenExtends(front, last, configType, version);
      assert rows == front + [last];
      var before, log := LogOf(front, configType), LogOf(rows, configType);
      if last.configType == configType {
        assert log[|before|] == last;
        if InLog(before, version) {
          var i :| 0 <= i < |before| && before[i].version == version;
          assert log[i].version == version;
        }
      } else {
        assert log == before;
      }
    }
  }

  lemma TakenExtends(front: seq<Row>, last: Row, configType: string, version: string)
    ensures Taken(front + [last], configType, version) <==>
            Taken(front, configType, version) || (last.configType == configType && last.version == version)
  {
    var rows := front + [last];
    assert rows[|front|] == last;
    if Taken(front, configType, version) {
      var i :| 0 <= i < |front| && front[i].configType == configType && front[i].version == version;
      assert rows[i] == front[i];
    }
  }

  /** The unique key refuses a version exactly when the log already reaches it. */
  lemma TakenIffReached(rows: seq<Row>, configType: string, version: nat)
    requires Sequential(rows, configType) && |LogOf(rows, configType)| < PowerOfTen(WIDTH)
    requires 0 < version < PowerOfTen(WIDTH)
    ensures Taken(rows, configType, VersionText(version)) <==> version <= |LogOf(rows, configType)|
  {
    hide PowerOfTen, VersionText, Taken;
    TakenInLog(rows, configType, VersionText(version));
    var log := LogOf(rows, configType);
    if version <= |log| {
      assert log[version - 1].version == VersionText(version);
    }
    forall i | 0 <= i < |log| && log[i].version == VersionText(version)
      ensures version <= |log|
    {
      VersionOrder(i + 1, version);
    }
  }

  lemma LogAppend(rows: seq<Row>, row: Row, configType: string)
    ensures LogOf(rows + [row], configType) ==
            LogOf(rows, configType) + (if row.configType == configType then [row] else [])
  {
    assert (rows + [row])[..|rows|] == rows;
  }

  // ---------------------------------------------------------------------------
  // Refinement, step by step
  // ---------------------------------------------------------------------------

  /** The table and the map answer every load of the given accounts alike. */
  ghost predicate Matches(rows: seq<Row>, configType: string -> string, states: map<string, CircuitState>,
                          ids: set<string>)
  {
    forall a :: a in ids ==> Lookup(states, a) == Loaded(rows, configType, a)
  }

  /** No two of the given accounts share a type. */
  ghost predicate TellsApart(configType: string -> string, ids: set<string>) {
    forall a, b :: a in ids && b in ids && configType(a) == configType(b) ==> a == b
  }

  ghost predicate AllSequential(rows: seq<Row>) {
    forall t :: Sequential(rows, t)
  }

  /** The table stands for the map on accounts that it tells apart, with room for one more version. */
  ghost predicate Mirrored(rows: seq<Row>, configType: string -> string, states: map<string, CircuitState>,
                           ids: set<string>)
  {
    && Matches(rows, configType, states, ids) && AllSequential(rows) && TellsApart(configType, ids)
    && |rows| + 1 < PowerOfTen(WIDTH)
  }

  /** A row about to be inserted was computed on a version the log has reached. */
  ghost predicate WriterOk(rows: seq<Row>, configType: string -> string, w: Writer, ids: set<string>) {
    && (w.Checking? ==> w.state.accountId in ids)
    && (w.Inserting? ==>
          && w.row.accountId in ids && w.row.version == w.base + 1
          && w.base <= |LogOf(rows, configType(w.row.accountId))|)
  }

  lemma LoadedVersion(rows: seq<Row>, configType: string -> string, accountId: string)
    requires AllSequential(rows) && |rows| < PowerOfTen(WIDTH)
    ensures VersionOf(Loaded(rows, configType, accountId)) == |LogOf(rows, configType(accountId))|
  {
    hide PowerOfTen, VersionText;
    var t := configType(accountId);
    assert Sequential(rows, t);
    LogFits(rows, t);
    NewestIsLast(rows, t);
    var log := LogOf(rows, t);
    if log != [] {
      VersionOrder(|log|, |log|);
      assert log[|log| - 1].version == VersionText(|log|);
    }
  }

  /** A failed version check is a conflict of the map at that instant; a passed one leaves the writer consistent. */
  lemma CheckRefines(rows: seq<Row>, configType: string -> string, states: map<string, CircuitState>,
                     state: CircuitState, expected: nat, ids: set<string>)
    requires state.accountId in ids && Matches(rows, configType, states, ids) && AllSequential(rows)
             && |rows| < PowerOfTen(WIDTH)
    ensures var w := Checked(rows, configType, state, expected);
            && WriterOk(rows, configType, w, ids)
            && (w.Finished? ==> CompareAndSwap(states, state, expected) == (states, w.result))
  {
    hide PowerOfTen, AllSequential, Loaded, LogOf;
    LoadedVersion(rows, configType, state.accountId);
    assert Lookup(states, state.accountId) == Loaded(rows, configType, state.accountId);
  }

  /** An insert succeeds only while its base is still current, and then does exactly what the map's save does. */
  lemma InsertRefines(rows: seq<Row>, configType: string -> string, states: map<string, CircuitState>, w: Writer,
                      ids: set<string>)
    requires w.Inserting? && WriterOk(rows, configType, w, ids)
    requires Matches(rows, configType, states, ids) && AllSequential(rows) && TellsApart(configType, ids)
    requires |rows| + 1 < PowerOfTen(WIDTH)
    ensures var (rows', r) := Inserted(rows, configType, w.row);
            var (states', r') := CompareAndSwap(states, w.row, w.base);
            && r == r'
            && (r.Ok? <==> VersionOf(Lookup(states, w.row.accountId)) == w.base)
            && Matches(rows', configType, states', ids)
            && AllSequential(rows')
  {
    hide PowerOfTen, Taken, VersionText, Loaded;
    var account := w.row.accountId;
    var t := configType(account);
    assert Sequential(rows, t);
    LogFits(rows, t);
    LoadedVersion(rows, configType, account);
    TakenIffReached(rows, t, w.row.version);
    assert Lookup(states, account) == Loaded(rows, configType, account);
    var (rows', r) := Inserted(rows, configType, w.row);
    if r.Ok? {
      var entry := Row(t, VersionText(w.row.version), w.row);
      assert rows' == rows + [entry];
      AppendKeepsSequential(rows, entry);
      forall a | a in ids
        ensures Lookup(CompareAndSwap(states, w.row, w.base).0, a) == Loaded(rows', configType, a)
      {
        LoadAfterAppend(rows, configType, entry, a);
      }
    }
  }

  lemma AppendKeepsSequential(rows: seq<Row>, entry: Row)
    requires AllSequential(rows)
    requires entry.version == VersionText(|LogOf(rows, entry.configType)| + 1)
    ensures AllSequential(rows + [entry])
  {
    hide VersionText;
    forall t
      ensures Sequential(rows + [entry], t)
    {
      assert Sequential(rows, t);
      hide LogOf;
      LogAppend(rows, entry, t);
    }
  }

  lemma LoadAfterAppend(rows: seq<Row>, configType: string -> string, entry: Row, a: string)
    requires AllSequential(rows) && |rows| + 1 < PowerOfTen(WIDTH)
    requires configType(a) == entry.configType <==> a == entry.payload.accountId
    requires entry.payload.version == |LogOf(rows, entry.configType)| + 1
    requires entry.version == VersionText(entry.payload.version)
    ensures Loaded(rows + [entry], configType, a) ==
            if a == entry.payload.accountId then Some(entry.payload) else Loaded(rows, configType, a)
  {
    hide PowerOfTen, VersionText, LogOf, Newest, Sequential, ParseNat;
    var t, n := configType(a), |LogOf(rows, configType(a))|;
    AppendKeepsSequential(rows, entry);
    assert Sequential(rows, t) && Sequential(rows + [entry], t);
    LogFits(rows, t);
    LogFits(rows + [entry], t);
    NewestIsLast(rows, t);
    NewestIsLast(rows + [entry], t);
    LogAppend(rows, entry, t);
    if a == entry.payload.accountId {
      VersionOrder(n + 1, n + 1);
    }
  }

  // ---------------------------------------------------------------------------
  // Refinement, over whole runs
  // ---------------------------------------------------------------------------

  datatype Event =
    | Arrive(id: nat, state: CircuitState, expected: nat)
    | Proceed(id: nat)

  /**
   * The table with its writers, next to the map. The map saves atomically at one instant of each writer's run:
   * where a version check fails, or where an insert is attempted.
   */
  datatype Both = Both(
    rows: seq<Row>,
    writers: map<nat, Writer>,
    states: map<string, CircuitState>,
    verdicts: map<nat, Result<CircuitState>>)

  const EMPTY := Both([], map[], map[], map[])

  function Advance(both: Both, configType: string -> string, event: Event): Both {
    match event
    case Arrive(id, state, expected) =>
      if id in both.writers then both else both.(writers := both.writers[id := Checking(state, expected)])
    case Proceed(id) =>
      if id !in both.writers then both
      else
        match both.writers[id]
        case Checking(state, expected) =>
          var w := Checked(both.rows, configType, state, expected);
          var verdicts := if w.Finished? then both.verdicts[id := CompareAndSwap(both.states, state, expected).1]
                          else both.verdicts;
          both.(writers := both.writers[id := w], verdicts := verdicts)
        case Inserting(row, base) =>
          var (rows, r) := Inserted(both.rows, configType, row);
          var (states, verdict) := CompareAndSwap(both.states, row, base);
          Both(rows, both.writers[id := Finished(r)], states, both.verdicts[id := verdict])
        case Finished(_) => both
  }

  function Ran(events: seq<Event>, configType: string -> string): Both {
    if events == [] then EMPTY
    else Advance(Ran(events[..|events| - 1], configType), configType, events[|events| - 1])
  }

  ghost predicate Refines(both: Both, configType: string -> string, ids: set<string>) {
    && Matches(both.rows, configType, both.states, ids)
    && AllSequential(both.rows)
    && (forall id :: id in both.writers ==> WriterOk(both.rows, configType, both.writers[id], ids))
    && (forall id :: id in both.writers && both.writers[id].Finished? ==>
          id in both.verdicts && both.verdicts[id] == both.writers[id].result)
  }

  lemma EmptyRefines(configType: string -> string, ids: set<string>)
    ensures Refines(EMPTY, configType, ids)
  {
    forall t
      ensures Sequential([], t)
    {
    }
  }

  /** Every save of the run is for one of the given accounts. */
  ghost predicate Within(events: seq<Event>, ids: set<string>) {
    forall i :: 0 <= i < |events| && events[i].Arrive? ==> events[i].state.accountId in ids
  }

  /**
   * However many writers interleave their checks and inserts, every one of them ends as if it had saved atomically, so
   * long as the type tells apart the accounts that the run writes to.
   */
  lemma {:induction false} LogRefinesMap(events: seq<Event>, configType: string -> string, ids: set<string>)
    requires Within(events, ids) && TellsApart(configType, ids) && |events| < PowerOfTen(WIDTH)
    ensures Refines(Ran(events, configType), configType, ids)
    ensures |Ran(events, configType).rows| <= |events|
  {
    hide PowerOfTen, Refines, Advance;
    if events == [] {
      EmptyRefines(configType, ids);
    } else {
      var front := events[..|events| - 1];
      LogRefinesMap(front, configType, ids);
      AdvanceRefines(Ran(front, configType), configType, events[|events| - 1], ids);
    }
  }

  lemma AdvanceRefines(both: Both, configType: string -> string, event: Event, ids: set<string>)
    requires Refines(both, configType, ids) && TellsApart(configType, ids) && |both.rows| + 1 < PowerOfTen(WIDTH)
    requires event.Arrive? ==> event.state.accountId in ids
    ensures Refines(Advance(both, configType, event), configType, ids)
    ensures |Advance(both, configType, event).rows| <= |both.rows| + 1
  {
    hide PowerOfTen, Matches, AllSequential, Checked, CompareAndSwap, LogOf, TellsApart;
    if event.Proceed? && event.id in both.writers {
      match both.writers[event.id]
      case Checking(state, expected) =>
        CheckRefines(both.rows, configType, both.states, state, expected, ids);
      case Inserting(row, base) =>
        InsertRefines(both.rows, configType, both.states, both.writers[event.id], ids);
        InsertGrows(both.rows, configType, row);
      case Finished(_) =>
    }
  }

  /** Inserting a row never shortens a log, so other writers' bases stay reached. */
  lemma InsertGrows(rows: seq<Row>, configType: string -> string, row: CircuitState)
    ensures var rows' := Inserted(rows, configType, row).0;
            && |rows'| <= |rows| + 1
            && forall t :: |LogOf(rows, t)| <= |LogOf(rows', t)|
  {
    hide Taken;
    var entry := Row(configType(row.accountId), VersionText(row.version), row);
    forall t
      ensures |LogOf(rows, t)| <= |LogOf(rows + [entry], t)|
    {
      LogAppend(rows, entry, t);
    }
  }

  /** One save from an empty table, undisturbed. */
  function Alone(state: CircuitState): seq<Event> {
    [Arrive(0, state, 0), Proceed(0), Proceed(0)]
  }

  /** When two accounts share a type, saving one makes the other load a state that nobody saved for it. */
  lemma CollisionLeaks(configType: string -> string, state: CircuitState, other: string)
    requires other != state.accountId && configType(other) == configType(state.accountId)
    ensures var both := Ran(Alone(state), configType);
            Lookup(both.states, other) == None && Loaded(both.rows, configType, other).Some?
  {
    hide VersionText, ParseNat, TextLe, Ran, Advance;
    var arrive, go := Arrive(0, state, 0), Proceed(0);
    assert [] + [arrive] == [arrive] && [arrive] + [go] == [arrive, go] && [arrive, go] + [go] == Alone(state);
    RanSnoc([], arrive, configType);
    RanSnoc([arrive], go, configType);
    RanSnoc([arrive, go], go, configType);
    AloneSteps(configType, state);
    var row := Row(configType(state.accountId), VersionText(1), state.(version := 1));
    assert Newest([row], configType(other)) == Some(row) by {
      assert [row][..0] == [];
    }
  }

  lemma AloneSteps(configType: string -> string, state: CircuitState)
    ensures var first := Advance(EMPTY, configType, Arrive(0, state, 0));
            var last := Advance(Advance(first, configType, Proceed(0)), configType, Proceed(0));
            && last.rows == [Row(configType(state.accountId), VersionText(1), state.(version := 1))]
            && last.states.Keys == {state.accountId}
  {
    hide VersionText;
    var first := Advance(EMPTY, configType, Arrive(0, state, 0));
    assert first == EMPTY.(writers := map[0 := Checking(state, 0)]);
    CheckAlone(configType, state);
    InsertAlone(configType, state.(version := 1));
  }

  lemma CheckAlone(configType: string -> string, state: CircuitState)
    ensures Advance(EMPTY.(writers := map[0 := Checking(state, 0)]), configType, Proceed(0))
            == EMPTY.(writers := map[0 := Inserting(state.(version := 1), 0)])
  {
    assert Loaded([], configType, state.accountId) == None;
    hide Loaded;
    assert Checked([], configType, state, 0) == Inserting(state.(version := 1), 0);
    hide Checked;
    assert (map[0 := Checking(state, 0)])[0 := Inserting(state.(version := 1), 0)]
           == map[0 := Inserting(state.(version := 1), 0)];
  }

  lemma InsertAlone(configType: string -> string, row: CircuitState)
    ensures var last := Advance(EMPTY.(writers := map[0 := Inserting(row, 0)]), configType, Proceed(0));
            && last.rows == [Row(configType(row.accountId), VersionText(row.version), row)]
            && last.states.Keys == {row.accountId}
  {
    hide VersionText;
  }

  lemma RanSnoc(events: seq<Event>, event: Event, configType: string -> string)
    ensures Ran(events + [event], configType) == Advance(Ran(events, configType), configType, event)
    ensures events == [] ==> Ran(events, configType) == EMPTY
  {
    hide Advance;
    assert (events + [event])[..|events|] == events;
  }

  /**
   * So the log behaves as the map for every run over some accounts exactly when the type tells those accounts apart.
   */
  lemma RefinesIffTellsApart(configType: string -> string, ids: set<string>)
    ensures (forall events :: Within(events, ids) && |events| < PowerOfTen(WIDTH) ==>
               Refines(Ran(events, configType), configType, ids))
            <==> TellsApart(configType, ids)
  {
    hide PowerOfTen, Refines, Ran;
    if TellsApart(configType, ids) {
      forall events | Within(events, ids) && |events| < PowerOfTen(WIDTH)
        ensures Refines(Ran(events, configType), configType, ids)
      {
        LogRefinesMap(events, configType, ids);
      }
    } else {
      var a, b :| a in ids && b in ids && configType(a) == configType(b) && a != b;
      var state := Fresh(a, Period(0, 0), 0);
      ShortRunFits();
      CollisionLeaks(configType, state, b);
      LeakIsNotRefined(Ran(Alone(state), configType), configType, ids, b);
    }
  }

  lemma ShortRunFits()
    ensures 3 < PowerOfTen(WIDTH)
  {
    TenAtLeast(WIDTH);
  }

  lemma LeakIsNotRefined(both: Both, configType: string -> string, ids: set<string>, b: string)
    requires b in ids && Lookup(both.states, b) != Loaded(both.rows, configType, b)
    ensures !Refines(both, configType, ids)
  {
    hide Lookup, Loaded, AllSequential, WriterOk;
  }
}
