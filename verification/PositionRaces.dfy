/** Management calls that overlap: what each read may be stale by the time the call writes. */
module PositionRaces {
  import opened Domain
  import opened Trading
  import opened MockBroker
  import opened Positions
  import opened PositionRuns

  /** What a call sets out to do; for a partial close, with the symbol's specification as it is resolved. */
  datatype Plan = Trail(mode: TrailMode) | ToEven(costs: real) | Part(fraction: real, resolved: Result<Spec>)

  /** A call before its read of the position, between its read and its write, or done. */
  datatype Caller =
    | Reading(plan: Plan)
    | Moving(stop: real, target: Option<real>, readAt: nat)
    | Closing(size: Option<real>)
    | Over

  /** A stop that was written, and how many had been written when its call read the position. */
  datatype Write = Write(stop: real, readAt: nat)

  datatype State = State(book: Book, callers: map<nat, Caller>, writes: seq<Write>, closed: real)

  datatype Event = Ask(id: nat, plan: Plan) | Go(id: nat, env: Conditions) | Price(price: real)

  function MoveTo(position: Position, stop: real, writes: nat): Caller {
    if Improves(position, stop) && Protective(position, stop) then Moving(stop, position.takeProfit, writes) else Over
  }

  /** What a call decides on the position it reads. */
  function Decided(position: Position, plan: Plan, writes: nat): Caller {
    match plan
    case Trail(mode) =>
      var candidate := Candidate(position, mode);
      if candidate.Err? then Over else MoveTo(position, candidate.value, writes)
    case ToEven(costs) => if costs < 0.0 then Over else MoveTo(position, BreakEvenStop(position, costs), writes)
    case Part(fraction, resolved) =>
      if fraction <= 0.0 || fraction > 1.0 then Over
      else if fraction == 1.0 then Closing(None)
      else if resolved.Err? then Over
      else
        var size := CloseVolume(resolved.value, position.volume, fraction);
        var remaining := position.volume - size;
        if size < resolved.value.volumeMin || (remaining != 0.0 && remaining < resolved.value.volumeMin) then Over
        else Closing(Some(size))
  }

  function Stepped(st: State, ticket: string, id: nat, env: Conditions): State
    requires id in st.callers
  {
    match st.callers[id]
    case Reading(plan) =>
      var located := Located(env, st.book, ticket);
      st.(callers := st.callers[id := if located.Err? then Over else Decided(located.value, plan, |st.writes|)])
    case Moving(stop, target, readAt) =>
      var (book, r) := Modified(env, st.book, ticket, stop, target);
      st.(book := book, callers := st.callers[id := Over],
          writes := if r == Ok(true) then st.writes + [Write(stop, readAt)] else st.writes)
    case Closing(size) =>
      var (book, r) := Closed(env, st.book, ticket, size);
      st.(book := book, callers := st.callers[id := Over],
          closed := st.closed + if r.Ok? && r.value.success then r.value.volume else 0.0)
    case Over => st
  }

  function Advance(st: State, ticket: string, event: Event): State {
    match event
    case Ask(id, plan) => if id in st.callers then st else st.(callers := st.callers[id := Reading(plan)])
    case Go(id, env) => if id in st.callers then Stepped(st, ticket, id, env) else st
    case Price(price) =>
      var found := Find(st.book.positions, ticket);
      if found.None? then st
      else st.(book := st.book.(positions := Put(st.book.positions, found.value.(currentPrice := price))))
  }

  function Ran(book: Book, ticket: string, events: seq<Event>): State {
    if events == [] then State(book, map[], [], 0.0)
    else Advance(Ran(book, ticket, events[..|events| - 1]), ticket, events[|events| - 1])
  }

  // ---------------------------------------------------------------------------
  // What every interleaving keeps
  // ---------------------------------------------------------------------------

  predicate Better(direction: Direction, stop: real, next: real) {
    if direction == Long then next > stop else next < stop
  }

  /** The stop once the first `k` writes were made. */
  function StopAt(first: Position, writes: seq<Write>, k: nat): real
    requires k <= |writes|
  {
    if k == 0 then first.stopLoss else writes[k - 1].stop
  }

  /** The position is what the writes and closes make of the first one. */
  predicate Tracks(first: Position, st: State, found: Option<Position>) {
    if found.None? then st.closed == first.volume
    else
      var p := found.value;
      && p.ticket == first.ticket && p.symbol == first.symbol && p.direction == first.direction
      && p.openPrice == first.openPrice && p.takeProfit == first.takeProfit
      && p.volume + st.closed == first.volume && p.stopLoss == StopAt(first, st.writes, |st.writes|)
  }

  /** A stop was better than the one its call read. */
  predicate ReadWorse(first: Position, writes: seq<Write>, stop: real, readAt: nat) {
    readAt <= |writes| && Better(first.direction, StopAt(first, writes, readAt), stop)
  }

  ghost predicate CallersOk(first: Position, st: State) {
    forall id :: id in st.callers && st.callers[id].Moving? ==>
      st.callers[id].target == first.takeProfit
      && ReadWorse(first, st.writes, st.callers[id].stop, st.callers[id].readAt)
  }

  ghost predicate WritesOk(first: Position, writes: seq<Write>) {
    forall k :: 0 <= k < |writes| ==>
      writes[k].readAt <= k && ReadWorse(first, writes, writes[k].stop, writes[k].readAt)
  }

  ghost predicate RaceOk(first: Position, st: State) {
    && UniqueTickets(st.book.positions) && Tracks(first, st, Find(st.book.positions, first.ticket))
    && CallersOk(first, st) && WritesOk(first, st.writes)
  }

  lemma MoreWrites(first: Position, st: State, w: Write)
    requires CallersOk(first, st) && WritesOk(first, st.writes) && ReadWorse(first, st.writes, w.stop, w.readAt)
    ensures var next := st.(writes := st.writes + [w]); CallersOk(first, next) && WritesOk(first, next.writes)
  {
    hide Better;
    var writes := st.writes + [w];
    forall k: nat | k <= |st.writes|
      ensures StopAt(first, writes, k) == StopAt(first, st.writes, k)
    {
    }
  }

  lemma DecidedOk(first: Position, st: State, position: Position, plan: Plan)
    requires Tracks(first, st, Some(position))
    ensures var caller := Decided(position, plan, |st.writes|);
            caller.Moving? ==>
              caller.target == first.takeProfit && ReadWorse(first, st.writes, caller.stop, caller.readAt)
  {
    hide Candidate, CloseVolume, BreakEvenStop;
  }

  lemma MoveKeeps(first: Position, st: State, id: nat, env: Conditions)
    requires RaceOk(first, st) && id in st.callers && st.callers[id].Moving?
    ensures RaceOk(first, Stepped(st, first.ticket, id, env))
  {
    hide Modified, Find, UniqueTickets, ReadWorse, StopAt;
    var caller := st.callers[id];
    ModifiedExact(env, st.book, first.ticket, caller.stop, caller.target);
    MoreWrites(first, st, Write(caller.stop, caller.readAt));
    LastStop(first, st.writes, Write(caller.stop, caller.readAt));
    hide WritesOk;
  }

  lemma LastStop(first: Position, writes: seq<Write>, w: Write)
    ensures StopAt(first, writes + [w], |writes + [w]|) == w.stop
  {
  }

  lemma CloseKeeps(first: Position, st: State, id: nat, env: Conditions)
    requires RaceOk(first, st) && id in st.callers && st.callers[id].Closing?
    ensures RaceOk(first, Stepped(st, first.ticket, id, env))
  {
    hide Closed, Find, UniqueTickets, ReadWorse, StopAt, WritesOk;
    var size := st.callers[id].size;
    ClosedExact(env, st.book, first.ticket, size);
    var (book, r) := Closed(env, st.book, first.ticket, size);
    var next := Stepped(st, first.ticket, id, env);
    assert next.book == book && next.writes == st.writes;
    if r.Ok? && r.value.success {
      assert next.closed == st.closed + r.value.volume;
    } else {
      assert next.closed == st.closed && book.positions == st.book.positions;
    }
  }

  lemma ReadKeeps(first: Position, st: State, id: nat, env: Conditions)
    requires RaceOk(first, st) && id in st.callers && st.callers[id].Reading?
    ensures RaceOk(first, Stepped(st, first.ticket, id, env))
  {
    LocatedIsFound(env, st.book, first.ticket);
    hide Located, Find, UniqueTickets, ReadWorse, WritesOk, Decided;
    var located := Located(env, st.book, first.ticket);
    if located.Ok? {
      DecidedOk(first, st, located.value, st.callers[id].plan);
    }
  }

  lemma PriceKeeps(first: Position, st: State, price: real)
    requires RaceOk(first, st)
    ensures RaceOk(first, Advance(st, first.ticket, Price(price)))
  {
    hide Find, Put, UniqueTickets, ReadWorse, WritesOk, StopAt;
    FindExact(st.book.positions, first.ticket);
    var found := Find(st.book.positions, first.ticket);
    if found.Some? {
      FindAfterPut(st.book.positions, found.value.(currentPrice := price), first.ticket);
      PutKeepsTickets(st.book.positions, found.value.(currentPrice := price));
    }
  }

  lemma AdvanceKeeps(first: Position, st: State, event: Event)
    requires RaceOk(first, st)
    ensures RaceOk(first, Advance(st, first.ticket, event))
  {
    match event
    case Ask(id, plan) =>
      hide Find, UniqueTickets, ReadWorse, WritesOk, Tracks;
    case Go(id, env) =>
      hide RaceOk;
      if id in st.callers {
        match st.callers[id]
        case Reading(_) => ReadKeeps(first, st, id, env);
        case Moving(_, _, _) => MoveKeeps(first, st, id, env);
        case Closing(_) => CloseKeeps(first, st, id, env);
        case Over =>
      }
    case Price(price) =>
      hide RaceOk;
      PriceKeeps(first, st, price);
  }

  lemma {:induction false} RunKeeps(book: Book, first: Position, events: seq<Event>)
    requires UniqueTickets(book.positions) && Find(book.positions, first.ticket) == Some(first)
    ensures RaceOk(first, Ran(book, first.ticket, events))
  {
    hide Advance, Find, UniqueTickets;
    if events != [] {
      hide RaceOk;
      RunKeeps(book, first, events[..|events| - 1]);
      AdvanceKeeps(first, Ran(book, first.ticket, events[..|events| - 1]), events[|events| - 1]);
    }
  }

  /**
   * However management calls overlap, the position keeps its direction, open price and target, what is left and what
   * was closed make up its original volume, and its stop is the last one written.
   */
  lemma RacesConserve(book: Book, first: Position, events: seq<Event>)
    requires UniqueTickets(book.positions) && Find(book.positions, first.ticket) == Some(first)
    ensures var st := Ran(book, first.ticket, events);
            Tracks(first, st, Find(st.book.positions, first.ticket))
  {
    hide Ran, Find, UniqueTickets, Tracks, WritesOk, CallersOk;
    RunKeeps(book, first, events);
  }

  // ---------------------------------------------------------------------------
  // When the stop never loosens
  // ---------------------------------------------------------------------------

  /** Every write improves on the stop it replaces. */
  ghost predicate AllImprove(first: Position, writes: seq<Write>) {
    forall k: nat :: k < |writes| ==> Better(first.direction, StopAt(first, writes, k), writes[k].stop)
  }

  /** No call writes a stop that is not better than each one written since its read. */
  ghost predicate NoneOvertaken(first: Position, writes: seq<Write>) {
    forall j: nat, k: nat :: j < k < |writes| && writes[k].readAt <= j ==>
      Better(first.direction, writes[j].stop, writes[k].stop)
  }

  lemma {:induction false} ImprovesOnEarlier(first: Position, writes: seq<Write>, j: nat, k: nat)
    requires AllImprove(first, writes) && j < k < |writes|
    ensures Better(first.direction, writes[j].stop, writes[k].stop)
  {
    assert Better(first.direction, StopAt(first, writes, k), writes[k].stop);
    if j < k - 1 {
      ImprovesOnEarlier(first, writes, j, k - 1);
    }
  }

  /**
   * However management calls overlap, every stop written improves on the one it replaces if and only if no call is
   * overtaken, between its read and its write, by a stop that its own does not improve on.
   */
  lemma RatchetsIff(book: Book, first: Position, events: seq<Event>)
    requires UniqueTickets(book.positions) && Find(book.positions, first.ticket) == Some(first)
    ensures var writes := Ran(book, first.ticket, events).writes;
            AllImprove(first, writes) <==> NoneOvertaken(first, writes)
  {
    hide Ran, Find, UniqueTickets, Tracks, CallersOk, WritesOk, AllImprove, NoneOvertaken;
    RunKeeps(book, first, events);
    WritesRatchetIff(first, Ran(book, first.ticket, events).writes);
  }

  lemma WritesRatchetIff(first: Position, writes: seq<Write>)
    requires WritesOk(first, writes)
    ensures AllImprove(first, writes) <==> NoneOvertaken(first, writes)
  {
    hide Better;
    if AllImprove(first, writes) {
      forall j: nat, k: nat | j < k < |writes| && writes[k].readAt <= j
        ensures Better(first.direction, writes[j].stop, writes[k].stop)
      {
        ImprovesOnEarlier(first, writes, j, k);
      }
    }
    if NoneOvertaken(first, writes) {
      forall k: nat | k < |writes|
        ensures Better(first.direction, StopAt(first, writes, k), writes[k].stop)
      {
        assert ReadWorse(first, writes, writes[k].stop, writes[k].readAt);
        if writes[k].readAt < k {
          assert Better(first.direction, writes[k - 1].stop, writes[k].stop);
        }
      }
    }
  }

  // ---------------------------------------------------------------------------
  // Two trails that overlap
  // ---------------------------------------------------------------------------

  const HELD := Position("P1", "XAUUSD", Long, 1.0, 100.0, 110.0, 90.0, None, 0, "s", None)

  const HOLDING := Book([HELD], [], map[], [], 1, 0, 0, 0, 0)

  const SKY := Conditions(true, true, true, true, true, map[], Account("A", 0.0, 0.0, 0, Demo), 0)

  const FIVE := Trail(Fixed(Some(5.0)))

  /** The first call reads at 110, the second reads and writes at 120, and then the first writes. */
  const RACE := [Ask(1, FIVE), Go(1, SKY), Price(120.0), Ask(2, FIVE), Go(2, SKY), Go(2, SKY), Go(1, SKY)]

  function At(price: real, stop: real): Book {
    HOLDING.(positions := [HELD.(currentPrice := price, stopLoss := stop)])
  }

  lemma RanSnoc(book: Book, ticket: string, events: seq<Event>, event: Event)
    ensures Ran(book, ticket, events + [event]) == Advance(Ran(book, ticket, events), ticket, event)
  {
    assert (events + [event])[..|events|] == events;
    hide Advance;
  }

  lemma FoundAlone(position: Position)
    ensures Find([position], position.ticket) == Some(position)
            && Located(SKY, HOLDING.(positions := [position]), position.ticket) == Ok(position)
    ensures forall next: Position :: next.ticket == position.ticket ==> Put([position], next) == [next]
  {
    assert [position][1..] == [];
  }

  lemma ReadAlone(price: real, stop: real, calls: nat, callers: map<nat, Caller>, writes: seq<Write>, id: nat)
    requires id in callers && callers[id] == Reading(FIVE) && stop < price - 5.0
    ensures var st := State(At(price, stop).(modifyCalls := calls), callers, writes, 0.0);
            Advance(st, "P1", Go(id, SKY)) == st.(callers := callers[id := Moving(price - 5.0, None, |writes|)])
  {
    FoundAlone(HELD.(currentPrice := price, stopLoss := stop));
    hide Find;
  }

  lemma WriteAlone(price: real, stop: real, calls: nat, callers: map<nat, Caller>, writes: seq<Write>, id: nat,
                   next: real, readAt: nat)
    requires id in callers && callers[id] == Moving(next, None, readAt) && next > 0.0
    ensures var st := State(At(price, stop).(modifyCalls := calls), callers, writes, 0.0);
            Advance(st, "P1", Go(id, SKY)) == State(At(price, next).(modifyCalls := calls + 1), callers[id := Over],
                                                    writes + [Write(next, readAt)], 0.0)
  {
    FoundAlone(HELD.(currentPrice := price, stopLoss := stop));
    hide Find, Put;
  }

  lemma PriceAlone(price: real, stop: real, callers: map<nat, Caller>, next: real)
    ensures Advance(State(At(price, stop), callers, [], 0.0), "P1", Price(next))
            == State(At(next, stop), callers, [], 0.0)
  {
    FoundAlone(HELD.(currentPrice := price, stopLoss := stop));
    hide Find, Put;
  }

  /** Two trailing calls that overlap loosen the stop: it goes from 90 to 115 and back to 105. */
  lemma OverlappingTrailsLoosen()
    ensures var st := Ran(HOLDING, "P1", RACE);
            && st.writes == [Write(115.0, 0), Write(105.0, 0)] && !AllImprove(HELD, st.writes)
            && Find(st.book.positions, "P1").Some? && Find(st.book.positions, "P1").value.stopLoss == 105.0
  {
    hide Ran, Advance, Find;
    FoundAlone(HELD.(currentPrice := 120.0, stopLoss := 105.0));
    RaceRuns();
    var st := Ran(HOLDING, "P1", RACE);
    assert st.writes[1].stop == 105.0 && StopAt(HELD, st.writes, 1) == 115.0;
    assert !Better(HELD.direction, StopAt(HELD, st.writes, 1), st.writes[1].stop);
  }

  lemma AskAlone(st: State, id: nat)
    requires id !in st.callers
    ensures Advance(st, "P1", Ask(id, FIVE)) == st.(callers := st.callers[id := Reading(FIVE)])
  {
  }

  lemma RaceRuns()
    ensures Ran(HOLDING, "P1", RACE) == State(At(120.0, 105.0).(modifyCalls := 2), map[1 := Over, 2 := Over],
                                              [Write(115.0, 0), Write(105.0, 0)], 0.0)
  {
    assert Ran(HOLDING, "P1", []) == State(At(110.0, 90.0), map[], [], 0.0);
    assert RACE[..4] == [] + [RACE[0]] + [RACE[1]] + [RACE[2]] + [RACE[3]];
    assert RACE == RACE[..4] + [RACE[4]] + [RACE[5]] + [RACE[6]];
    hide Ran, Advance, At;
    FirstReads();
    SecondOvertakes();
  }

  lemma FirstReads()
    ensures Ran(HOLDING, "P1", [] + [RACE[0]] + [RACE[1]] + [RACE[2]] + [RACE[3]])
            == State(At(120.0, 90.0), map[1 := Moving(105.0, None, 0), 2 := Reading(FIVE)], [], 0.0)
  {
    var e0: seq<Event> := [];
    assert Ran(HOLDING, "P1", e0) == State(At(110.0, 90.0), map[], [], 0.0);
    hide Ran, Advance;
    var one, two := map[1 := Reading(FIVE)], map[1 := Moving(105.0, None, 0)];
    RanSnoc(HOLDING, "P1", e0, RACE[0]);
    AskAlone(State(At(110.0, 90.0), map[], [], 0.0), 1);
    RanSnoc(HOLDING, "P1", e0 + [RACE[0]], RACE[1]);
    ReadAlone(110.0, 90.0, 0, one, [], 1);
    assert one[1 := Moving(105.0, None, 0)] == two;
    RanSnoc(HOLDING, "P1", e0 + [RACE[0]] + [RACE[1]], RACE[2]);
    PriceAlone(110.0, 90.0, two, 120.0);
    RanSnoc(HOLDING, "P1", e0 + [RACE[0]] + [RACE[1]] + [RACE[2]], RACE[3]);
    AskAlone(State(At(120.0, 90.0), two, [], 0.0), 2);
  }

  lemma SecondOvertakes()
    requires Ran(HOLDING, "P1", RACE[..4])
             == State(At(120.0, 90.0), map[1 := Moving(105.0, None, 0), 2 := Reading(FIVE)], [], 0.0)
    ensures Ran(HOLDING, "P1", RACE[..4] + [RACE[4]] + [RACE[5]] + [RACE[6]])
            == State(At(120.0, 105.0).(modifyCalls := 2), map[1 := Over, 2 := Over],
                     [Write(115.0, 0), Write(105.0, 0)], 0.0)
  {
    hide Ran, Advance;
    var first := Moving(105.0, None, 0);
    var one, two := map[1 := first, 2 := Reading(FIVE)], map[1 := first, 2 := Moving(115.0, None, 0)];
    var three := map[1 := first, 2 := Over];
    RanSnoc(HOLDING, "P1", RACE[..4], RACE[4]);
    ReadAlone(120.0, 90.0, 0, one, [], 2);
    assert one[2 := Moving(115.0, None, 0)] == two;
    RanSnoc(HOLDING, "P1", RACE[..4] + [RACE[4]], RACE[5]);
    WriteAlone(120.0, 90.0, 0, two, [], 2, 115.0, 0);
    assert two[2 := Over] == three && [] + [Write(115.0, 0)] == [Write(115.0, 0)];
    RanSnoc(HOLDING, "P1", RACE[..4] + [RACE[4]] + [RACE[5]], RACE[6]);
    WriteAlone(120.0, 115.0, 1, three, [Write(115.0, 0)], 1, 105.0, 0);
    assert three[1 := Over] == map[1 := Over, 2 := Over];
    assert [Write(115.0, 0)] + [Write(105.0, 0)] == [Write(115.0, 0), Write(105.0, 0)];
  }
}
