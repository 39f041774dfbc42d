/** An order whose reply was lost is found again and protected, without ever being sent again. */
module Recovery {
  import opened Domain
  import opened Trading
  import opened MockBroker
  import opened Idempotency
  import opened Execution
  import opened Interleaving
  import opened Serialized
  import opened Calls
  import opened Executor

  /** The broker answers every call of a run, and lets positions be modified. */
  ghost predicate Reachable(s: nat -> Surroundings) {
    forall k: nat :: s(k).calls(0).Up() && s(k).calls(0).modificationAllowed
  }

  predicate IsMatch(cfg: Config, record: Record, position: Position) {
    && position.symbol == record.request.symbol
    && (position.signalId == Some(record.request.signalId) || position.strategyId == cfg.correlate(record.request.key))
  }

  /** The record's order was filled and its position is still open. */
  predicate FillIsHeld(cfg: Config, record: Record, positions: seq<Position>) {
    exists i :: 0 <= i < |positions| && IsMatch(cfg, record, positions[i])
  }

  /** The record's own position is open with exactly the requested stop and last target. */
  predicate FillIsGuarded(cfg: Config, record: Record, positions: seq<Position>) {
    exists i :: 0 <= i < |positions| && IsMatch(cfg, record, positions[i]) && Protects(positions[i], record.request)
  }

  /** One of the record's own positions is held under the ticket. */
  predicate FillHeldAt(cfg: Config, record: Record, positions: seq<Position>, ticket: string) {
    exists i :: 0 <= i < |positions| && IsMatch(cfg, record, positions[i]) && positions[i].ticket == ticket
  }

  /** The broker keeps positions in a dictionary under nonempty tickets. */
  ghost predicate Ticketed(positions: seq<Position>) {
    UniqueTickets(positions) && forall i :: 0 <= i < |positions| ==> positions[i].ticket != ""
  }

  /**
   * A call that ended with its record settled as a success, sending nothing, over the record's own guarded position or
   * its own pending order.
   */
  predicate Resolved(cfg: Config, world: World, record: Record, result: (Pc, World)) {
    && result.0.Finished? && result.0.outcome.status == StatusOf(Succeeded, record.request.orderType)
    && record.request.key in result.1.records && result.1.records[record.request.key].status == Succeeded
    && result.1.sends == world.sends
    && (FillIsGuarded(cfg, record, result.1.book.positions) || HoldsOrder(cfg, record, result.1.book.orders))
    && (FillIsHeld(cfg, record, world.book.positions) ==> FillIsGuarded(cfg, record, result.1.book.positions))
  }

  // ---------------------------------------------------------------------------
  // What the reads find
  // ---------------------------------------------------------------------------

  lemma {:induction false} OnSymbolHolds(positions: seq<Position>, symbol: string)
    ensures forall p :: p in OnSymbol(positions, symbol) <==> p in positions && p.symbol == symbol
  {
    if positions != [] {
      OnSymbolHolds(positions[1..], symbol);
      assert positions == [positions[0]] + positions[1..];
    }
  }

  lemma {:induction false} MatchIsFound(cfg: Config, record: Record, positions: seq<Position>)
    requires forall i :: 0 <= i < |positions| ==> positions[i].symbol == record.request.symbol
    ensures var found := FirstPosition(cfg, record, record.request.key, positions);
            && (found.Some? <==> FillIsHeld(cfg, record, positions))
            && (found.Some? ==> found.value in positions && IsMatch(cfg, record, found.value))
  {
    if positions != [] && !IsMatch(cfg, record, positions[0]) {
      var rest := positions[1..];
      MatchIsFound(cfg, record, rest);
      if FillIsHeld(cfg, record, rest) {
        var i :| 0 <= i < |rest| && IsMatch(cfg, record, rest[i]);
        assert positions[i + 1] == rest[i];
      }
      if FillIsHeld(cfg, record, positions) {
        var i :| 0 <= i < |positions| && IsMatch(cfg, record, positions[i]);
        assert rest[i - 1] == positions[i];
      }
    }
  }

  /** The read of one symbol's positions finds a match exactly when the record's position is held. */
  lemma HeldIffFound(cfg: Config, record: Record, positions: seq<Position>)
    ensures var found := FirstPosition(cfg, record, record.request.key, OnSymbol(positions, record.request.symbol));
            && (found.Some? <==> FillIsHeld(cfg, record, positions))
            && (found.Some? ==> found.value in positions && IsMatch(cfg, record, found.value))
  {
    var visible := OnSymbol(positions, record.request.symbol);
    OnSymbolHolds(positions, record.request.symbol);
    MatchIsFound(cfg, record, visible);
    hide FirstPosition, OnSymbol;
    if FillIsHeld(cfg, record, positions) {
      var i :| 0 <= i < |positions| && IsMatch(cfg, record, positions[i]);
      assert positions[i] in visible;
      var j :| 0 <= j < |visible| && visible[j] == positions[i];
    }
    if FillIsHeld(cfg, record, visible) {
      var j :| 0 <= j < |visible| && IsMatch(cfg, record, visible[j]);
      assert visible[j] in positions;
      var i :| 0 <= i < |positions| && positions[i] == visible[j];
    }
  }

  lemma {:induction false} FillIsFound(cfg: Config, w: Watch, positions: seq<Position>, position: Position)
    requires position in positions && IsFill(cfg, w, position)
    ensures var found := FirstFill(cfg, w, positions);
            found.Some? && found.value in positions && IsFill(cfg, w, found.value)
  {
    if !IsFill(cfg, w, positions[0]) {
      FillIsFound(cfg, w, positions[1..], position);
    }
  }

  lemma {:induction false} OrderIsFound(cfg: Config, record: Record, orders: seq<Order>)
    requires HoldsOrder(cfg, record, orders)
    ensures FirstOrder(cfg, record.request.key, OrdersOnSymbol(orders, record.request.symbol)).Some?
  {
    var i :| 0 <= i < |orders| && orders[i].symbol == record.request.symbol
             && (orders[i].key == record.request.key || orders[i].key == cfg.correlate(record.request.key));
    var rest := OrdersOnSymbol(orders[1..], record.request.symbol);
    assert ([orders[0]] + rest)[1..] == rest;
    assert [] + rest == rest;
    if i > 0 {
      assert orders[1..][i - 1] == orders[i];
      OrderIsFound(cfg, record, orders[1..]);
    }
  }

  // ---------------------------------------------------------------------------
  // The steps of such a reconciliation
  // ---------------------------------------------------------------------------

  /** The call has one of the record's own positions in view, under the ticket it reports. */
  ghost predicate InView(cfg: Config, world: World, w: Watch, record: Record) {
    && w.origin == Reconciling && w.request == record.request && Pursued(world, w.request)
    && Ticketed(world.book.positions)
    && w.report.ticket.Some? && FillHeldAt(cfg, record, world.book.positions, w.report.ticket.value)
  }

  /** With the record's position held, the two reads bring it into view. */
  lemma MatchOrdersFindsFill(cfg: Config, record: Record, world: World, s: Surroundings)
    requires record.key == record.request.key && Pursued(world, record.request) && Ticketed(world.book.positions)
    requires FillIsHeld(cfg, record, world.book.positions) && s.calls(0).Up()
    ensures var (next, after) :=
            StepMatchOrders(cfg, record, OnSymbol(world.book.positions, record.request.symbol), world, s);
            after == world && next.Look? && next.attempt == 1 && InView(cfg, world, next.w, record)
  {
    HeldIffFound(cfg, record, world.book.positions);
    hide FirstPosition, FirstOrder, OnSymbol, OrdersOnSymbol, FillIsHeld, Ticketed, Pursued, IsMatch;
    var found := FirstPosition(cfg, record, record.key, OnSymbol(world.book.positions, record.request.symbol)).value;
    var i :| 0 <= i < |world.book.positions| && world.book.positions[i] == found;
    assert FillHeldAt(cfg, record, world.book.positions, found.ticket);
  }

  /** With only the record's order pending, the call is ready to file it. */
  lemma MatchOrdersFindsOrder(cfg: Config, record: Record, world: World, s: Surroundings)
    requires record.key == record.request.key && s.calls(0).Up()
    requires !FillIsHeld(cfg, record, world.book.positions) && HoldsOrder(cfg, record, world.book.orders)
    ensures var (next, after) :=
            StepMatchOrders(cfg, record, OnSymbol(world.book.positions, record.request.symbol), world, s);
            after == world && next.Mark? && next.key == record.request.key && next.status == Succeeded
            && next.ending == FromRecord
  {
    HeldIffFound(cfg, record, world.book.positions);
    OrderIsFound(cfg, record, world.book.orders);
    hide FirstPosition, FirstOrder, OnSymbol, OrdersOnSymbol, FillIsHeld, HoldsOrder;
  }

  lemma OwnFillFound(cfg: Config, w: Watch, world: World, record: Record)
    requires InView(cfg, world, w, record)
    ensures var found := FirstFill(cfg, w, OnSymbol(world.book.positions, w.request.symbol));
            found.Some? && found.value in world.book.positions && IsMatch(cfg, record, found.value)
  {
    var positions := world.book.positions;
    var visible := OnSymbol(positions, w.request.symbol);
    OnSymbolHolds(positions, w.request.symbol);
    var i :| 0 <= i < |positions| && IsMatch(cfg, record, positions[i]) && positions[i].ticket == w.report.ticket.value;
    assert positions[i] in visible;
    FillIsFound(cfg, w, visible, positions[i]);
    var found := FirstFill(cfg, w, visible).value;
    assert found in visible;
    var j :| 0 <= j < |positions| && positions[j] == found;
    if found.ticket == positions[i].ticket {
      assert i == j;
    }
  }

  lemma LookFinds(cfg: Config, w: Watch, world: World, record: Record, s: Surroundings)
    requires InView(cfg, world, w, record) && s.calls(0).Up()
    ensures var (next, after) := StepLook(cfg, w, 1, world, s);
            && after == world
            && ((next == Settled(w, true, VERIFIED) && FillIsGuarded(cfg, record, world.book.positions))
                || (next.Repair? && next.w == w && FillHeldAt(cfg, record, world.book.positions, next.ticket)))
  {
    OwnFillFound(cfg, w, world, record);
    var positions := world.book.positions;
    hide FirstFill, OnSymbol, Settled, Protects, IsMatch;
    var found := FirstFill(cfg, w, OnSymbol(positions, w.request.symbol)).value;
    var j :| 0 <= j < |positions| && positions[j] == found;
    assert FillHeldAt(cfg, record, positions, found.ticket);
    if Protects(found, w.request) {
      assert FillIsGuarded(cfg, record, positions);
    }
    hide FillHeldAt, FillIsGuarded, UniqueTickets;
  }

  lemma RepairSucceeds(cfg: Config, w: Watch, ticket: string, world: World, record: Record, s: Surroundings)
    requires Ticketed(world.book.positions) && FillHeldAt(cfg, record, world.book.positions, ticket)
             && w.request == record.request
    requires s.calls(0).Up() && s.calls(0).modificationAllowed
    ensures var (next, after) := StepRepair(w, ticket, world, s);
            && next == Settled(w, true, REPAIRED) && FillIsGuarded(cfg, record, after.book.positions)
            && after.records == world.records && after.sends == world.sends && after.book.orders == world.book.orders
  {
    var positions := world.book.positions;
    FindExact(positions, ticket);
    var i :| 0 <= i < |positions| && IsMatch(cfg, record, positions[i]) && positions[i].ticket == ticket;
    var found := Find(positions, ticket).value;
    var j :| 0 <= j < |positions| && positions[j] == found;
    assert i == j;
    var changed := found.(stopLoss := w.request.stopLoss, takeProfit := Some(w.request.LastTarget()));
    FindAfterPut(positions, changed, ticket);
    FindExact(Put(positions, changed), ticket);
    hide Settled, Find, Put, HasTicket;
    var after := Put(positions, changed);
    var m :| 0 <= m < |after| && after[m] == changed;
    assert FillIsGuarded(cfg, record, after);
    hide FillIsGuarded;
  }

  lemma MarkResolves(cfg: Config, mark: Pc, world: World, record: Record, s: Surroundings)
    requires mark.Mark? && mark.key == record.request.key && mark.status == Succeeded && mark.ending == FromRecord
    requires Pursued(world, record.request)
    requires FillIsGuarded(cfg, record, world.book.positions) || HoldsOrder(cfg, record, world.book.orders)
    requires FillIsHeld(cfg, record, world.book.positions) ==> FillIsGuarded(cfg, record, world.book.positions)
    ensures Resolved(cfg, world, record, Step(cfg, mark, world, s))
  {
    hide FillIsGuarded, HoldsOrder, FillIsHeld, IsUnresolved;
  }

  // ---------------------------------------------------------------------------
  // The whole reconciliation
  // ---------------------------------------------------------------------------

  lemma FindsRecord(key: string, world: World)
    requires RecordsOk(world.records) && key in world.records && world.records[key].status in {Submitted, Unknown}
    ensures StepFindRecord(key, world) == (MatchPositions(world.records[key]), world)
    ensures var record := world.records[key]; record.key == record.request.key == key && Pursued(world, record.request)
  {
    assert RecordOk(key, world.records[key]);
  }

  lemma MatchPositionsReads(record: Record, world: World, s: Surroundings)
    requires s.calls(0).Up()
    ensures StepMatchPositions(record, world, s)
            == (MatchOrders(record, OnSymbol(world.book.positions, record.request.symbol)), world)
  {
    hide OnSymbol;
  }

  lemma RunToOrdersRead(cfg: Config, key: string, world: World, s: nat -> Surroundings)
    requires RecordsOk(world.records) && key in world.records && world.records[key].status in {Submitted, Unknown}
             && Reachable(s)
    ensures var record := world.records[key];
            && record.key == record.request.key == key && Pursued(world, record.request)
            && RunTo(cfg, FindRecord(key), world, s, 0, 3)
               == StepMatchOrders(cfg, record, OnSymbol(world.book.positions, record.request.symbol), world, s(2))
  {
    hide RunTo, RecordsOk, StepFindRecord, StepMatchPositions, StepMatchOrders, Pursued, OnSymbol;
    var start, record := FindRecord(key), world.records[key];
    FindsRecord(key, world);
    FirstStep(cfg, start, world, s, 0);
    assert RunTo(cfg, start, world, s, 0, 1) == (MatchPositions(record), world);
    RunOn(cfg, start, world, s, 0, 1);
    MatchPositionsReads(record, world, s(1));
    RunOn(cfg, start, world, s, 0, 2);
  }

  lemma FillResolved(cfg: Config, w: Watch, world: World, record: Record, s: nat -> Surroundings, start: Pc)
    requires InView(cfg, world, w, record) && Reachable(s) && RunTo(cfg, start, world, s, 0, 3) == (Look(w, 1), world)
    ensures exists n: nat :: n <= 6 && Resolved(cfg, world, record, RunTo(cfg, start, world, s, 0, n))
  {
    hide RunTo, Step, Settled, FillIsGuarded, FillHeldAt, StepLook, StepRepair, Resolved, StatusOf, Pursued, Ticketed;
    LookOn(cfg, start, world, world, s, 0, 3, w, 1);
    LookFinds(cfg, w, world, record, s(3));
    SettledMarks(w, VERIFIED);
    SettledMarks(w, REPAIRED);
    hide InView;
    var next := StepLook(cfg, w, 1, world, s(3)).0;
    RunOn(cfg, start, world, s, 0, 4);
    if next.Repair? {
      RepairSucceeds(cfg, w, next.ticket, world, record, s(4));
      var after := StepRepair(w, next.ticket, world, s(4)).1;
      RepairIs(cfg, w, next.ticket, world, s(4));
      RunOn(cfg, start, world, s, 0, 5);
      StillPursued(world, after, w.request);
      MarkResolves(cfg, Settled(w, true, REPAIRED), after, record, s(5));
      ResolvedFrom(cfg, world, after, record, RunTo(cfg, start, world, s, 0, 6));
    } else {
      MarkResolves(cfg, Settled(w, true, VERIFIED), world, record, s(4));
    }
  }

  lemma SettledMarks(w: Watch, reason: string)
    ensures var mark := Settled(w, true, reason);
            mark.Mark? && mark.key == w.request.key && mark.status == Succeeded
            && (w.origin == Reconciling ==> mark.ending == FromRecord)
  {
  }

  lemma RepairIs(cfg: Config, w: Watch, ticket: string, world: World, s: Surroundings)
    ensures Step(cfg, Repair(w, ticket), world, s) == StepRepair(w, ticket, world, s)
  {
    hide StepRepair;
  }

  lemma StillPursued(before: World, after: World, request: OrderRequest)
    requires Pursued(before, request) && after.records == before.records
    ensures Pursued(after, request)
  {
  }

  lemma ResolvedFrom(cfg: Config, before: World, world: World, record: Record, result: (Pc, World))
    requires Resolved(cfg, world, record, result) && world.sends == before.sends
             && FillIsGuarded(cfg, record, world.book.positions)
    ensures Resolved(cfg, before, record, result)
  {
    assert FillIsHeld(cfg, record, world.book.positions);
    hide FillIsGuarded, HoldsOrder, FillIsHeld;
  }

  /**
   * An order that the broker booked is resolved by one reconciliation: with the broker up, the call finds the record's
   * own position or pending order within six steps, leaves the position with exactly the requested stop and last
   * target, files the record as a success, and sends nothing.
   */
  lemma BookedOrderIsResolved(cfg: Config, key: string, world: World, s: nat -> Surroundings)
    requires RecordsOk(world.records) && key in world.records && world.records[key].status in {Submitted, Unknown}
    requires Ticketed(world.book.positions) && Reachable(s)
    requires FillIsHeld(cfg, world.records[key], world.book.positions)
             || HoldsOrder(cfg, world.records[key], world.book.orders)
    ensures exists n: nat ::
              n <= 6 && Resolved(cfg, world, world.records[key], RunTo(cfg, FindRecord(key), world, s, 0, n))
  {
    hide RunTo, RecordsOk, FillIsHeld, HoldsOrder, Ticketed, InView, Resolved, Step, StepMatchOrders, OnSymbol, Pursued;
    var record, start := world.records[key], FindRecord(key);
    RunToOrdersRead(cfg, key, world, s);
    if FillIsHeld(cfg, record, world.book.positions) {
      MatchOrdersFindsFill(cfg, record, world, s(2));
      var w := StepMatchOrders(cfg, record, OnSymbol(world.book.positions, record.request.symbol), world, s(2)).0.w;
      FillResolved(cfg, w, world, record, s, start);
    } else {
      MatchOrdersFindsOrder(cfg, record, world, s(2));
      RunOn(cfg, start, world, s, 0, 3);
      MarkResolves(cfg, RunTo(cfg, start, world, s, 0, 3).0, world, record, s(3));
      assert Resolved(cfg, world, record, RunTo(cfg, start, world, s, 0, 4));
    }
  }

  // ---------------------------------------------------------------------------
  // From the lost reply on
  // ---------------------------------------------------------------------------

  lemma {:induction false} PutHolds(positions: seq<Position>, position: Position)
    ensures position in Put(positions, position)
  {
    if positions != [] && positions[0].ticket != position.ticket {
      PutHolds(positions[1..], position);
    }
  }

  lemma {:induction false} PutOrderHolds(orders: seq<Order>, order: Order)
    ensures order in PutOrder(orders, order)
  {
    if orders != [] && orders[0].ticket != order.ticket {
      PutOrderHolds(orders[1..], order);
    }
  }

  /** The broker will accept the order and lose its reply. */
  predicate LosesReply(cfg: Config, book: Book, request: OrderRequest, env: Conditions) {
    && NextBehavior(book) == TimeoutAfterAccept
    && Validated(cfg.symbols, env, request).Ok? && Validated(cfg.symbols, env, request).value.accepted
  }

  /** An order whose reply is lost after acceptance is booked: as its position, or as its pending order. */
  lemma LostOrderIsBooked(cfg: Config, book: Book, request: OrderRequest, env: Conditions, record: Record)
    requires LosesReply(cfg, book, request, env) && request.key !in book.reports
    requires record.request == request && Ticketed(book.positions)
    ensures var (after, reply) := Placed(cfg.symbols, env, book, request, request.orderType != Market);
            && reply == Indeterminate(LOST_AFTER) && Ticketed(after.positions)
            && (FillIsHeld(cfg, record, after.positions) || HoldsOrder(cfg, record, after.orders))
  {
    var pending := request.orderType != Market;
    var price := if request.symbol in env.ticks then OrderPrice(request, env.ticks[request.symbol]) else 0.0;
    var ticket := TicketText(if pending then 'O' else 'P', book.tickets + 1);
    assert ticket != "";
    hide Validated, Put, PutOrder, OrderPrice, TicketText, FillIsHeld, HoldsOrder, Ticketed;
    if pending {
      var order := Order(ticket, request.symbol, request.direction, request.orderType, request.volume, price,
                         request.stopLoss,
                         Some(request.LastTarget()), OrderStatus.Pending, env.now, request.key);
      OrderPut(cfg, record, book.orders, order);
    } else {
      var position := Position(ticket, request.symbol, request.direction, request.volume, price, price,
                               request.stopLoss,
                               Some(request.LastTarget()), env.now, request.strategyId, Some(request.signalId));
      PositionPut(cfg, record, book.positions, position);
    }
  }

  lemma OrderPut(cfg: Config, record: Record, orders: seq<Order>, order: Order)
    requires order.symbol == record.request.symbol && order.key == record.request.key
    ensures HoldsOrder(cfg, record, PutOrder(orders, order))
  {
    PutOrderHolds(orders, order);
    var after := PutOrder(orders, order);
    var i :| 0 <= i < |after| && after[i] == order;
  }

  lemma PositionPut(cfg: Config, record: Record, positions: seq<Position>, position: Position)
    requires Ticketed(positions) && position.ticket != "" && IsMatch(cfg, record, position)
    ensures Ticketed(Put(positions, position)) && FillIsHeld(cfg, record, Put(positions, position))
  {
    PutHolds(positions, position);
    PutKeepsTickets(positions, position);
    var after := Put(positions, position);
    var i :| 0 <= i < |after| && after[i] == position;
  }

  /** The order is booked at the broker and its record is still open. */
  ghost predicate AwaitsReconciliation(cfg: Config, world: World, request: OrderRequest) {
    && RecordsOk(world.records) && Pursued(world, request) && Ticketed(world.book.positions)
    && var record := world.records[request.key];
       FillIsHeld(cfg, record, world.book.positions) || HoldsOrder(cfg, record, world.book.orders)
  }

  lemma SendLosesReply(cfg: Config, job: Job, world: World, s: Surroundings)
    requires RecordsOk(world.records) && InHand(world, job.request, Submitted) && Ticketed(world.book.positions)
    requires LosesReply(cfg, world.book, job.request, s.calls(0)) && job.request.key !in world.book.reports
    ensures var (next, sent) := Step(cfg, Send(job), world, s);
            && AwaitsReconciliation(cfg, sent, job.request) && sent.sends == world.sends + [job.request.key]
            && InHand(sent, job.request, Submitted)
            && next.Mark? && next.key == job.request.key && next.status == Unknown
  {
    hide Placed, RecordsOk, Ticketed, FillIsHeld, HoldsOrder, LosesReply;
    LostOrderIsBooked(cfg, world.book, job.request, s.calls(0), world.records[job.request.key]);
  }

  /** Marking the result unknown leaves the order as it is. */
  lemma MarkAwaits(cfg: Config, mark: Pc, world: World, request: OrderRequest, s: Surroundings)
    requires AwaitsReconciliation(cfg, world, request) && InHand(world, request, Submitted)
    requires mark.Mark? && mark.key == request.key && mark.status == Unknown
    ensures var after := Step(cfg, mark, world, s).1;
            AwaitsReconciliation(cfg, after, request) && after.sends == world.sends
  {
    MarkShape(mark.key, mark.status, mark.report, mark.reason, mark.ending, world, s);
    var updated := Updated(world.records, mark.key, Unknown, s.clock, mark.report, mark.reason);
    assert updated.Ok?;
    UpdateKeeps(world.records, mark.key, Unknown, s.clock, mark.report, mark.reason);
    hide StepMark, RecordsOk, Extends, Ticketed;
    SameFill(cfg, world.records[request.key], updated.value[request.key], world.book);
    hide FillIsHeld, HoldsOrder;
  }

  lemma SameFill(cfg: Config, a: Record, b: Record, book: Book)
    requires a.request == b.request
    ensures FillIsHeld(cfg, a, book.positions) == FillIsHeld(cfg, b, book.positions)
    ensures HoldsOrder(cfg, a, book.orders) == HoldsOrder(cfg, b, book.orders)
  {
  }

  lemma AwaitedIsResolved(cfg: Config, world: World, request: OrderRequest, s: nat -> Surroundings)
    requires AwaitsReconciliation(cfg, world, request) && Reachable(s)
    ensures exists n: nat ::
              n <= 6 && Resolved(cfg, world, world.records[request.key],
                                 RunTo(cfg, FindRecord(request.key), world, s, 0, n))
  {
    hide RunTo, Resolved, RecordsOk, Ticketed, FillIsHeld, HoldsOrder, Reachable;
    BookedOrderIsResolved(cfg, request.key, world, s);
  }

  /** What happens to the call whose reply was lost: it crashes, or it marks its result unknown. */
  function Then(i: nat, crashes: bool, marking: Surroundings): Event {
    if crashes then Crash(i) else StepOf(i, marking)
  }

  /**
   * In every serialized run, when the broker accepts an order and loses the reply, and whether the call then crashes or
   * marks its result unknown, the order was sent once and is resolved by one reconciliation: its own position ends with
   * exactly the requested stop and last target, or its own pending order is found, and the record is filed as a
   * success.
   */
  lemma LostReplyIsRecovered(cfg: Config, book: Book, events: seq<Event>, i: nat, sending: Surroundings,
                             marking: Surroundings, crashes: bool, s: nat -> Surroundings)
    requires Fresh(book) && Serial(cfg, book, events) && i < |Ran(cfg, book, events).procs|
             && Ran(cfg, book, events).procs[i].Send?
    requires var sys := Ran(cfg, book, events);
             Ticketed(sys.world.book.positions)
             && LosesReply(cfg, sys.world.book, sys.procs[i].job.request, sending.calls(0))
    requires Reachable(s)
    ensures var sys := Ran(cfg, book, events);
            var request := sys.procs[i].job.request;
            var left := Ran(cfg, book, events + [StepOf(i, sending)] + [Then(i, crashes, marking)]).world;
            && left.sends == sys.world.sends + [request.key] && request.key in left.records
            && exists n: nat ::
                 n <= 6 && Resolved(cfg, left, left.records[request.key],
                                    RunTo(cfg, FindRecord(request.key), left, s, 0, n))
  {
    hide Step, RunTo, Resolved, Reachable, Ticketed, LosesReply, RecordsOk;
    var sys := Ran(cfg, book, events);
    var job := sys.procs[i].job;
    SendReady(cfg, book, events, i);
    RanSnoc(cfg, book, events, StepOf(i, sending));
    RanSnoc(cfg, book, events + [StepOf(i, sending)], Then(i, crashes, marking));
    hide Ran, Serial;
    SendLosesReply(cfg, job, sys.world, sending);
    var (next, sent) := Step(cfg, Send(job), sys.world, sending);
    if !crashes {
      MarkAwaits(cfg, next, sent, job.request, marking);
    }
    hide AwaitsReconciliation, InHand;
    var left := Ran(cfg, book, events + [StepOf(i, sending)] + [Then(i, crashes, marking)]).world;
    AwaitedHasRecord(cfg, left, job.request);
    AwaitedIsResolved(cfg, left, job.request, s);
  }

  lemma AwaitedHasRecord(cfg: Config, world: World, request: OrderRequest)
    requires AwaitsReconciliation(cfg, world, request)
    ensures request.key in world.records
  {
    hide RecordsOk, Ticketed, FillIsHeld, HoldsOrder;
  }

  /** What a reachable serialized system says of a process about to send. */
  lemma SendReady(cfg: Config, book: Book, events: seq<Event>, i: nat)
    requires Fresh(book) && Serial(cfg, book, events) && i < |Ran(cfg, book, events).procs|
             && Ran(cfg, book, events).procs[i].Send?
    ensures var sys := Ran(cfg, book, events);
            var request := sys.procs[i].job.request;
            RecordsOk(sys.world.records) && InHand(sys.world, request, Submitted)
            && request.key !in sys.world.book.reports
  {
    SerialRunOk(cfg, book, events);
    RunOk(cfg, book, events);
    hide Ran, Serial, RecordsOk;
    var sys := Ran(cfg, book, events);
    assert Fits(sys.world, sys.procs[i]) && PcOk(sys.world, sys.procs[i]);
  }
}
