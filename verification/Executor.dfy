/** The executor itself: what it does call by call is exactly a run of the protocol's steps. */
module Executor {
  import opened Domain
  import opened Trading
  import opened MockBroker
  import opened Gates
  import opened Idempotency
  import opened StateMachine
  import opened Execution
  import opened Interleaving
  import opened Serialized
  import opened Calls
  import opened Exposure
  import opened Symbols
  import Text

  // ---------------------------------------------------------------------------
  // Protection of the matched fill
  // ---------------------------------------------------------------------------

  lemma {:induction false} FillIsOpen(cfg: Config, w: Watch, positions: seq<Position>, symbol: string)
    ensures var found := FirstFill(cfg, w, OnSymbol(positions, symbol));
            found.Some? ==> found.value in positions && found.value.symbol == symbol && IsFill(cfg, w, found.value)
    ensures FirstFill(cfg, w, []) == None
  {
    if positions != [] {
      FillIsOpen(cfg, w, positions[1..], symbol);
      var rest := OnSymbol(positions[1..], symbol);
      assert ([positions[0]] + rest)[1..] == rest;
      assert [] + rest == rest;
    }
  }

  /**
   * A position that belongs to the watched order: on its symbol and recognised as its fill, or under the reported
   * ticket.
   */
  predicate IsOwnFill(cfg: Config, w: Watch, position: Position) {
    IsFill(cfg, w, position) && (position.symbol == w.request.symbol || Some(position.ticket) == w.report.ticket)
  }

  /** One of the order's own positions is held under the ticket. */
  predicate HeldFill(cfg: Config, w: Watch, positions: seq<Position>, ticket: string) {
    exists i :: 0 <= i < |positions| && positions[i].ticket == ticket && IsOwnFill(cfg, w, positions[i])
  }

  /** One of the order's own positions is held under the ticket, with exactly the requested stop and last target. */
  predicate GuardedFill(cfg: Config, w: Watch, positions: seq<Position>, ticket: string) {
    exists i :: 0 <= i < |positions| && positions[i].ticket == ticket && IsOwnFill(cfg, w, positions[i])
                && Protects(positions[i], w.request)
  }

  /** The ticket a call settles on: the reported one, or that of a visible fill. */
  predicate Tied(cfg: Config, w: Watch, positions: seq<Position>, ticket: Option<string>) {
    ticket == w.report.ticket || (ticket.Some? && HeldFill(cfg, w, positions, ticket.value))
  }

  lemma TiedIsOwn(cfg: Config, w: Watch, positions: seq<Position>, ticket: string)
    requires UniqueTickets(positions) && Tied(cfg, w, positions, Some(ticket)) && Find(positions, ticket).Some?
    ensures IsOwnFill(cfg, w, Find(positions, ticket).value) && HeldFill(cfg, w, positions, ticket)
  {
    FindExact(positions, ticket);
    var found := Find(positions, ticket).value;
    var k :| 0 <= k < |positions| && positions[k] == found;
    if Some(ticket) != w.report.ticket {
      var i :| 0 <= i < |positions| && positions[i].ticket == ticket && IsOwnFill(cfg, w, positions[i]);
      assert i == k;
    }
  }

  /** A repair that the broker confirms leaves the order's own position guarded. */
  lemma RepairGuardsFill(cfg: Config, w: Watch, env: Conditions, book: Book, ticket: string)
    requires UniqueTickets(book.positions) && Tied(cfg, w, book.positions, Some(ticket))
    requires Modified(env, book, ticket, w.request.stopLoss, Some(w.request.LastTarget())).1 == Ok(true)
    ensures HeldFill(cfg, w, book.positions, ticket)
    ensures GuardedFill(cfg, w, Modified(env, book, ticket, w.request.stopLoss,
                                         Some(w.request.LastTarget())).0.positions, ticket)
  {
    TiedIsOwn(cfg, w, book.positions, ticket);
    FindExact(book.positions, ticket);
    var changed := Find(book.positions, ticket).value.(stopLoss := w.request.stopLoss,
                                                       takeProfit := Some(w.request.LastTarget()));
    FindAfterPut(book.positions, changed, ticket);
    FindExact(Put(book.positions, changed), ticket);
    hide Find, Put, UniqueTickets, Tied, HeldFill, HasTicket;
    var after := Put(book.positions, changed);
    var i :| 0 <= i < |after| && after[i] == changed;
  }

  /** A close that the broker confirms removes the order's own position. */
  lemma CloseRemovesFill(cfg: Config, w: Watch, env: Conditions, book: Book, ticket: string)
    requires UniqueTickets(book.positions) && Tied(cfg, w, book.positions, Some(ticket))
    ensures var (after, closed) := MockBroker.Closed(env, book, ticket, None);
            closed.Ok? && closed.value.success ==>
              HeldFill(cfg, w, book.positions, ticket) && !HasTicket(after.positions, ticket)
  {
    FindAfterWithout(book.positions, ticket, ticket);
    FindExact(Without(book.positions, ticket), ticket);
    if Find(book.positions, ticket).Some? {
      TiedIsOwn(cfg, w, book.positions, ticket);
    }
    hide Find, Put, Without, HasTicket, HeldFill, Tied, UniqueTickets;
  }

  lemma CloseCounts(env: Conditions, book: Book, ticket: string)
    ensures var after := MockBroker.Closed(env, book, ticket, None).0;
            after.closeCalls <= book.closeCalls + 1 && after.modifyCalls == book.modifyCalls
  {
    hide Find, Put, Without, Text.Decimal;
  }

  lemma ModifyCounts(env: Conditions, book: Book, ticket: string, request: OrderRequest)
    ensures var (after, done) := Modified(env, book, ticket, request.stopLoss, Some(request.LastTarget()));
            && after.modifyCalls <= book.modifyCalls + 1 && after.closeCalls == book.closeCalls
            && (done != Ok(true) ==> after.positions == book.positions)
  {
    hide Find, Put;
  }

  lemma SendCounts(symbols: map<string, Spec>, env: Conditions, book: Book, request: OrderRequest, pending: bool)
    ensures Placed(symbols, env, book, request, pending).0.sendCalls == book.sendCalls + 1
  {
    hide Validated, Put, PutOrder, OrderPrice, TicketText, Joined;
  }

  datatype Submission = Done(outcome: Outcome) | Sent(job: Job, reply: Reply)

  function Tickets(orders: seq<Order>): seq<string> {
    if orders == [] then [] else Tickets(orders[..|orders| - 1]) + [orders[|orders| - 1].ticket]
  }

  datatype Admission = Answered(outcome: Outcome) | Admitted(risk: Decision)

  // ---------------------------------------------------------------------------
  // What an answer says about the broker
  // ---------------------------------------------------------------------------

  /** One of the order's own positions is open with exactly the requested stop and last target. */
  predicate GuardsFill(cfg: Config, w: Watch, positions: seq<Position>) {
    exists i :: 0 <= i < |positions| && IsOwnFill(cfg, w, positions[i]) && Protects(positions[i], w.request)
  }

  /** One of the order's own positions was held before and its ticket is gone after. */
  predicate FillGone(cfg: Config, w: Watch, before: seq<Position>, after: seq<Position>) {
    exists i :: 0 <= i < |before| && IsOwnFill(cfg, w, before[i]) && !HasTicket(after, before[i].ticket)
  }

  lemma GuardedIsHeld(cfg: Config, w: Watch, positions: seq<Position>, ticket: string)
    requires GuardedFill(cfg, w, positions, ticket)
    ensures HeldFill(cfg, w, positions, ticket)
  {
  }

  lemma GuardsFrom(cfg: Config, w: Watch, positions: seq<Position>, ticket: string)
    requires GuardedFill(cfg, w, positions, ticket)
    ensures GuardsFill(cfg, w, positions)
  {
  }

  lemma GoneFrom(cfg: Config, w: Watch, before: seq<Position>, after: seq<Position>, ticket: string)
    requires HeldFill(cfg, w, before, ticket) && !HasTicket(after, ticket)
    ensures FillGone(cfg, w, before, after)
  {
    hide HasTicket;
  }

  /** The watch an answered order stands for. */
  function WatchOf(request: OrderRequest, report: Report): Watch {
    Watch(request, report, Reconciling)
  }

  lemma SameWatch(cfg: Config, w: Watch, before: seq<Position>, after: seq<Position>)
    ensures GuardsFill(cfg, w, after) <==> GuardsFill(cfg, WatchOf(w.request, w.report), after)
    ensures FillGone(cfg, w, before, after) <==> FillGone(cfg, WatchOf(w.request, w.report), before, after)
  {
    hide Protects, HasTicket;
    assert forall p :: IsOwnFill(cfg, w, p) <==> IsOwnFill(cfg, WatchOf(w.request, w.report), p);
    hide IsOwnFill;
  }

  /** An answer that was not replayed carries its lifecycle. */
  predicate IsFirstAnswer(outcome: Outcome) {
    outcome.transitions != [] && outcome.request.Some? && outcome.report.Some?
  }

  /** An order first answered as filled has its own position guarded; one answered as safely closed has it gone. */
  predicate AnswerTrue(cfg: Config, outcome: Outcome, held: seq<Position>, positions: seq<Position>) {
    IsFirstAnswer(outcome) ==>
      var w := WatchOf(outcome.request.value, outcome.report.value);
      && (outcome.status == FilledOrder ==> GuardsFill(cfg, w, positions))
      && (outcome.status == Unprotected && outcome.reasons == [SAFELY_CLOSED] ==> FillGone(cfg, w, held, positions))
  }

  /** An answer that concerns no fill says nothing about positions. */
  lemma OtherAnswerTrue(cfg: Config, outcome: Outcome, held: seq<Position>, positions: seq<Position>)
    requires !IsFirstAnswer(outcome) || outcome.status !in {FilledOrder, Unprotected}
    ensures AnswerTrue(cfg, outcome, held, positions)
  {
  }

  predicate HoldsOrder(cfg: Config, record: Record, orders: seq<Order>) {
    exists i :: 0 <= i < |orders| && orders[i].symbol == record.request.symbol
                && (orders[i].key == record.request.key || orders[i].key == cfg.correlate(record.request.key))
  }

  lemma SameHolding(cfg: Config, a: Record, b: Record, orders: seq<Order>)
    requires a.request == b.request
    ensures HoldsOrder(cfg, a, orders) == HoldsOrder(cfg, b, orders)
  {
  }

  lemma {:induction false} OrderIsHeld(cfg: Config, record: Record, orders: seq<Order>)
    ensures FirstOrder(cfg, record.request.key, OrdersOnSymbol(orders, record.request.symbol)).Some? ==>
              HoldsOrder(cfg, record, orders)
  {
    if orders != [] {
      var rest := OrdersOnSymbol(orders[1..], record.request.symbol);
      OrderIsHeld(cfg, record, orders[1..]);
      assert ([orders[0]] + rest)[1..] == rest;
      assert [] + rest == rest;
      if HoldsOrder(cfg, record, orders[1..]) {
        var i :| 0 <= i < |orders[1..]| && orders[1..][i].symbol == record.request.symbol
                 && (orders[1..][i].key == record.request.key
                     || orders[1..][i].key == cfg.correlate(record.request.key));
        assert orders[i + 1] == orders[1..][i];
      }
    }
  }

  /**
   * A record that reconciliation settled: its own position is guarded or its own order pending, or its position is
   * gone.
   */
  predicate SettledTrue(cfg: Config, record: Record, held: seq<Position>, positions: seq<Position>, orders: seq<Order>)
  {
    && (record.status == Succeeded ==>
          && record.report.Some?
          && (GuardsFill(cfg, WatchOf(record.request, record.report.value), positions)
              || HoldsOrder(cfg, record, orders)))
    && (record.status == ProtectionFailed && record.reason == SAFELY_CLOSED ==>
          record.report.Some? && FillGone(cfg, WatchOf(record.request, record.report.value), held, positions))
  }

  /** The answer is true of the broker, for some positions held during the steps that led to it. */
  ghost predicate TrueAfter(cfg: Config, outcome: Outcome, pc: Pc, world: World, s: nat -> Surroundings, from: nat,
                            upto: nat, positions: seq<Position>)
    requires from <= upto
  {
    exists m :: from <= m <= upto &&
                AnswerTrue(cfg, outcome, RunTo(cfg, pc, world, s, from, m).1.book.positions, positions)
  }

  lemma StoppedTrue(cfg: Config, outcome: Outcome, pc: Pc, world: World, s: nat -> Surroundings, from: nat, upto: nat,
                    positions: seq<Position>)
    requires from <= upto && (!IsFirstAnswer(outcome) || outcome.status !in {FilledOrder, Unprotected})
    ensures TrueAfter(cfg, outcome, pc, world, s, from, upto, positions)
  {
    hide RunTo, AnswerTrue;
    OtherAnswerTrue(cfg, outcome, RunTo(cfg, pc, world, s, from, from).1.book.positions, positions);
  }

  lemma ReplayTrue(cfg: Config, record: Record, risk: Option<Decision>, pc: Pc, world: World, s: nat -> Surroundings,
                   from: nat, upto: nat, positions: seq<Position>)
    requires from <= upto
    ensures TrueAfter(cfg, Replay(record, risk), pc, world, s, from, upto, positions)
  {
    assert !IsFirstAnswer(Replay(record, risk));
    hide RunTo, AnswerTrue, TrueAfter, Replay;
    StoppedTrue(cfg, Replay(record, risk), pc, world, s, from, upto, positions);
  }

  /** What is true after the later part of a run is true after all of it. */
  lemma TrueEarlier(cfg: Config, outcome: Outcome, pc: Pc, world: World, next: Pc, reached: World,
                    s: nat -> Surroundings, from: nat, mid: nat, upto: nat, positions: seq<Position>)
    requires from <= mid <= upto && RunTo(cfg, pc, world, s, from, mid) == (next, reached)
    requires TrueAfter(cfg, outcome, next, reached, s, mid, upto, positions)
    ensures TrueAfter(cfg, outcome, pc, world, s, from, upto, positions)
  {
    hide RunTo, AnswerTrue;
    var m :| mid <= m <= upto
    && AnswerTrue(cfg, outcome, RunTo(cfg, next, reached, s, mid, m).1.book.positions, positions);
    RunsCompose(cfg, pc, world, s, from, mid, m);
  }

  lemma KeyIsFiled(records: Records, key: string)
    requires RecordsOk(records) && key in records
    ensures records[key].key == key
  {
    assert RecordOk(key, records[key]);
  }

  lemma OutsideStaysIdle(cfg: Config, sys: System, event: Event)
    requires Idle(sys) && event.Outside?
    ensures Idle(Advance(cfg, sys, event))
    ensures Advance(cfg, sys, event).world
         == sys.world.(book := sys.world.book.(positions := event.positions, orders := event.orders,
                                               behaviors := event.behaviors))
  {
    hide Step, Active;
  }

  lemma IdleAgain(before: System, after: System, pc: Pc)
    requires Idle(before) && after.procs == before.procs + [pc] && !Active(pc)
    ensures Idle(after)
  {
    hide Active;
  }

  class TradeExecutor {
    const cfg: Config
    const broker: Broker
    const store: InMemoryIdempotencyStore
    ghost const origin: Book
    ghost var sends: seq<string>
    ghost var journal: seq<Event>

    /** An executor over an empty store and a broker that was sent nothing yet. */
    constructor (cfg: Config, broker: Broker, store: InMemoryIdempotencyStore)
      requires cfg.symbols == broker.symbols && cfg.attempts >= 1
      requires Fresh(broker.Contents()) && UniqueTickets(broker.positions) && store.records == map[]
      ensures this.cfg == cfg && this.broker == broker && this.store == store && Valid() && sends == [] && journal == []
    {
      this.cfg, this.broker, this.store := cfg, broker, store;
      origin, sends, journal := broker.Contents(), [], [];
      new;
      assert Ran(cfg, origin, []).procs == [];
    }

    ghost predicate Wired() {
      cfg.symbols == broker.symbols && cfg.attempts >= 1
    }

    /** Between calls the store and the broker are where a serialized run of all calls so far leads. */
    ghost predicate Valid()
      reads this, broker, store
    {
      && Wired() && Fresh(origin) && UniqueTickets(broker.positions)
      && Serial(cfg, origin, journal) && Idle(Ran(cfg, origin, journal)) && Ran(cfg, origin, journal).world == Now()
    }

    ghost function Now(): World
      reads this, broker, store
    {
      World(store.records, broker.Contents(), sends)
    }

    /** Looks for the fill until it is visible, a bounded number of times. */
    method FindFill(w: Watch, s: nat -> Surroundings, k: nat)
      returns (protected: bool, ticket: Option<string>, n: nat)
      requires Wired()
      ensures k < n <= k + cfg.attempts
      ensures RunTo(cfg, Look(w, 1), Now(), s, k, n) ==
              (if protected then Settled(w, true, VERIFIED) else StartRepair(w, ticket), Now())
      ensures Tied(cfg, w, broker.positions, ticket)
      ensures protected ==> ticket.Some? && GuardedFill(cfg, w, broker.positions, ticket.value)
    {
      hide FirstFill, OnSymbol, Settled, Protects, RunTo, StartRepair, IsFill;
      ticket := w.report.ticket;
      n := k;
      assert RunTo(cfg, Look(w, 1), Now(), s, k, k) == (Look(w, 1), Now()) by {
        RunNone(cfg, Look(w, 1), Now(), s, k);
      }
      for attempt := 1 to cfg.attempts + 1
        invariant ticket == w.report.ticket && n == k + attempt - 1
        invariant RunTo(cfg, Look(w, 1), Now(), s, k, n) ==
                  (if attempt <= cfg.attempts then Look(w, attempt) else StartRepair(w, ticket), Now())
      {
        LookOn(cfg, Look(w, 1), Now(), Now(), s, k, n, w, attempt);
        var read := broker.GetPositions(s(k + attempt - 1).calls(0));
        var positions := if read.Ok? then OnSymbol(read.value, w.request.symbol) else [];
        var position := FirstFill(cfg, w, positions);
        n := n + 1;
        FillIsOpen(cfg, w, broker.positions, w.request.symbol);
        if position.Some? {
          ghost var i :| 0 <= i < |broker.positions| && broker.positions[i] == position.value;
          assert IsOwnFill(cfg, w, broker.positions[i]);
          protected, ticket := Protects(position.value, w.request), Some(position.value.ticket);
          return;
        }
      }
      protected := false;
    }

    /** Closes a fill whose protection could not be repaired. */
    method CloseOnce(w: Watch, ticket: string, s: nat -> Surroundings, k: nat) returns (reason: string)
      requires UniqueTickets(broker.positions) && Tied(cfg, w, broker.positions, Some(ticket))
      modifies broker
      ensures RunTo(cfg, SafeClose(w, ticket), old(Now()), s, k, k + 1) == (Settled(w, false, reason), Now())
      ensures reason == SAFELY_CLOSED ==>
                HeldFill(cfg, w, old(broker.positions), ticket) && !HasTicket(broker.positions, ticket)
      ensures broker.closeCalls <= old(broker.closeCalls) + 1 && broker.modifyCalls == old(broker.modifyCalls)
      ensures reason in {UNCONFIRMED, SAFELY_CLOSED, CLOSE_FAILED}
    {
      hide Settled, RunTo, UniqueTickets, HasTicket, HeldFill, Tied;
      ghost var before := Now();
      RunNone(cfg, SafeClose(w, ticket), before, s, k);
      RunOn(cfg, SafeClose(w, ticket), before, s, k, k);
      CloseCounts(s(k).calls(0), before.book, ticket);
      CloseRemovesFill(cfg, w, s(k).calls(0), before.book, ticket);
      hide MockBroker.Closed;
      var closed := broker.ClosePosition(s(k).calls(0), ticket, None);
      if closed.Err? {
        reason := UNCONFIRMED;
      } else if closed.value.success {
        reason := SAFELY_CLOSED;
      } else {
        reason := CLOSE_FAILED;
      }
    }

    /** Repairs the protection of a ticket once; failing that, closes it once. */
    method RepairOrClose(w: Watch, ticket: Option<string>, s: nat -> Surroundings, k: nat)
      returns (protected: bool, reason: string, n: nat)
      requires UniqueTickets(broker.positions) && Tied(cfg, w, broker.positions, ticket)
      modifies broker
      ensures k <= n <= k + 2
      ensures RunTo(cfg, StartRepair(w, ticket), old(Now()), s, k, n) == (Settled(w, protected, reason), Now())
      ensures protected ==>
                ticket.Some? && HeldFill(cfg, w, old(broker.positions), ticket.value)
                && GuardedFill(cfg, w, broker.positions, ticket.value)
      ensures reason == SAFELY_CLOSED ==>
                ticket.Some? && HeldFill(cfg, w, old(broker.positions), ticket.value)
                && !HasTicket(broker.positions, ticket.value)
      ensures broker.modifyCalls <= old(broker.modifyCalls) + 1 && broker.closeCalls <= old(broker.closeCalls) + 1
      ensures reason in {REPAIRED, NOT_VISIBLE, UNCONFIRMED, SAFELY_CLOSED, CLOSE_FAILED}
    {
      hide Settled, RunTo, GuardedFill, HeldFill, Tied, UniqueTickets, HasTicket;
      ghost var before, start := Now(), StartRepair(w, ticket);
      RunNone(cfg, start, before, s, k);
      if ticket.None? || ticket.value == "" {
        return false, NOT_VISIBLE, k;
      }
      RunOn(cfg, start, before, s, k, k);
      ModifyCounts(s(k).calls(0), before.book, ticket.value, w.request);
      if Modified(s(k).calls(0), before.book, ticket.value, w.request.stopLoss, Some(w.request.LastTarget())).1
      == Ok(true) {
        RepairGuardsFill(cfg, w, s(k).calls(0), before.book, ticket.value);
      }
      hide Modified;
      var repaired := broker.ModifyPosition(s(k).calls(0), ticket.value, w.request.stopLoss,
                                            Some(w.request.LastTarget()));
      if repaired == Ok(true) {
        return true, REPAIRED, k + 1;
      }
      ghost var tried := Now();
      assert RunTo(cfg, start, before, s, k, k + 1) == (SafeClose(w, ticket.value), tried);
      hide Step;
      RunsCompose(cfg, start, before, s, k, k + 1, k + 2);
      reason := CloseOnce(w, ticket.value, s, k + 1);
      protected, n := false, k + 2;
    }

    /**
     * Looks for the fill a bounded number of times, then repairs its protection once or closes it once. The ticket
     * settled on is the reported one or that of a visible fill. A fill reported as protected is the order's own, held
     * from the start, and carries exactly the requested stop and last target; one reported as safely closed was the
     * order's own and is gone.
     */
    method VerifyOrRepairProtection(w: Watch, s: nat -> Surroundings, k: nat)
      returns (protected: bool, reason: string, ticket: Option<string>, n: nat)
      requires Wired() && UniqueTickets(broker.positions)
      modifies broker
      ensures k < n <= k + cfg.attempts + 2
      ensures RunTo(cfg, Look(w, 1), old(Now()), s, k, n) == (Settled(w, protected, reason), Now())
      ensures Tied(cfg, w, old(broker.positions), ticket)
      ensures protected ==>
                ticket.Some? && HeldFill(cfg, w, old(broker.positions), ticket.value)
                && GuardedFill(cfg, w, broker.positions, ticket.value)
      ensures reason == SAFELY_CLOSED ==>
                ticket.Some? && HeldFill(cfg, w, old(broker.positions), ticket.value)
                && !HasTicket(broker.positions, ticket.value)
      ensures broker.modifyCalls <= old(broker.modifyCalls) + 1 && broker.closeCalls <= old(broker.closeCalls) + 1
      ensures reason in {VERIFIED, REPAIRED, NOT_VISIBLE, UNCONFIRMED, SAFELY_CLOSED, CLOSE_FAILED}
    {
      hide Settled, RunTo, GuardedFill, HeldFill, Tied, UniqueTickets, HasTicket, StartRepair, Step;
      protected, ticket, n := FindFill(w, s, k);
      if protected {
        GuardedIsHeld(cfg, w, broker.positions, ticket.value);
        reason := VERIFIED;
        return;
      }
      ghost var before := Now();
      var mid := n;
      protected, reason, n := RepairOrClose(w, ticket, s, mid);
      RunsCompose(cfg, Look(w, 1), before, s, k, mid, n);
    }

    // -------------------------------------------------------------------------
    // The last update of a call
    // -------------------------------------------------------------------------

    /** Files the result of a call and moves its trade; neither is ever refused. */
    method Conclude(key: string, status: RecordStatus, report: Option<Report>, reason: string, target: TradeState,
                    note: string, base: Outcome, machine: TradeStateMachine, s: nat -> Surroundings, k: nat)
      returns (outcome: Outcome)
      requires Fits(Now(), Mark(key, status, report, reason, Move(target, note, base)))
      requires machine.state == Last(base.transitions)
      modifies store, machine
      ensures RunTo(cfg, Mark(key, status, report, reason, Move(target, note, base)), old(Now()), s, k, k + 1)
           == (Finished(outcome), Now())
      ensures outcome == base.(transitions := outcome.transitions) && outcome.transitions != []
    {
      hide RunTo, Last, Blank, StatusOf, IsUnresolved;
      ghost var pc := Mark(key, status, report, reason, Move(target, note, base));
      RunNone(cfg, pc, Now(), s, k);
      RunOn(cfg, pc, Now(), s, k, k);
      var updated := store.Update(key, status, s(k).clock, report, reason);
      assert updated.Ok?;
      var moved := machine.Transition(target, note);
      assert moved.Ok?;
      outcome := base.(transitions := base.transitions + [moved.value]);
    }

    /** Files the result of a call and answers with what the record now says. */
    method Resolve(key: string, status: RecordStatus, report: Report, reason: string, s: nat -> Surroundings, k: nat)
      returns (outcome: Outcome)
      requires Fits(Now(), Mark(key, status, Some(report), reason, FromRecord)) && key in store.records
      modifies store
      ensures RunTo(cfg, Mark(key, status, Some(report), reason, FromRecord), old(Now()), s, k, k + 1)
              == (Finished(outcome), Now())
      ensures key in store.records && store.records[key].status == status && store.records[key].report == Some(report)
      ensures store.records[key].reason == reason && store.records[key].request == old(store.records[key].request)
    {
      hide RunTo, StatusOf, IsUnresolved;
      ghost var pc := Mark(key, status, Some(report), reason, FromRecord);
      RunNone(cfg, pc, Now(), s, k);
      RunOn(cfg, pc, Now(), s, k, k);
      var updated := store.Update(key, status, s(k).clock, Some(report), reason);
      assert updated.Ok?;
      outcome := Replay(updated.value, None);
    }

    // -------------------------------------------------------------------------
    // After the claim
    // -------------------------------------------------------------------------

    method RejectCheck(job: Job, reasons: seq<string>, machine: TradeStateMachine, s: nat -> Surroundings, k: nat)
      returns (outcome: Outcome)
      requires Fits(Now(), MarkCheckRejected(job, reasons)) && machine.state == Last(job.transitions)
      modifies store, machine
      ensures RunTo(cfg, MarkCheckRejected(job, reasons), old(Now()), s, k, k + 1) == (Finished(outcome), Now())
      ensures outcome.status == CheckRejected
    {
      hide RunTo, Last, Blank, Joined;
      RunNone(cfg, MarkCheckRejected(job, reasons), Now(), s, k);
      RunOn(cfg, MarkCheckRejected(job, reasons), Now(), s, k, k);
      NotBlank(CHECK_FAILED);
      var updated := store.Update(job.request.key, RecordStatus.Rejected, job.now, None, Joined(reasons));
      assert updated.Ok?;
      var moved := machine.Transition(TradeState.Error, CHECK_FAILED);
      assert moved.Ok?;
      outcome := Outcome(CheckRejected, reasons, Some(job.request), None, Some(job.risk),
                         job.transitions + [moved.value], false);
    }

    /** Marks the order submitted and then sends it, once. */
    method MarkAndSend(job: Job, s: nat -> Surroundings, k: nat) returns (reply: Reply)
      requires Wired() && Fits(Now(), MarkSubmitted(job))
      modifies store, broker, this`sends
      ensures RunTo(cfg, MarkSubmitted(job), old(Now()), s, k, k + 2) == (AfterReply(job, reply), Now())
      ensures Fits(Now(), AfterReply(job, reply))
      ensures broker.sendCalls == old(broker.sendCalls) + 1
    {
      hide RunTo, AfterReply, Last;
      ghost var before := Now();
      RunNone(cfg, MarkSubmitted(job), before, s, k);
      RunOn(cfg, MarkSubmitted(job), before, s, k, k);
      RunOn(cfg, MarkSubmitted(job), before, s, k, k + 1);
      var updated := store.Update(job.request.key, Submitted, job.now, None, "order_send started");
      assert updated.Ok?;
      assert Fits(Now(), Send(job));
      SendFits(cfg, job, Now(), s(k + 1));
      SendCounts(cfg.symbols, s(k + 1).calls(0), Now().book, job.request, job.request.orderType != Market);
      hide Placed, Fits;
      reply := broker.Place(s(k + 1).calls(0), job.request, job.request.orderType != Market);
      sends := sends + [job.request.key];
    }

    /** The broker's own check, then the submission; a check that fails or raises ends the call. */
    method Submit(job: Job, machine: TradeStateMachine, s: nat -> Surroundings, k: nat) returns (r: Submission, n: nat)
      requires Wired() && Fits(Now(), CheckOrder(job)) && machine.state == Last(job.transitions)
      modifies store, broker, machine, this`sends
      ensures k < n <= k + 3
      ensures RunTo(cfg, CheckOrder(job), old(Now()), s, k, n)
           == (match r case Done(outcome) => Finished(outcome) case Sent(sent, reply) => AfterReply(sent, reply), Now())
      ensures r.Done? ==> r.outcome.status == CheckRejected
      ensures r.Sent? ==>
                Fits(Now(), AfterReply(r.job, r.reply)) && machine.state == Last(r.job.transitions) == OrderPending
    {
      hide Step, RunTo, AfterReply, Validated, Blank;
      ghost var before, start := Now(), CheckOrder(job);
      CheckOn(cfg, job, before, s, k);
      CheckFits(cfg, job, before, s(k));
      NotBlank(SUBMISSION_STARTED);
      var check := broker.ValidateOrder(s(k).calls(0), job.request);
      if check.Err? || !check.value.accepted {
        var reasons := if check.Err? then ["BROKER_ORDER_CHECK_ERROR:BrokerError"] else check.value.reasons;
        assert RunTo(cfg, start, before, s, k, k + 1) == (MarkCheckRejected(job, reasons), Now());
        hide Fits, Last;
        var outcome := RejectCheck(job, reasons, machine, s, k + 1);
        RunsCompose(cfg, start, before, s, k, k + 1, k + 2);
        return Done(outcome), k + 2;
      }
      var moved := machine.Transition(OrderPending, SUBMISSION_STARTED);
      assert moved.Ok?;
      var pending := job.(transitions := job.transitions + [moved.value]);
      assert RunTo(cfg, start, before, s, k, k + 1) == (MarkSubmitted(pending), Now());
      assert machine.state == Last(pending.transitions) == OrderPending;
      hide Fits, Last;
      var reply := MarkAndSend(pending, s, k + 1);
      RunsCompose(cfg, start, before, s, k, k + 1, k + 3);
      return Sent(pending, reply), k + 3;
    }

    // -------------------------------------------------------------------------
    // After the send
    // -------------------------------------------------------------------------

    /** Settles the protection of a confirmed fill and files the result. */
    method FinishFill(w: Watch, machine: TradeStateMachine, s: nat -> Surroundings, k: nat)
      returns (outcome: Outcome, n: nat)
      requires Wired() && w.origin.Executing? && WatchFits(Now(), w) && machine.state == Last(w.origin.job.transitions)
      requires UniqueTickets(broker.positions)
      modifies store, broker, machine
      ensures k < n && RunTo(cfg, Look(w, 1), old(Now()), s, k, n) == (Finished(outcome), Now())
      ensures AnswerTrue(cfg, outcome, old(broker.positions), broker.positions)
    {
      hide RunTo, Last, Step, Blank, GuardedFill, HeldFill, Tied, UniqueTickets, HasTicket, GuardsFill, FillGone;
      ghost var before := Now();
      var job, reasons := w.origin.job, w.origin.reasons;
      var protected, reason, ticket, mid := VerifyOrRepairProtection(w, s, k);
      WatchKept(before, Now(), w);
      FindingsGiven();
      SettledFits(w, protected, reason, Now());
      assert job.request == w.request;
      if protected {
        GuardsFrom(cfg, w, broker.positions, ticket.value);
      } else if reason == SAFELY_CLOSED {
        GoneFrom(cfg, w, before.book.positions, broker.positions, ticket.value);
      }
      SameWatch(cfg, w, before.book.positions, broker.positions);
      hide Fits, WatchFits;
      n := mid + 1;
      RunsCompose(cfg, Look(w, 1), before, s, k, mid, n);
      if !protected {
        outcome := Conclude(w.request.key, ProtectionFailed, Some(w.report), reason, TradeState.Error, UNVERIFIED,
                            Outcome(Unprotected, [reason], Some(job.request), Some(w.report), Some(job.risk),
                                    job.transitions, true),
                            machine, s, mid);
      } else {
        outcome := Conclude(w.request.key, Succeeded, Some(w.report), reason, PositionOpen, reason,
                            Outcome(FilledOrder, reasons, Some(job.request), Some(w.report), Some(job.risk),
                                    job.transitions, false),
                            machine, s, mid);
      }
    }

    /** A lost reply or an error leaves the result unknown; only a definite answer settles it. */
    method FinishUnknown(job: Job, reply: Reply, machine: TradeStateMachine, s: nat -> Surroundings, k: nat)
      returns (outcome: Outcome)
      requires !reply.Replied? && Fits(Now(), AfterReply(job, reply)) && machine.state == Last(job.transitions)
      modifies store, machine
      ensures RunTo(cfg, AfterReply(job, reply), old(Now()), s, k, k + 1) == (Finished(outcome), Now())
      ensures outcome.status == UnknownResult
    {
      hide RunTo, Last, Fits;
      var reason := if reply.Indeterminate? then "ORDER_RESULT_UNKNOWN_RECONCILIATION_REQUIRED"
                    else "BROKER_MUTATION_ERROR_RECONCILIATION_REQUIRED";
      var note := if reply.Indeterminate? then RESULT_UNKNOWN else MUTATION_FAILED;
      outcome := Conclude(job.request.key, Unknown, None, reply.reason, TradeState.Error, note,
                          Outcome(UnknownResult, [reason], Some(job.request), None, Some(job.risk), job.transitions,
                                  true),
                          machine, s, k);
    }

    /** Files the result of a send that was answered. */
    method FinishReplied(job: Job, report: Report, machine: TradeStateMachine, s: nat -> Surroundings, k: nat)
      returns (outcome: Outcome, n: nat)
      requires Wired() && Fits(Now(), AfterReply(job, Replied(report))) && machine.state == Last(job.transitions)
      requires Last(job.transitions) == OrderPending && UniqueTickets(broker.positions)
      modifies store, broker, machine
      ensures k < n && RunTo(cfg, AfterReply(job, Replied(report)), old(Now()), s, k, n) == (Finished(outcome), Now())
      ensures AnswerTrue(cfg, outcome, old(broker.positions), broker.positions)
    {
      hide RunTo, Blank, UniqueTickets, GuardsFill, FillGone;
      if !report.success {
        hide Last, Fits;
        var message := if report.message == "" then "ORDER_REJECTED" else report.message;
        outcome := Conclude(job.request.key, RecordStatus.Rejected, Some(report), report.message, TradeState.Error,
                            SEND_REFUSED,
                            Outcome(RejectedOrder, [message], Some(job.request), Some(report), Some(job.risk),
                                    job.transitions, false),
                            machine, s, k);
        return outcome, k + 1;
      }
      var reasons: seq<string> := [];
      if report.Slippage().Some? && report.Slippage().value > job.request.maximumSlippage {
        reasons := reasons + ["EXECUTED_SLIPPAGE_EXCEEDED_TOLERANCE"];
      }
      if job.request.orderType == Market {
        NotBlank(FILL_CONFIRMED);
        var moved := machine.Transition(OrderFilled, FILL_CONFIRMED);
        assert moved.Ok?;
        var filled := job.(transitions := job.transitions + [moved.value]);
        var w := Watch(job.request, report, Executing(filled, reasons));
        assert AfterReply(job, Replied(report)) == Look(w, 1);
        hide AfterReply;
        outcome, n := FinishFill(w, machine, s, k);
      } else {
        outcome := FinishPending(job, report, reasons, s, k);
        n := k + 1;
      }
    }

    method FinishPending(job: Job, report: Report, reasons: seq<string>, s: nat -> Surroundings, k: nat)
      returns (outcome: Outcome)
      requires var base :=
               Outcome(PendingEntry, reasons, Some(job.request), Some(report), Some(job.risk), job.transitions, false);
               Fits(Now(), Mark(job.request.key, Succeeded, Some(report), "broker confirmed pending order",
                                Return(base)))
      modifies store
      ensures outcome == Outcome(PendingEntry, reasons, Some(job.request), Some(report), Some(job.risk),
                                 job.transitions, false)
      ensures RunTo(cfg, Mark(job.request.key, Succeeded, Some(report), "broker confirmed pending order",
                              Return(outcome)),
                    old(Now()), s, k, k + 1) == (Finished(outcome), Now())
    {
      hide RunTo, StatusOf, IsUnresolved;
      outcome := Outcome(PendingEntry, reasons, Some(job.request), Some(report), Some(job.risk), job.transitions,
                         false);
      ghost var pc := Mark(job.request.key, Succeeded, Some(report), "broker confirmed pending order", Return(outcome));
      RunNone(cfg, pc, Now(), s, k);
      RunOn(cfg, pc, Now(), s, k, k);
      var updated := store.Update(job.request.key, Succeeded, s(k).clock, Some(report),
                                  "broker confirmed pending order");
      assert updated.Ok?;
    }

    // -------------------------------------------------------------------------
    // Before the claim
    // -------------------------------------------------------------------------

    /** The lookup, the reads and the gates; nothing is written. */
    method Admit(p: Prepared, s: nat -> Surroundings, k: nat) returns (r: Admission, n: nat)
      requires Wired()
      ensures k < n <= k + 3
      ensures RunTo(cfg, Lookup(p), Now(), s, k, n)
           == (match r case Answered(outcome) => Finished(outcome) case Admitted(risk) => Claim(p, risk), Now())
      ensures r.Answered? ==> r.outcome.transitions == []
    {
      hide RunTo, Decide;
      ghost var start := Lookup(p);
      RunNone(cfg, start, Now(), s, k);
      RunOn(cfg, start, Now(), s, k, k);
      var existing := store.Get(p.request.key);
      if existing.Some? {
        return Answered(Replay(existing.value, None)), k + 1;
      }
      RunOn(cfg, start, Now(), s, k, k + 1);
      var positions := broker.GetPositions(s(k + 1).calls(0));
      if positions.Err? {
        return Answered(Block(["BrokerUnavailableError"], Some(p.request), None)), k + 2;
      }
      RunOn(cfg, start, Now(), s, k, k + 2);
      var decided := DecideRisk(p, positions.value, s, k + 2);
      if decided.Err? {
        return Answered(Block([decided.error], Some(p.request), None)), k + 3;
      }
      if !decided.value.accepted {
        return Answered(Block(decided.value.reasons, Some(p.request), Some(decided.value))), k + 3;
      }
      return Admitted(decided.value), k + 3;
    }

    /** The remaining reads, the circuit breaker and the gates. */
    method DecideRisk(p: Prepared, positions: seq<Position>, s: nat -> Surroundings, k: nat)
      returns (r: Result<Decision>)
      requires Wired()
      ensures r == Decide(cfg, p, positions, broker.orders, s(k))
    {
      hide Decided, Margin, Passes, Upper, Equivalents;
      var env := s(k);
      var orders := broker.GetOrders(env.calls(0));
      if orders.Err? || !env.calls(1).Up() || !env.calls(2).Up() || !env.calls(3).Up() {
        return Err("BrokerUnavailableError");
      }
      if p.request.symbol !in cfg.symbols || env.calls(3).account.leverage == 0 {
        return Err("BrokerError");
      }
      var margin := Margin(cfg.symbols[p.request.symbol], p.request, p.price, env.calls(3).account.leverage);
      if env.circuit.Err? {
        return Err("CIRCUIT_STATE_UNAVAILABLE");
      }
      var equivalents := Equivalents(cfg.symbols, Upper(p.command.signal.canonicalSymbol));
      var snapshot := Snapshot(p.now, p.account, p.spec, p.tick, p.health, env.calls(2).marketOpen
                               && p.spec.name in cfg.symbols,
                               p.command.sessionAllowed, equivalents, positions, orders.value, p.command.usage, margin,
                               env.circuit.value.kill, env.circuit.value.locked);
      var decision := Validate(cfg.limits, p.request, p.sized, snapshot);
      return Ok(decision);
    }

    // -------------------------------------------------------------------------
    // The calls
    // -------------------------------------------------------------------------

    /**
     * From the claim on: the first claimer of a key goes through to a filed result, every other gets the record's
     * answer.
     */
    method ClaimAndSubmit(p: Prepared, risk: Decision, s: nat -> Surroundings, k: nat)
      returns (outcome: Outcome, n: nat)
      requires Wired() && UniqueTickets(broker.positions)
      modifies store, broker, this`sends
      ensures k < n && RunTo(cfg, Claim(p, risk), old(Now()), s, k, n) == (Finished(outcome), Now())
      ensures TrueAfter(cfg, outcome, Claim(p, risk), old(Now()), s, k, n, broker.positions)
    {
      hide Step, RunTo, NewRecord, Replay, Blank, AnswerTrue, UniqueTickets, TrueAfter;
      ghost var before, start := Now(), Claim(p, risk);
      ClaimOn(cfg, p, risk, before, s, k);
      ClaimFits(p, risk, before);
      NotBlank(GATES_ACCEPTED);
      var record, claimed := store.Claim(p.request, p.now);
      if !claimed {
        outcome, n := Replay(record, Some(risk)), k + 1;
        ReplayTrue(cfg, record, Some(risk), start, before, s, k, n, broker.positions);
        return;
      }
      var machine := new TradeStateMachine(SignalFound);
      var moved := machine.Transition(EntryReady, GATES_ACCEPTED);
      assert moved.Ok?;
      var transitions: seq<StateTransition> := [];
      var job := Job(p.request, risk, p.now, transitions + [moved.value]);
      assert RunTo(cfg, start, before, s, k, k + 1) == (CheckOrder(job), Now());
      assert machine.state == Last(job.transitions);
      hide Fits, Last;
      ghost var reached := Now();
      outcome, n := Proceed(job, machine, s, k + 1);
      RunsCompose(cfg, start, before, s, k, k + 1, n);
      TrueEarlier(cfg, outcome, start, before, CheckOrder(job), reached, s, k, k + 1, n, broker.positions);
    }

    method Proceed(job: Job, machine: TradeStateMachine, s: nat -> Surroundings, k: nat)
      returns (outcome: Outcome, n: nat)
      requires Wired() && Fits(Now(), CheckOrder(job)) && machine.state == Last(job.transitions)
      requires UniqueTickets(broker.positions)
      modifies store, broker, machine, this`sends
      ensures k < n && RunTo(cfg, CheckOrder(job), old(Now()), s, k, n) == (Finished(outcome), Now())
      ensures TrueAfter(cfg, outcome, CheckOrder(job), old(Now()), s, k, n, broker.positions)
    {
      hide RunTo, Step, Fits, Last, AfterReply, AnswerTrue, UniqueTickets;
      ghost var before := Now();
      var submitted, mid := Submit(job, machine, s, k);
      RunKeepsTickets(cfg, CheckOrder(job), before, s, k, mid);
      ghost var held := broker.positions;
      match submitted
      case Done(done) =>
        outcome, n := done, mid;
        OtherAnswerTrue(cfg, outcome, held, broker.positions);
      case Sent(sent, reply) =>
        if reply.Replied? {
          outcome, n := FinishReplied(sent, reply.report, machine, s, mid);
        } else {
          outcome := FinishUnknown(sent, reply, machine, s, mid);
          OtherAnswerTrue(cfg, outcome, held, broker.positions);
          n := mid + 1;
        }
        RunsCompose(cfg, CheckOrder(job), before, s, k, mid, n);
    }

    /** The steps of an execution, from its reads to its answer. */
    method Perform(command: Command, s: nat -> Surroundings) returns (r: Result<Outcome>, n: nat)
      requires Wired() && UniqueTickets(broker.positions)
      modifies store, broker, this`sends
      ensures RunTo(cfg, Start(command), old(Now()), s, 0, n) == (if r.Ok? then Finished(r.value) else Invalid, Now())
      ensures r.Ok? ==> TrueAfter(cfg, r.value, Start(command), old(Now()), s, 0, n, broker.positions)
    {
      hide RunTo, Prepare, AnswerTrue, UniqueTickets, TrueAfter;
      ghost var before, start := Now(), Start(command);
      RunNone(cfg, start, before, s, 0);
      RunOn(cfg, start, before, s, 0, 0);
      match Prepare(cfg, command, s(0))
      case Stopped(outcome) =>
        PreparedKey(cfg, command, s(0));
        StoppedTrue(cfg, outcome, start, before, s, 0, 1, broker.positions);
        return Ok(outcome), 1;
      case Malformed =>
        return Err("at least one positive take profit is required"), 1;
      case Ready(p) =>
        assert RunTo(cfg, start, before, s, 0, 1) == (Lookup(p), before);
        hide Step;
        var admission, mid := Admit(p, s, 1);
        RunsCompose(cfg, start, before, s, 0, 1, mid);
        match admission
        case Answered(outcome) =>
          StoppedTrue(cfg, outcome, start, before, s, 0, mid, broker.positions);
          return Ok(outcome), mid;
        case Admitted(risk) =>
          var outcome, last := ClaimAndSubmit(p, risk, s, mid);
          RunsCompose(cfg, start, before, s, 0, mid, last);
          TrueEarlier(cfg, outcome, start, before, Claim(p, risk), before, s, 0, mid, last, broker.positions);
          return Ok(outcome), last;
    }

    /**
     * Executes a signal. Its steps are exactly those of the protocol, no update or transition is refused on the way,
     * and the only error is an order that could not even be built. A first answer of filled means that the order's own
     * position is guarded, and one of safely closed that it was held during the call and is gone.
     */
    method Execute(command: Command, s: nat -> Surroundings) returns (r: Result<Outcome>, n: nat)
      requires Valid()
      modifies store, broker, this`sends, this`journal
      ensures Valid() && journal == CallEvents(cfg, origin, old(journal), Event.Execute(command), s, n)
      ensures RunTo(cfg, Start(command), old(Now()), s, 0, n) == (if r.Ok? then Finished(r.value) else Invalid, Now())
      ensures r.Ok? ==> TrueAfter(cfg, r.value, Start(command), old(Now()), s, 0, n, broker.positions)
    {
      hide RunTo, Step, Ran, Serial, CallEvents, Idle, TrueAfter, UniqueTickets;
      ghost var before, past := Now(), journal;
      r, n := Perform(command, s);
      RunKeepsTickets(cfg, Start(command), before, s, 0, n);
      CallIsARun(cfg, origin, past, Event.Execute(command), s, n);
      journal := CallEvents(cfg, origin, past, Event.Execute(command), s, n);
      IdleAgain(Ran(cfg, origin, past), Ran(cfg, origin, journal), RunTo(cfg, Start(command), before, s, 0, n).0);
    }

    /** Looks for the broker's position or order of an unresolved record, and files it as found or unprotected. */
    method MatchRecord(record: Record, s: nat -> Surroundings, k: nat) returns (outcome: Outcome, n: nat)
      requires Wired() && Fits(Now(), MatchPositions(record)) && UniqueTickets(broker.positions)
      modifies store, broker
      ensures k < n && RunTo(cfg, MatchPositions(record), old(Now()), s, k, n) == (Finished(outcome), Now())
      ensures record.key in store.records
      ensures SettledTrue(cfg, store.records[record.key], old(broker.positions), broker.positions, broker.orders)
    {
      hide Step, RunTo, FirstPosition, FirstOrder, OnSymbol, OrdersOnSymbol, UniqueTickets, GuardsFill, FillGone,
           HoldsOrder;
      ghost var before, start := Now(), MatchPositions(record);
      MatchOn(cfg, record, before, s, k);
      var positions := broker.GetPositions(s(k).calls(0));
      if positions.Err? {
        return Deferred("BROKER_UNAVAILABLE_RECONCILIATION_DEFERRED", record), k + 1;
      }
      var visible := OnSymbol(positions.value, record.request.symbol);
      MatchOrdersOn(cfg, record, visible, before, s, k);
      MatchFits(cfg, record, visible, before, s(k + 1));
      var orders := broker.GetOrders(s(k + 1).calls(0));
      if orders.Err? {
        return Deferred("BROKER_UNAVAILABLE_RECONCILIATION_DEFERRED", record), k + 2;
      }
      var position := FirstPosition(cfg, record, record.key, visible);
      var order := FirstOrder(cfg, record.key, OrdersOnSymbol(orders.value, record.request.symbol));
      if position.None? && order.None? {
        return Deferred("NO_BROKER_MATCH_YET_RECONCILIATION_REQUIRED", record), k + 2;
      }
      var ticket := if position.Some? then position.value.ticket else order.value.ticket;
      var report := Report(true, record.key, Some(ticket), record.request.requestedPrice,
                           if position.Some? then Some(position.value.openPrice)
                           else None, record.request.volume, "RECONCILED",
                           if position.Some? then "matched broker position"
                           else "matched broker order", s(k + 1).clock);
      hide StatusOf, IsUnresolved;
      if position.Some? {
        assert RunTo(cfg, start, before, s, k, k + 2) == (Look(Watch(record.request, report, Reconciling), 1), before);
        outcome, n := FinishMatch(Watch(record.request, report, Reconciling), s, k + 2);
      } else {
        ghost var mark := Mark(record.key, Succeeded, Some(report), "reconciled with broker state", FromRecord);
        assert RunTo(cfg, start, before, s, k, k + 2) == (mark, before);
        OrderIsHeld(cfg, record, orders.value);
        SameHolding(cfg, record, store.records[record.key], orders.value);
        outcome := Resolve(record.key, Succeeded, report, "reconciled with broker state", s, k + 2);
        SameHolding(cfg, record, store.records[record.key], orders.value);
        n := k + 3;
      }
      RunsCompose(cfg, start, before, s, k, k + 2, n);
    }

    /** Settles the protection of a position found by reconciliation. */
    method FinishMatch(w: Watch, s: nat -> Surroundings, k: nat) returns (outcome: Outcome, n: nat)
      requires Wired() && w.origin.Reconciling? && WatchFits(Now(), w) && UniqueTickets(broker.positions)
      modifies store, broker
      ensures k < n && RunTo(cfg, Look(w, 1), old(Now()), s, k, n) == (Finished(outcome), Now())
      ensures w.request.key in store.records
      ensures SettledTrue(cfg, store.records[w.request.key], old(broker.positions), broker.positions, broker.orders)
    {
      hide RunTo, Step, Blank, GuardedFill, HeldFill, Tied, UniqueTickets, HasTicket, GuardsFill, FillGone, HoldsOrder;
      ghost var before := Now();
      var protected, reason, ticket, mid := VerifyOrRepairProtection(w, s, k);
      WatchKept(before, Now(), w);
      FindingsGiven();
      SettledFits(w, protected, reason, Now());
      assert w.request.key in store.records && store.records[w.request.key].request == w.request;
      if protected {
        GuardsFrom(cfg, w, broker.positions, ticket.value);
      } else if reason == SAFELY_CLOSED {
        GoneFrom(cfg, w, before.book.positions, broker.positions, ticket.value);
      }
      SameWatch(cfg, w, before.book.positions, broker.positions);
      hide Fits, WatchFits;
      n := mid + 1;
      RunsCompose(cfg, Look(w, 1), before, s, k, mid, n);
      if !protected {
        outcome := Resolve(w.request.key, ProtectionFailed, w.report, reason, s, mid);
      } else {
        outcome := Resolve(w.request.key, Succeeded, w.report, "reconciled with broker state", s, mid);
      }
    }

    /** The steps of a reconciliation, from its lookup to its answer. */
    method LookAndMatch(key: string, s: nat -> Surroundings) returns (outcome: Outcome, n: nat)
      requires Wired() && UniqueTickets(broker.positions) && RecordsOk(store.records)
      modifies store, broker
      ensures RunTo(cfg, FindRecord(key), old(Now()), s, 0, n) == (Finished(outcome), Now())
      ensures key in old(store.records) && old(store.records[key].status) in {Submitted, Unknown} ==>
                && key in store.records
                && SettledTrue(cfg, store.records[key], old(broker.positions), broker.positions, broker.orders)
    {
      hide RunTo, Block, Replay, RecordsOk, UniqueTickets, SettledTrue;
      ghost var before := Now();
      FirstStep(cfg, FindRecord(key), before, s, 0);
      FindFits(key, before);
      var record := store.Get(key);
      if record.Some? {
        KeyIsFiled(store.records, key);
      }
      if record.None? {
        return Block(["EXECUTION_RECORD_NOT_FOUND"], None, None), 1;
      }
      if record.value.status !in {Submitted, Unknown} {
        return Replay(record.value, None), 1;
      }
      assert RunTo(cfg, FindRecord(key), before, s, 0, 1) == (MatchPositions(record.value), before);
      hide Step, Fits;
      outcome, n := MatchRecord(record.value, s, 1);
      RunsCompose(cfg, FindRecord(key), before, s, 0, 1, n);
    }

    /**
     * Resolves an unknown result from the broker's state, never sending anything. A record it settles as a success has
     * its own position guarded or its own order pending; one it settles as safely closed had its own position, which is
     * gone.
     */
    method ReconcileUnknown(key: string, s: nat -> Surroundings) returns (outcome: Outcome, n: nat)
      requires Valid()
      modifies store, broker, this`journal
      ensures Valid() && journal == CallEvents(cfg, origin, old(journal), Reconcile(key), s, n) && sends == old(sends)
      ensures RunTo(cfg, FindRecord(key), old(Now()), s, 0, n) == (Finished(outcome), Now())
      ensures key in old(store.records) && old(store.records[key].status) in {Submitted, Unknown} ==>
                && key in store.records
                && SettledTrue(cfg, store.records[key], old(broker.positions), broker.positions, broker.orders)
    {
      hide RunTo, Step, Ran, Serial, CallEvents, Idle, SettledTrue, UniqueTickets, RecordsOk, SerialOk;
      ghost var before, past := Now(), journal;
      SerialRunOk(cfg, origin, past);
      outcome, n := LookAndMatch(key, s);
      RunKeepsTickets(cfg, FindRecord(key), before, s, 0, n);
      CallIsARun(cfg, origin, past, Reconcile(key), s, n);
      journal := CallEvents(cfg, origin, past, Reconcile(key), s, n);
      IdleAgain(Ran(cfg, origin, past), Ran(cfg, origin, journal), RunTo(cfg, FindRecord(key), before, s, 0, n).0);
    }

    /** Cancels every pending entry in turn, never touching positions; if the broker fails part-way the rest stay. */
    method CancelPendingEntries(s: nat -> Surroundings) returns (r: Result<seq<string>>)
      requires Valid()
      modifies broker, this`journal
      ensures Valid() && journal == old(journal) + [Outside(broker.positions, broker.orders, broker.behaviors)]
      ensures broker.positions == old(broker.positions) && broker.reports == old(broker.reports)
      ensures r.Ok? ==> broker.orders == [] && r.value == Tickets(old(broker.orders))
      ensures r.Err? ==> exists i :: 0 <= i <= |old(broker.orders)| && broker.orders == old(broker.orders)[i..]
    {
      hide Ran, Serial, Idle, UniqueTickets, Fresh;
      ghost var before := broker.Contents();
      r := CancelInTurn(s);
      ghost var event := Outside(broker.positions, broker.orders, broker.behaviors);
      RanSnoc(cfg, origin, journal, event);
      OutsideStaysIdle(cfg, Ran(cfg, origin, journal), event);
      journal := journal + [event];
    }

    /** Whatever the market does between calls: fills, closes, new prices and scripted failures. */
    method MarketMoves(positions: seq<Position>, orders: seq<Order>, behaviors: seq<SendBehavior>)
      requires Valid() && UniqueTickets(positions)
      modifies broker, this`journal
      ensures Valid() && journal == old(journal) + [Outside(positions, orders, behaviors)]
      ensures broker.Contents()
              == old(broker.Contents()).(positions := positions, orders := orders, behaviors := behaviors)
    {
      hide Ran, Serial, Idle, UniqueTickets, Fresh;
      ghost var event := Outside(positions, orders, behaviors);
      RanSnoc(cfg, origin, journal, event);
      OutsideStaysIdle(cfg, Ran(cfg, origin, journal), event);
      broker.positions, broker.orders, broker.behaviors := positions, orders, behaviors;
      journal := journal + [event];
    }

    method CancelInTurn(s: nat -> Surroundings) returns (r: Result<seq<string>>)
      modifies broker
      ensures broker.Contents() == old(broker.Contents()).(orders := broker.orders)
      ensures r.Ok? ==> broker.orders == [] && r.value == Tickets(old(broker.orders))
      ensures r.Err? ==> exists i :: 0 <= i <= |old(broker.orders)| && broker.orders == old(broker.orders)[i..]
    {
      var read := broker.GetOrders(s(0).calls(0));
      if read.Err? {
        assert broker.orders == old(broker.orders)[0..];
        return Err(read.error);
      }
      var orders := read.value;
      var cancelled: seq<string> := [];
      for i := 0 to |orders|
        invariant broker.orders == orders[i..] && cancelled == Tickets(orders[..i])
        invariant broker.Contents() == old(broker.Contents()).(orders := broker.orders)
      {
        assert orders[i..][0] == orders[i] && orders[i..][1..] == orders[i + 1..];
        assert orders[..i + 1][..i] == orders[..i];
        var done := broker.CancelOrder(s(i + 1).calls(0), orders[i].ticket);
        if done.Err? {
          return Err(done.error);
        }
        if done.value {
          cancelled := cancelled + [orders[i].ticket];
        }
      }
      assert orders[..|orders|] == orders;
      return Ok(cancelled);
    }
  }

  datatype Call =
    | Executes(command: Command, s: nat -> Surroundings)
    | Reconciles(key: string, s: nat -> Surroundings)
    | Cancels(s: nat -> Surroundings)
    | Moves(positions: seq<Position>, orders: seq<Order>, behaviors: seq<SendBehavior>)

  /**
   * Serves any list of calls, with the market moving between them. Together they are one serialized run, so what is
   * proved of those runs holds here: no key was sent twice, every order the broker accepted has a record that is not
   * rejected, and open positions stay within the limit but for what the market opened.
   */
  method Serve(executor: TradeExecutor, calls: seq<Call>)
    requires executor.Valid()
    requires forall i :: 0 <= i < |calls| && calls[i].Moves? ==> UniqueTickets(calls[i].positions)
    modifies executor, executor.store, executor.broker
    ensures executor.Valid() && NoRepeats(executor.sends) && executor.broker.sendCalls == |executor.sends|
    ensures forall key :: key in executor.broker.reports ==>
              && key in executor.store.records
              && executor.store.records[key].status !in {Claimed, RecordStatus.Rejected}
    ensures var limit, initial := executor.cfg.limits.maximumOpenPositions, |executor.origin.positions|;
            |executor.broker.positions|
            <= (if initial > limit then initial else limit) + Opened(executor.cfg, executor.origin, executor.journal)
  {
    hide TradeExecutor.Valid, CallEvents, RunTo, TrueAfter, SettledTrue, UniqueTickets, Opened;
    for i := 0 to |calls|
      invariant executor.Valid()
    {
      match calls[i]
      case Executes(command, s) =>
        var r, n := executor.Execute(command, s);
      case Reconciles(key, s) =>
        var outcome, n := executor.ReconcileUnknown(key, s);
      case Cancels(s) =>
        var r := executor.CancelPendingEntries(s);
      case Moves(positions, orders, behaviors) =>
        executor.MarketMoves(positions, orders, behaviors);
    }
    RunFacts(executor);
  }

  lemma RunFacts(executor: TradeExecutor)
    requires executor.Valid()
    ensures NoRepeats(executor.sends) && executor.broker.sendCalls == |executor.sends|
    ensures forall key :: key in executor.broker.reports ==>
              && key in executor.store.records
              && executor.store.records[key].status !in {Claimed, RecordStatus.Rejected}
    ensures var limit, initial := executor.cfg.limits.maximumOpenPositions, |executor.origin.positions|;
            |executor.broker.positions|
            <= (if initial > limit then initial else limit) + Opened(executor.cfg, executor.origin, executor.journal)
  {
    hide Ran, Serial, Idle, UniqueTickets, NoRepeats, Opened;
    AtMostOneSend(executor.cfg, executor.origin, executor.journal);
    PositionsBounded(executor.cfg, executor.origin, executor.journal);
    forall key | key in executor.broker.reports
      ensures key in executor.store.records && executor.store.records[key].status !in {Claimed, RecordStatus.Rejected}
    {
      AcceptedNeverRejected(executor.cfg, executor.origin, executor.journal, key);
    }
  }
}
