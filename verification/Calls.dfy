/** One call as a run of steps, and as a stretch of a system's run. */
module Calls {
  import opened Domain
  import opened Trading
  import opened MockBroker
  import opened Gates
  import opened Idempotency
  import opened Execution
  import opened Interleaving
  import opened Serialized
  import Text

  /** The process and world after the steps numbered `from` up to `upto`, each in its own surroundings. */
  function RunTo(cfg: Config, pc: Pc, world: World, s: nat -> Surroundings, from: nat, upto: nat): (Pc, World)
    requires from <= upto
  {
    if from == upto then (pc, world)
    else
      var (last, reached) := RunTo(cfg, pc, world, s, from, upto - 1);
      Step(cfg, last, reached, s(upto - 1))
  }

  lemma {:induction false} RunsCompose(cfg: Config, pc: Pc, world: World, s: nat -> Surroundings, from: nat, mid: nat,
                                       upto: nat)
    requires from <= mid <= upto
    ensures var (last, reached) := RunTo(cfg, pc, world, s, from, mid);
            RunTo(cfg, pc, world, s, from, upto) == RunTo(cfg, last, reached, s, mid, upto)
    decreases upto
  {
    hide Step;
    if mid < upto {
      RunsCompose(cfg, pc, world, s, from, mid, upto - 1);
    }
  }

  lemma RunNone(cfg: Config, pc: Pc, world: World, s: nat -> Surroundings, k: nat)
    ensures RunTo(cfg, pc, world, s, k, k) == (pc, world)
  {
  }

  /** A run that has reached some process and world goes on with that process's next step. */
  lemma RunOn(cfg: Config, pc: Pc, world: World, s: nat -> Surroundings, from: nat, upto: nat)
    requires from <= upto
    ensures var (last, reached) := RunTo(cfg, pc, world, s, from, upto);
            RunTo(cfg, pc, world, s, from, upto + 1) == Step(cfg, last, reached, s(upto))
  {
    hide Step;
  }

  /** A call's first step, whatever it is. */
  lemma FirstStep(cfg: Config, pc: Pc, world: World, s: nat -> Surroundings, k: nat)
    ensures RunTo(cfg, pc, world, s, k, k + 1) == Step(cfg, pc, world, s(k))
  {
    hide Step;
    RunNone(cfg, pc, world, s, k);
    RunOn(cfg, pc, world, s, k, k);
  }

  lemma ClaimOn(cfg: Config, p: Prepared, risk: Decision, world: World, s: nat -> Surroundings, k: nat)
    ensures RunTo(cfg, Claim(p, risk), world, s, k, k + 1) == StepClaim(p, risk, world)
  {
    hide StepClaim, RunTo;
    FirstStep(cfg, Claim(p, risk), world, s, k);
  }

  lemma CheckOn(cfg: Config, job: Job, world: World, s: nat -> Surroundings, k: nat)
    ensures RunTo(cfg, CheckOrder(job), world, s, k, k + 1) == StepCheck(cfg, job, world, s(k))
  {
    hide StepCheck, RunTo;
    FirstStep(cfg, CheckOrder(job), world, s, k);
  }

  lemma MatchOn(cfg: Config, record: Record, world: World, s: nat -> Surroundings, k: nat)
    ensures RunTo(cfg, MatchPositions(record), world, s, k, k + 1) == StepMatchPositions(record, world, s(k))
  {
    hide StepMatchPositions, RunTo;
    FirstStep(cfg, MatchPositions(record), world, s, k);
  }

  lemma MatchOrdersOn(cfg: Config, record: Record, positions: seq<Position>, world: World, s: nat -> Surroundings,
                      k: nat)
    requires RunTo(cfg, MatchPositions(record), world, s, k, k + 1) == (MatchOrders(record, positions), world)
    ensures RunTo(cfg, MatchPositions(record), world, s, k, k + 2)
            == StepMatchOrders(cfg, record, positions, world, s(k + 1))
  {
    hide StepMatchOrders, RunTo;
    RunOn(cfg, MatchPositions(record), world, s, k, k + 1);
  }

  lemma LookOn(cfg: Config, pc: Pc, world: World, reached: World, s: nat -> Surroundings, from: nat, upto: nat,
               w: Watch, attempt: nat)
    requires from <= upto && RunTo(cfg, pc, world, s, from, upto) == (Look(w, attempt), reached)
    ensures RunTo(cfg, pc, world, s, from, upto + 1) == StepLook(cfg, w, attempt, reached, s(upto))
  {
    hide RunTo, StepLook;
    RunOn(cfg, pc, world, s, from, upto);
  }

  // ---------------------------------------------------------------------------
  // Calls as stretches of a system's run
  // ---------------------------------------------------------------------------

  /** The events of one process's first `n` steps. */
  function StepEvents(i: nat, s: nat -> Surroundings, n: nat): seq<Event> {
    if n == 0 then [] else StepEvents(i, s, n - 1) + [StepOf(i, s(n - 1))]
  }

  function BeginsAt(call: Event): Pc
    requires call.Execute? || call.Reconcile?
  {
    if call.Execute? then Start(call.command) else FindRecord(call.key)
  }

  /** The events of a whole call that starts after some others. */
  function CallEvents(cfg: Config, book: Book, events: seq<Event>, call: Event, s: nat -> Surroundings, n: nat)
    : seq<Event>
  {
    events + [call] + StepEvents(|Ran(cfg, book, events).procs|, s, n)
  }

  lemma RanSnoc(cfg: Config, book: Book, events: seq<Event>, event: Event)
    ensures Ran(cfg, book, events + [event]) == Advance(cfg, Ran(cfg, book, events), event)
    ensures Serial(cfg, book, events) && (event.Execute? || event.Reconcile? ==> Idle(Ran(cfg, book, events))) ==>
              Serial(cfg, book, events + [event])
  {
    assert (events + [event])[..|events|] == events;
    hide Advance, Idle;
  }

  /**
   * A call made while no other is in flight is a serialized stretch of a run: the run goes on to exactly the world and
   * the process that the call's own steps reach.
   */
  lemma {:induction false} CallIsARun(cfg: Config, book: Book, events: seq<Event>, call: Event, s: nat -> Surroundings,
                                      n: nat)
    requires (call.Execute? || call.Reconcile?) && Serial(cfg, book, events) && Idle(Ran(cfg, book, events))
    ensures var before := Ran(cfg, book, events);
            var (pc, world) := RunTo(cfg, BeginsAt(call), before.world, s, 0, n);
            Ran(cfg, book, CallEvents(cfg, book, events, call, s, n)) == System(world, before.procs + [pc])
    ensures Serial(cfg, book, CallEvents(cfg, book, events, call, s, n))
  {
    hide Step, Serial, Idle;
    var before := Ran(cfg, book, events);
    if n == 0 {
      assert CallEvents(cfg, book, events, call, s, 0) == events + [call];
      RanSnoc(cfg, book, events, call);
    } else {
      CallIsARun(cfg, book, events, call, s, n - 1);
      var shorter := CallEvents(cfg, book, events, call, s, n - 1);
      var event := StepOf(|before.procs|, s(n - 1));
      assert CallEvents(cfg, book, events, call, s, n) == shorter + [event];
      RanSnoc(cfg, book, shorter, event);
      hide Ran, CallEvents;
      var (pc, world) := RunTo(cfg, BeginsAt(call), before.world, s, 0, n - 1);
      var next := Step(cfg, pc, world, s(n - 1)).0;
      assert (before.procs + [pc])[|before.procs| := next] == before.procs + [next];
    }
  }

  /** What every step keeps of the broker's book: no ticket is held twice. */
  lemma StepKeepsTickets(cfg: Config, pc: Pc, world: World, s: Surroundings)
    requires UniqueTickets(world.book.positions)
    ensures UniqueTickets(Step(cfg, pc, world, s).1.book.positions)
  {
    hide UniqueTickets, StepStart, StepLookup, StepReadPositions, StepReadOrders, StepClaim, StepMarkCheckRejected,
         StepMarkSubmitted, StepMark, StepFindRecord, StepMatchPositions, StepMatchOrders, StepLook, Placed, Modified,
         MockBroker.Closed, AfterReply, Settled;
    match pc
    case Send(job) => PlacedKeepsTickets(cfg.symbols, s.calls(0), world.book, job.request,
                                         job.request.orderType != Market);
    case Repair(w, ticket) =>
      ModifiedKeepsTickets(s.calls(0), world.book, ticket, w.request.stopLoss, Some(w.request.LastTarget()));
    case SafeClose(w, ticket) => ClosedKeepsTickets(s.calls(0), world.book, ticket);
    case Start(command) => StartHarmless(cfg, command, world, s); StartSameBook(cfg, command, world, s);
    case _ => SameBook(cfg, pc, world, s);
  }

  lemma StartSameBook(cfg: Config, command: Command, world: World, s: Surroundings)
    ensures StepStart(cfg, command, world, s).1 == world
  {
    hide Prepare;
  }

  /** Only a send, a modification and a close touch the positions. */
  lemma SameBook(cfg: Config, pc: Pc, world: World, s: Surroundings)
    requires !pc.Send? && !pc.Repair? && !pc.SafeClose? && !pc.Start?
    ensures Step(cfg, pc, world, s).1.book.positions == world.book.positions
  {
    hide Decide, Replay, Block, AfterMove, Updated, Validated, FirstFill, FirstPosition, FirstOrder, OnSymbol,
         OrdersOnSymbol, Settled, Joined, NewRecord, Protects;
  }

  lemma PlacedKeepsTickets(symbols: map<string, Spec>, env: Conditions, book: Book, request: OrderRequest,
                           pending: bool)
    requires UniqueTickets(book.positions)
    ensures UniqueTickets(Placed(symbols, env, book, request, pending).0.positions)
  {
    hide Validated, Joined, OrderPrice, TicketText, Put, PutOrder, UniqueTickets, HasTicket;
    forall position
      ensures UniqueTickets(Put(book.positions, position))
    {
      PutKeepsTickets(book.positions, position);
    }
  }

  lemma ModifiedKeepsTickets(env: Conditions, book: Book, ticket: string, stopLoss: real, takeProfit: Option<real>)
    requires UniqueTickets(book.positions)
    ensures UniqueTickets(Modified(env, book, ticket, stopLoss, takeProfit).0.positions)
  {
    hide Put, Find, UniqueTickets, HasTicket;
    forall position
      ensures UniqueTickets(Put(book.positions, position))
    {
      PutKeepsTickets(book.positions, position);
    }
  }

  lemma ClosedKeepsTickets(env: Conditions, book: Book, ticket: string)
    requires UniqueTickets(book.positions)
    ensures UniqueTickets(MockBroker.Closed(env, book, ticket, None).0.positions)
  {
    hide Put, Find, Without, UniqueTickets, HasTicket, Text.Decimal;
    WithoutKeepsTickets(book.positions, ticket);
    forall position
      ensures UniqueTickets(Put(book.positions, position))
    {
      PutKeepsTickets(book.positions, position);
    }
  }

  lemma {:induction false} RunKeepsTickets(cfg: Config, pc: Pc, world: World, s: nat -> Surroundings, from: nat,
                                           upto: nat)
    requires from <= upto && UniqueTickets(world.book.positions)
    ensures UniqueTickets(RunTo(cfg, pc, world, s, from, upto).1.book.positions)
    decreases upto
  {
    hide Step, UniqueTickets;
    if from < upto {
      RunKeepsTickets(cfg, pc, world, s, from, upto - 1);
      var (last, reached) := RunTo(cfg, pc, world, s, from, upto - 1);
      StepKeepsTickets(cfg, last, reached, s(upto - 1));
    }
  }
}
