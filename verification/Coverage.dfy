/** The names a call must watch for are exactly those it needs to keep entries single. */
module Coverage {
  import opened Domain
  import opened Trading
  import opened MockBroker
  import opened Gates
  import opened Idempotency
  import opened Execution
  import opened Interleaving
  import opened Serialized
  import opened Exposure
  import opened Calls
  import opened Symbols
  import Sizing

  /** A call sends on its eighth step. */
  const SENT := 8

  predicate Empty(book: Book) {
    book.positions == [] && book.orders == []
  }

  /** Nothing is entered, and the next position's ticket is not the held one's. */
  predicate Vacant(book: Book, held: Position) {
    Empty(book) && held.ticket != TicketText('P', book.tickets + 1)
  }

  /** Alone on the book, the call enters a position or a pending order. */
  predicate EntersAlone(cfg: Config, command: Command, s: nat -> Surroundings, book: Book) {
    !Empty(RunTo(cfg, Start(command), World(map[], book, []), s, 0, SENT).1.book)
  }

  /** The same book with one position already open. */
  function Beside(book: Book, held: Position): Book {
    book.(positions := [held] + book.positions)
  }

  function WorldBeside(world: World, held: Position): World {
    world.(book := Beside(world.book, held))
  }

  // ---------------------------------------------------------------------------
  // The call beside a position it does not watch for
  // ---------------------------------------------------------------------------

  /** How far a call is from its send, or none if it will not send. */
  function Stage(pc: Pc): int {
    match pc
    case Start(_) => 0
    case Lookup(_) => 1
    case ReadPositions(_) => 2
    case ReadOrders(_, _) => 3
    case Claim(_, _) => 4
    case CheckOrder(_) => 5
    case MarkSubmitted(_) => 6
    case Send(_) => 7
    case _ => 8
  }

  /** The call is for the given name and does not watch for the symbol of the position. */
  predicate Overlooks(cfg: Config, pc: Pc, name: string, held: Position) {
    match pc
    case Start(command) => OverlooksBy(cfg, command, name, held)
    case Lookup(p) => OverlooksFor(cfg, p, name, held)
    case ReadPositions(p) => OverlooksFor(cfg, p, name, held)
    case ReadOrders(p, _) => OverlooksFor(cfg, p, name, held)
    case Claim(p, _) => OverlooksFor(cfg, p, name, held)
    case CheckOrder(job) => job.request.symbol == name
    case MarkSubmitted(job) => job.request.symbol == name
    case Send(job) => job.request.symbol == name
    case _ => true
  }

  predicate OverlooksBy(cfg: Config, command: Command, name: string, held: Position) {
    var canonical := command.signal.canonicalSymbol;
    && cfg.resolve(canonical).Ok? && cfg.resolve(canonical).value.name == name
    && held.symbol !in Equivalents(cfg.symbols, Upper(canonical)) + {name}
  }

  predicate OverlooksFor(cfg: Config, p: Prepared, name: string, held: Position) {
    p.request.symbol == name && held.symbol !in WatchedBy(cfg, p)
  }

  /** The process beside the position, which it has met in its own read if it has read. */
  function Alongside(pc: Pc, held: Position): Pc {
    if pc.ReadOrders? then ReadOrders(pc.p, [held] + pc.positions) else pc
  }

  predicate NothingRead(pc: Pc) {
    pc.ReadOrders? ==> pc.positions == []
  }

  /** The call will enter nothing any more. */
  predicate Lost(result: (Pc, World)) {
    Past(result.0) && Empty(result.1.book)
  }

  /** After the same steps alone and beside the position, the call is at the same point, or has stopped short alone. */
  ghost predicate Together(cfg: Config, alone: (Pc, World), beside: (Pc, World), stage: int, name: string,
                           held: Position)
  {
    || Lost(alone)
    || (&& beside == (Alongside(alone.0, held), WorldBeside(alone.1, held))
        && Stage(alone.0) == stage && NothingRead(alone.0)
        && Vacant(alone.1.book, held) && Overlooks(cfg, alone.0, name, held))
  }

  lemma {:induction false} FewerOrders(orders: seq<Order>)
    requires forall names :: CountOrders(orders, names) == 0
    ensures orders == []
  {
    if orders != [] {
      assert CountOrders(orders, {orders[0].symbol}) >= 1;
    }
  }

  lemma LostStays(cfg: Config, alone: (Pc, World), s: Surroundings)
    requires Lost(alone)
    ensures Lost(Step(cfg, alone.0, alone.1, s))
  {
    hide Step, Past;
    var (next, after) := Step(cfg, alone.0, alone.1, s);
    forall names
      ensures CountOrders(after.book.orders, names) == 0
    {
      PastStep(cfg, alone.0, alone.1, s, names);
    }
    PastStep(cfg, alone.0, alone.1, s, {});
    FewerOrders(after.book.orders);
  }

  lemma StartTogether(cfg: Config, command: Command, world: World, s: Surroundings, name: string, held: Position)
    requires Vacant(world.book, held) && OverlooksBy(cfg, command, name, held)
    ensures Together(cfg, StepStart(cfg, command, world, s), StepStart(cfg, command, WorldBeside(world, held), s), 1,
                     name, held)
  {
    hide TicketText;
    hide Prepare, Equivalents, Upper;
    PreparedFor(cfg, command, s);
  }

  lemma ReadsTogether(cfg: Config, p: Prepared, world: World, s: Surroundings, name: string, held: Position)
    requires Vacant(world.book, held) && OverlooksFor(cfg, p, name, held)
    ensures Together(cfg, StepLookup(p, world), StepLookup(p, WorldBeside(world, held)), 2, name, held)
    ensures Together(cfg, StepReadPositions(p, world, s), StepReadPositions(p, WorldBeside(world, held), s), 3, name,
                     held)
  {
    hide TicketText;
    hide Replay, Block, OverlooksFor;
  }

  /** A position that is not watched for, with room for another, changes nothing in the gates' decision. */
  lemma DecidesAlike(cfg: Config, p: Prepared, s: Surroundings, held: Position)
    requires Accepts(cfg, p, [], [], s) && held.symbol !in WatchedBy(cfg, p) && cfg.limits.maximumOpenPositions >= 2
    ensures Decide(cfg, p, [held], [], s) == Decide(cfg, p, [], [], s)
  {
    var margin := Margin(cfg.symbols[p.request.symbol], p.request, p.price, s.calls(3).account.leverage);
    var alone := Snapshot(p.now, p.account, p.spec, p.tick, p.health,
                          s.calls(2).marketOpen && p.spec.name in cfg.symbols, p.command.sessionAllowed,
                          Equivalents(cfg.symbols, Upper(p.command.signal.canonicalSymbol)), [], [], p.command.usage,
                          margin, s.circuit.value.kill, s.circuit.value.locked);
    var beside := alone.(positions := [held]);
    hide Margin, Equivalents, Upper, Decided;
    AcceptedIffPasses(cfg.limits, p.request, p.sized, alone);
    AcceptedIffPasses(cfg.limits, p.request, p.sized, beside);
    PassesBeside(cfg.limits, p.request, p.sized, alone, held);
    DecisionsAlike(cfg.limits, p.request, p.sized, alone, beside);
  }

  lemma PassesBeside(limits: Limits, request: OrderRequest, sized: Sizing.Sized, s: Snapshot, held: Position)
    requires Passes(limits, request, sized, s) && s.positions == [] && held.symbol !in Watched(s)
    requires limits.maximumOpenPositions >= 2
    ensures Passes(limits, request, sized, s.(positions := [held]))
  {
    hide OrderPrice, RewardRatio, MinimumDistance, RiskDistance, ProtectionOnSide, Capacity, AccountDrawdown;
    assert Watched(s.(positions := [held])) == Watched(s);
    assert NoExposure(limits, s.(positions := [held]), request);
    hide Watched, NoExposure;
  }

  lemma DecisionsAlike(limits: Limits, request: OrderRequest, sized: Sizing.Sized, s: Snapshot, s': Snapshot)
    requires Decided(limits, request, sized, s).accepted && Decided(limits, request, sized, s').accepted
    requires s' == s.(positions := s'.positions)
    ensures Decided(limits, request, sized, s) == Decided(limits, request, sized, s')
  {
    hide Faults, OrderPrice, RewardRatio, RiskDistance;
  }

  lemma GatesTogether(cfg: Config, p: Prepared, world: World, s: Surroundings, name: string, held: Position)
    requires Vacant(world.book, held) && OverlooksFor(cfg, p, name, held) && cfg.limits.maximumOpenPositions >= 2
    ensures Together(cfg, StepReadOrders(cfg, p, [], world, s),
                     StepReadOrders(cfg, p, [held], WorldBeside(world, held), s), 4, name, held)
  {
    hide TicketText;
    hide Decide, Block, WatchedBy;
    if Accepts(cfg, p, [], [], s) {
      DecidesAlike(cfg, p, s, held);
    }
  }

  lemma ClaimTogether(cfg: Config, p: Prepared, risk: Decision, world: World, name: string, held: Position)
    requires Vacant(world.book, held) && OverlooksFor(cfg, p, name, held)
    ensures Together(cfg, StepClaim(p, risk, world), StepClaim(p, risk, WorldBeside(world, held)), 5, name, held)
  {
    hide TicketText;
    hide AfterMove, Replay, NewRecord, WatchedBy;
  }

  lemma OwnedTogether(cfg: Config, job: Job, world: World, s: Surroundings, name: string, held: Position)
    requires Vacant(world.book, held) && job.request.symbol == name
    ensures Together(cfg, StepCheck(cfg, job, world, s), StepCheck(cfg, job, WorldBeside(world, held), s), 6, name,
                     held)
    ensures Together(cfg, StepMarkSubmitted(job, world), StepMarkSubmitted(job, WorldBeside(world, held)), 7, name,
                     held)
  {
    hide TicketText;
    hide AfterMove, Updated, Validated;
  }

  lemma StepTogether(cfg: Config, alone: (Pc, World), beside: (Pc, World), stage: nat, s: Surroundings, name: string,
                     held: Position)
    requires Together(cfg, alone, beside, stage, name, held) && stage < 7 && cfg.limits.maximumOpenPositions >= 2
    ensures Together(cfg, Step(cfg, alone.0, alone.1, s), Step(cfg, beside.0, beside.1, s), stage + 1, name, held)
  {
    hide StepStart, StepLookup, StepReadPositions, StepReadOrders, StepClaim, StepCheck, StepMarkSubmitted,
         OverlooksFor, OverlooksBy;
    if Lost(alone) {
      hide Step;
      LostStays(cfg, alone, s);
    } else {
      var world := alone.1;
      hide Lost, Beside, Vacant, WorldBeside;
      match alone.0
      case Start(command) => StartTogether(cfg, command, world, s, name, held);
      case Lookup(p) => ReadsTogether(cfg, p, world, s, name, held);
      case ReadPositions(p) => ReadsTogether(cfg, p, world, s, name, held);
      case ReadOrders(p, positions) =>
        assert [held] + [] == [held];
        GatesTogether(cfg, p, world, s, name, held);
      case Claim(p, risk) => ClaimTogether(cfg, p, risk, world, name, held);
      case CheckOrder(job) => OwnedTogether(cfg, job, world, s, name, held);
      case MarkSubmitted(job) => OwnedTogether(cfg, job, world, s, name, held);
    }
  }

  lemma {:induction false} RunTogether(cfg: Config, command: Command, s: nat -> Surroundings, book: Book, name: string,
                                       held: Position, k: nat)
    requires Vacant(book, held) && OverlooksBy(cfg, command, name, held) && cfg.limits.maximumOpenPositions >= 2
             && k <= 7
    ensures Together(cfg, RunTo(cfg, Start(command), World(map[], book, []), s, 0, k),
                     RunTo(cfg, Start(command), World(map[], Beside(book, held), []), s, 0, k), k, name, held)
  {
    var world := World(map[], book, []);
    if k == 0 {
      hide OverlooksBy;
    } else {
      hide Together, Step, OverlooksBy;
      RunTogether(cfg, command, s, book, name, held, k - 1);
      StepTogether(cfg, RunTo(cfg, Start(command), world, s, 0, k - 1),
                   RunTo(cfg, Start(command), World(map[], Beside(book, held), []), s, 0, k - 1), k - 1, s(k - 1), name,
                   held);
    }
  }

  // ---------------------------------------------------------------------------
  // The send
  // ---------------------------------------------------------------------------

  lemma PutBeside(held: Position, position: Position)
    requires held.ticket != position.ticket
    ensures Put([held], position) == [held] + Put([], position) && Put([], position) == [position]
  {
    assert [held][1..] == [];
  }

  lemma OnePosition(position: Position, names: set<string>)
    requires position.symbol in names
    ensures CountOn([position], names) == 1
  {
    assert [position][1..] == [];
  }

  lemma OneOrder(order: Order, names: set<string>)
    requires order.symbol in names
    ensures CountOrders([order], names) == 1
  {
    assert [order][1..] == [];
  }

  lemma AcceptedBeside(book: Book, request: OrderRequest, pending: bool, price: real, now: Time, held: Position,
                       names: set<string>)
    requires Vacant(book, held) && request.symbol in names
    ensures var (after, report) := Accepted(book, request, pending, price, now);
            && Accepted(Beside(book, held), request, pending, price, now) == (Beside(after, held), report)
            && Entered(after, names) == 1
  {
    hide TicketText, CountOn, CountOrders;
    var ticket := TicketText(if pending then 'O' else 'P', book.tickets + 1);
    assert [held] + [] == [held];
    if pending {
      var order := Order(ticket, request.symbol, request.direction, request.orderType, request.volume, price,
                         request.stopLoss, Some(request.LastTarget()), Pending, now, request.key);
      OneOrder(order, names);
      assert PutOrder([], order) == [order];
      assert CountOn([], names) == 0 by {
        NoneCounted(names);
      }
    } else {
      var position := Position(ticket, request.symbol, request.direction, request.volume, price, price,
                               request.stopLoss, Some(request.LastTarget()), now, request.strategyId,
                               Some(request.signalId));
      OnePosition(position, names);
      PutBeside(held, position);
      NoneCounted(names);
    }
  }

  lemma NoneCounted(names: set<string>)
    ensures CountOn([], names) == 0 && CountOrders([], names) == 0
  {
  }

  /** A send enters one position or order of its symbol, or nothing, and the same beside another position. */
  lemma PlacedBeside(symbols: map<string, Spec>, env: Conditions, book: Book, request: OrderRequest, pending: bool,
                     held: Position, names: set<string>)
    requires Vacant(book, held) && request.symbol in names
    ensures var after := Placed(symbols, env, book, request, pending).0;
            && Placed(symbols, env, Beside(book, held), request, pending).0 == Beside(after, held)
            && (Empty(after) || Entered(after, names) == 1)
  {
    hide Validated, Joined, OrderPrice, TicketText, Accepted, CountOn, CountOrders;
    var popped := book.(sendCalls := book.sendCalls + 1,
                        behaviors := if book.behaviors == [] then [] else book.behaviors[1..],
                        checkCalls := book.checkCalls + 1);
    var price := if request.symbol in env.ticks then OrderPrice(request, env.ticks[request.symbol]) else 0.0;
    AcceptedBeside(popped, request, pending, price, env.now, held, names);
  }

  lemma CountBeside(book: Book, held: Position, names: set<string>)
    requires held.symbol in names
    ensures Entered(Beside(book, held), names) == 1 + Entered(book, names)
  {
    assert ([held] + book.positions)[1..] == book.positions;
  }

  /** After its send the call has entered, beside the position, what it enters alone. */
  lemma SentTogether(cfg: Config, alone: (Pc, World), beside: (Pc, World), s: Surroundings, name: string,
                     held: Position, names: set<string>)
    requires Together(cfg, alone, beside, 7, name, held) && {name, held.symbol} <= names
    requires !Empty(Step(cfg, alone.0, alone.1, s).1.book)
    ensures Entered(Step(cfg, beside.0, beside.1, s).1.book, names) == 2
  {
    if Lost(alone) {
      LostStays(cfg, alone, s);
    } else {
      hide Placed, AfterReply, Entered, TicketText;
      var job := alone.0.job;
      PlacedBeside(cfg.symbols, s.calls(0), alone.1.book, job.request, job.request.orderType != Market, held, names);
      CountBeside(Step(cfg, alone.0, alone.1, s).1.book, held, names);
    }
  }

  // ---------------------------------------------------------------------------
  // Runs
  // ---------------------------------------------------------------------------

  lemma {:induction false} NoMarketNoStir(cfg: Config, book: Book, events: seq<Event>, names: set<string>)
    requires forall i :: 0 <= i < |events| ==> !events[i].Outside?
    ensures Stirred(cfg, book, events, names) == 0
  {
    hide Ran;
    if events != [] {
      NoMarketNoStir(cfg, book, events[..|events| - 1], names);
    }
  }

  /** The events of the whole call up to its send, from a system at rest. */
  function Sending(cfg: Config, command: Command, s: nat -> Surroundings, book: Book): seq<Event> {
    CallEvents(cfg, book, [], Execute(command), s, SENT)
  }

  lemma {:induction false} OnlySteps(i: nat, s: nat -> Surroundings, n: nat)
    ensures forall k :: 0 <= k < |StepEvents(i, s, n)| ==> StepEvents(i, s, n)[k].StepOf?
  {
    if n > 0 {
      OnlySteps(i, s, n - 1);
    }
  }

  lemma SendingRuns(cfg: Config, command: Command, s: nat -> Surroundings, book: Book, names: set<string>)
    ensures Serial(cfg, book, Sending(cfg, command, s, book))
            && Stirred(cfg, book, Sending(cfg, command, s, book), names) == 0
    ensures Ran(cfg, book, Sending(cfg, command, s, book)).world
            == RunTo(cfg, Start(command), World(map[], book, []), s, 0, SENT).1
    ensures Covers(cfg, names, command) ==> AllCovered(cfg, Sending(cfg, command, s, book), names)
  {
    hide RunTo, Covers, Stirred;
    assert Ran(cfg, book, []).procs == [];
    CallIsARun(cfg, book, [], Execute(command), s, SENT);
    OnlySteps(0, s, SENT);
    NoMarketNoStir(cfg, book, Sending(cfg, command, s, book), names);
  }

  /** What the book holds under the names once the call has sent beside the position. */
  ghost function EnteredBeside(cfg: Config, names: set<string>, command: Command, s: nat -> Surroundings, book: Book,
                               held: Position): nat
  {
    var beside := Beside(book, held);
    Entered(Ran(cfg, beside, Sending(cfg, command, s, beside)).world.book, names)
  }

  /**
   * A call that enters alone, with room for two positions, enters beside a position under any of the names it does not
   * watch for, in a serialized run in which the market does nothing.
   */
  lemma UncoveredEntersBeside(cfg: Config, names: set<string>, command: Command, s: nat -> Surroundings, book: Book,
                              held: Position)
    requires Fresh(book) && Empty(book) && EntersAlone(cfg, command, s, book) && cfg.limits.maximumOpenPositions >= 2
    requires var resolved := cfg.resolve(command.signal.canonicalSymbol);
             && resolved.Ok? && resolved.value.name in names && held.symbol in names
             && held.symbol !in Equivalents(cfg.symbols, Upper(command.signal.canonicalSymbol)) + {resolved.value.name}
    requires held.ticket != TicketText('P', book.tickets + 1)
    ensures var beside := Beside(book, held);
            && Fresh(beside) && Serial(cfg, beside, Sending(cfg, command, s, beside))
            && Stirred(cfg, beside, Sending(cfg, command, s, beside), names) == 0 && Entered(beside, names) == 1
    ensures EnteredBeside(cfg, names, command, s, book, held) == 2
  {
    hide Step, Equivalents, Upper, Together, TicketText;
    var beside := Beside(book, held);
    var name := cfg.resolve(command.signal.canonicalSymbol).value.name;
    CountBeside(book, held, names);
    SendingRuns(cfg, command, s, beside, names);
    RunTogether(cfg, command, s, book, name, held, 7);
    SentTogether(cfg, RunTo(cfg, Start(command), World(map[], book, []), s, 0, 7),
                 RunTo(cfg, Start(command), World(map[], beside, []), s, 0, 7), s(7), name, held, names);
    hide Ran, Entered, Serial, Stirred;
  }

  /** A position that keeps the bound: beside it the call does not make two entries. */
  ghost predicate Single(cfg: Config, names: set<string>, command: Command, s: nat -> Surroundings, book: Book,
                         held: Position)
  {
    EnteredBeside(cfg, names, command, s, book, held) <= 1
  }

  /**
   * For a call that enters alone, with room for two positions, entries stay single beside every position under the
   * names if and only if the call watches for all of them.
   */
  lemma CoverIsExact(cfg: Config, names: set<string>, command: Command, s: nat -> Surroundings, book: Book)
    requires Fresh(book) && Empty(book) && EntersAlone(cfg, command, s, book) && cfg.limits.maximumOpenPositions >= 2
    ensures Covers(cfg, names, command) <==>
            forall held: Position :: held.symbol in names && held.ticket != TicketText('P', book.tickets + 1) ==>
              Single(cfg, names, command, s, book, held)
  {
    hide EntersAlone, TicketText, Equivalents, Upper, EnteredBeside;
    if Covers(cfg, names, command) {
      forall held: Position | held.symbol in names && held.ticket != TicketText('P', book.tickets + 1)
        ensures Single(cfg, names, command, s, book, held)
      {
        CoveredStaysSingle(cfg, names, command, s, book, held);
      }
    } else {
      var resolved := cfg.resolve(command.signal.canonicalSymbol).value.name;
      var other :| other in names
      && other !in Equivalents(cfg.symbols, Upper(command.signal.canonicalSymbol)) + {resolved};
      var held := Position("", other, Long, 1.0, 1.0, 1.0, 1.0, None, 0, "", None);
      TicketNotBlank(book.tickets + 1);
      UncoveredEntersBeside(cfg, names, command, s, book, held);
      assert !Single(cfg, names, command, s, book, held);
    }
  }

  lemma TicketNotBlank(n: nat)
    ensures TicketText('P', n) != ""
  {
  }

  lemma CoveredStaysSingle(cfg: Config, names: set<string>, command: Command, s: nat -> Surroundings, book: Book,
                           held: Position)
    requires Fresh(book) && Empty(book) && Covers(cfg, names, command) && held.symbol in names
    ensures EnteredBeside(cfg, names, command, s, book, held) <= 1
  {
    hide Covers, Ran, Serial, Stirred, AllCovered, Sending;
    var beside := Beside(book, held);
    CountBeside(book, held, names);
    SendingRuns(cfg, command, s, beside, names);
    EntryBounded(cfg, beside, Sending(cfg, command, s, beside), names);
  }
}
