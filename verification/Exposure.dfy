/** One instrument is never entered twice by serialized calls, even when replies are lost. */
module Exposure {
  import opened Domain
  import opened Trading
  import opened MockBroker
  import opened Gates
  import opened Idempotency
  import opened Execution
  import opened Interleaving
  import opened Serialized
  import opened Symbols
  import Sizing
  import Text

  function CountOrders(orders: seq<Order>, names: set<string>): nat {
    if orders == [] then 0
    else (if orders[0].symbol in names then 1 else 0) + CountOrders(orders[1..], names)
  }

  /** Positions and pending orders under any of the given names. */
  function Entered(book: Book, names: set<string>): nat {
    CountOn(book.positions, names) + CountOrders(book.orders, names)
  }

  // ---------------------------------------------------------------------------
  // What the broker's operations do to the count
  // ---------------------------------------------------------------------------

  lemma {:induction false} PutAddsOne(positions: seq<Position>, position: Position, names: set<string>)
    ensures CountOn(Put(positions, position), names) <= CountOn(positions, names) + 1
    ensures |positions| <= |Put(positions, position)| <= |positions| + 1
  {
    if positions != [] && positions[0].ticket != position.ticket {
      PutAddsOne(positions[1..], position, names);
      assert ([positions[0]] + Put(positions[1..], position))[1..] == Put(positions[1..], position);
    } else if positions != [] {
      assert ([position] + positions[1..])[1..] == positions[1..];
    } else {
      assert [position][1..] == [];
    }
  }

  lemma {:induction false} PutReplaces(positions: seq<Position>, position: Position, names: set<string>)
    requires Find(positions, position.ticket).Some? && Find(positions, position.ticket).value.symbol == position.symbol
    ensures CountOn(Put(positions, position), names) == CountOn(positions, names)
    ensures |Put(positions, position)| == |positions|
  {
    if positions[0].ticket != position.ticket {
      PutReplaces(positions[1..], position, names);
      assert ([positions[0]] + Put(positions[1..], position))[1..] == Put(positions[1..], position);
    } else {
      assert ([position] + positions[1..])[1..] == positions[1..];
    }
  }

  lemma {:induction false} WithoutRemoves(positions: seq<Position>, ticket: string, names: set<string>)
    ensures CountOn(Without(positions, ticket), names) <= CountOn(positions, names)
    ensures |Without(positions, ticket)| <= |positions|
  {
    if positions != [] && positions[0].ticket != ticket {
      WithoutRemoves(positions[1..], ticket, names);
      assert ([positions[0]] + Without(positions[1..], ticket))[1..] == Without(positions[1..], ticket);
    }
  }

  lemma {:induction false} PutOrderAddsOne(orders: seq<Order>, order: Order, names: set<string>)
    ensures CountOrders(PutOrder(orders, order), names) <= CountOrders(orders, names) + 1
  {
    if orders != [] && orders[0].ticket != order.ticket {
      PutOrderAddsOne(orders[1..], order, names);
      assert ([orders[0]] + PutOrder(orders[1..], order))[1..] == PutOrder(orders[1..], order);
    } else if orders != [] {
      assert ([order] + orders[1..])[1..] == orders[1..];
    } else {
      assert [order][1..] == [];
    }
  }

  /** A send adds at most one position or order, whatever becomes of its reply. */
  lemma PlacedAddsOne(symbols: map<string, Spec>, env: Conditions, book: Book, request: OrderRequest, pending: bool,
                      names: set<string>)
    ensures var after := Placed(symbols, env, book, request, pending).0;
            Entered(after, names) <= Entered(book, names) + 1 && |after.positions| <= |book.positions| + 1
  {
    hide Validated, Joined, OrderPrice, TicketText, Put, PutOrder, CountOn, CountOrders;
    forall position
      ensures CountOn(Put(book.positions, position), names) <= CountOn(book.positions, names) + 1
      ensures |Put(book.positions, position)| <= |book.positions| + 1
    {
      PutAddsOne(book.positions, position, names);
    }
    forall order
      ensures CountOrders(PutOrder(book.orders, order), names) <= CountOrders(book.orders, names) + 1
    {
      PutOrderAddsOne(book.orders, order, names);
    }
  }

  lemma {:induction false} PutElsewhere(positions: seq<Position>, position: Position, names: set<string>)
    requires position.symbol !in names
    ensures CountOn(Put(positions, position), names) <= CountOn(positions, names)
  {
    if positions != [] && positions[0].ticket != position.ticket {
      PutElsewhere(positions[1..], position, names);
      assert ([positions[0]] + Put(positions[1..], position))[1..] == Put(positions[1..], position);
    } else if positions != [] {
      assert ([position] + positions[1..])[1..] == positions[1..];
    } else {
      assert [position][1..] == [];
    }
  }

  lemma {:induction false} PutOrderElsewhere(orders: seq<Order>, order: Order, names: set<string>)
    requires order.symbol !in names
    ensures CountOrders(PutOrder(orders, order), names) <= CountOrders(orders, names)
  {
    if orders != [] && orders[0].ticket != order.ticket {
      PutOrderElsewhere(orders[1..], order, names);
      assert ([orders[0]] + PutOrder(orders[1..], order))[1..] == PutOrder(orders[1..], order);
    } else if orders != [] {
      assert ([order] + orders[1..])[1..] == orders[1..];
    } else {
      assert [order][1..] == [];
    }
  }

  /** A send for another symbol enters nothing under the names. */
  lemma PlacedElsewhere(symbols: map<string, Spec>, env: Conditions, book: Book, request: OrderRequest, pending: bool,
                        names: set<string>)
    requires request.symbol !in names
    ensures Entered(Placed(symbols, env, book, request, pending).0, names) <= Entered(book, names)
  {
    hide Validated, Joined, OrderPrice, TicketText, Put, PutOrder, CountOn, CountOrders;
    forall position: Position | position.symbol !in names
      ensures CountOn(Put(book.positions, position), names) <= CountOn(book.positions, names)
    {
      PutElsewhere(book.positions, position, names);
    }
    forall order: Order | order.symbol !in names
      ensures CountOrders(PutOrder(book.orders, order), names) <= CountOrders(book.orders, names)
    {
      PutOrderElsewhere(book.orders, order, names);
    }
  }

  lemma ModifiedAddsNone(env: Conditions, book: Book, ticket: string, stopLoss: real, takeProfit: Option<real>,
                         names: set<string>)
    ensures var after := Modified(env, book, ticket, stopLoss, takeProfit).0;
            Entered(after, names) == Entered(book, names) && |after.positions| == |book.positions|
  {
    var found := Find(book.positions, ticket);
    FindExact(book.positions, ticket);
    if found.Some? {
      PutReplaces(book.positions, found.value.(stopLoss := stopLoss, takeProfit := takeProfit), names);
    }
    hide Put, CountOn, CountOrders, Find;
  }

  lemma ClosedAddsNone(env: Conditions, book: Book, ticket: string, volume: Option<real>, names: set<string>)
    ensures var after := MockBroker.Closed(env, book, ticket, volume).0;
            Entered(after, names) <= Entered(book, names) && |after.positions| <= |book.positions|
  {
    var found := Find(book.positions, ticket);
    FindExact(book.positions, ticket);
    WithoutRemoves(book.positions, ticket, names);
    if found.Some? {
      var size := if volume.Some? && volume.value != 0.0 then volume.value else found.value.volume;
      PutReplaces(book.positions, found.value.(volume := found.value.volume - size), names);
    }
    hide Put, Without, CountOn, CountOrders, Find, Text.Decimal;
  }

  // ---------------------------------------------------------------------------
  // What acceptance by the gates means
  // ---------------------------------------------------------------------------

  lemma {:induction false} NoneCounted(positions: seq<Position>, names: set<string>)
    requires forall i :: 0 <= i < |positions| ==> positions[i].symbol !in names
    ensures CountOn(positions, names) == 0
  {
    if positions != [] {
      NoneCounted(positions[1..], names);
    }
  }

  lemma {:induction false} NoOrderCounted(orders: seq<Order>, names: set<string>)
    requires forall i :: 0 <= i < |orders| ==> orders[i].symbol !in names
    ensures CountOrders(orders, names) == 0
  {
    if orders != [] {
      NoOrderCounted(orders[1..], names);
    }
  }

  predicate Accepts(cfg: Config, p: Prepared, positions: seq<Position>, orders: seq<Order>, s: Surroundings) {
    var decided := Decide(cfg, p, positions, orders, s);
    decided.Ok? && decided.value.accepted
  }

  /** The names a prepared call watches for: those of its canonical text, and the one it resolved to. */
  function WatchedBy(cfg: Config, p: Prepared): set<string> {
    Equivalents(cfg.symbols, Upper(p.command.signal.canonicalSymbol)) + {p.spec.name}
  }

  /** Acceptance by the gates means that nothing was seen under any watched name, and room for one more position. */
  lemma AcceptedMeansClear(cfg: Config, p: Prepared, positions: seq<Position>, orders: seq<Order>, s: Surroundings,
                           names: set<string>)
    requires Accepts(cfg, p, positions, orders, s) && names <= WatchedBy(cfg, p)
    ensures CountOn(positions, names) == 0 && CountOrders(orders, names) == 0
    ensures |positions| < cfg.limits.maximumOpenPositions
  {
    hide Margin, Equivalents, Upper, Decided;
    var equivalents := Equivalents(cfg.symbols, Upper(p.command.signal.canonicalSymbol));
    var margin := Margin(cfg.symbols[p.request.symbol], p.request, p.price, s.calls(3).account.leverage);
    var snapshot := Snapshot(p.now, p.account, p.spec, p.tick, p.health, s.calls(2).marketOpen
                             && p.spec.name in cfg.symbols,
                             p.command.sessionAllowed, equivalents, positions, orders, p.command.usage, margin,
                             s.circuit.value.kill, s.circuit.value.locked);
    AcceptedIffPasses(cfg.limits, p.request, p.sized, snapshot);
    assert NoExposure(cfg.limits, snapshot, p.request) by {
      hide VenueReady, PriceFresh, ProtectionSound, Funded, WithinLosses;
    }
    hide Decide, Passes;
    NoneCounted(positions, names);
    NoOrderCounted(orders, names);
  }

  // ---------------------------------------------------------------------------
  // Each step
  // ---------------------------------------------------------------------------

  /** A call that resolves to one of the names watches for all of them. */
  predicate Covers(cfg: Config, names: set<string>, command: Command) {
    var resolved := cfg.resolve(command.signal.canonicalSymbol);
    resolved.Ok? && resolved.value.name in names ==>
      names <= Equivalents(cfg.symbols, Upper(command.signal.canonicalSymbol)) + {resolved.value.name}
  }

  predicate CoversFor(cfg: Config, names: set<string>, p: Prepared) {
    p.request.symbol in names ==> names <= WatchedBy(cfg, p)
  }

  /** Between the gates and the send of an order for one of the names, only what the market stirred up is entered. */
  predicate Clear(cfg: Config, world: World, pc: Pc, names: set<string>, slack: nat) {
    match pc
    case Start(command) => Covers(cfg, names, command)
    case Lookup(p) => CoversFor(cfg, names, p)
    case ReadPositions(p) => CoversFor(cfg, names, p)
    case ReadOrders(p, positions) =>
      CoversFor(cfg, names, p) && CountOn(world.book.positions, names) <= CountOn(positions, names) + slack
    case Claim(p, _) => p.request.symbol in names ==> Entered(world.book, names) <= slack
    case CheckOrder(job) => job.request.symbol in names ==> Entered(world.book, names) <= slack
    case MarkSubmitted(job) => job.request.symbol in names ==> Entered(world.book, names) <= slack
    case Send(job) => job.request.symbol in names ==> Entered(world.book, names) <= slack
    case _ => true
  }

  /** The condition on a call carries over its step, and so does the bound. */
  predicate StaysClear(cfg: Config, result: (Pc, World), names: set<string>, slack: nat, bound: nat) {
    Clear(cfg, result.1, result.0, names, slack) && Entered(result.1.book, names) <= bound
  }

  lemma PreparedFor(cfg: Config, command: Command, s: Surroundings)
    ensures var r := Prepare(cfg, command, s);
            r.Ready? ==>
              && r.prepared.command == command && cfg.resolve(command.signal.canonicalSymbol) == Ok(r.prepared.spec)
              && r.prepared.request.symbol == r.prepared.spec.name
  {
    if Unfit(command.signal, s.clock) == [] && cfg.resolve(command.signal.canonicalSymbol).Ok? {
      PreparedOrderFor(cfg, command, s, s.calls(0).HealthCheck(), s.calls(1).account,
                       cfg.resolve(command.signal.canonicalSymbol).value);
    }
    hide PrepareOrder, Unfit;
  }

  lemma PreparedOrderFor(cfg: Config, command: Command, s: Surroundings, health: Health, account: Account, spec: Spec)
    requires Unfit(command.signal, s.clock) == []
    ensures var r := PrepareOrder(cfg, command, s, health, account, spec);
            r.Ready? ==>
              r.prepared.command == command && r.prepared.spec == spec && r.prepared.request.symbol == spec.name
  {
    hide Sizing.Calculate, Unfit;
  }

  lemma StartClear(cfg: Config, command: Command, world: World, s: Surroundings, names: set<string>, slack: nat,
                   bound: nat)
    requires Clear(cfg, world, Start(command), names, slack) && Entered(world.book, names) <= bound
    ensures StaysClear(cfg, StepStart(cfg, command, world, s), names, slack, bound)
  {
    PreparedFor(cfg, command, s);
    hide Prepare, Upper, Equivalents, CountOn, CountOrders;
  }

  lemma EarlyReadsClear(cfg: Config, p: Prepared, world: World, s: Surroundings, names: set<string>, slack: nat,
                        bound: nat)
    requires Clear(cfg, world, Lookup(p), names, slack) && Entered(world.book, names) <= bound
    ensures StaysClear(cfg, StepLookup(p, world), names, slack, bound)
    ensures StaysClear(cfg, StepReadPositions(p, world, s), names, slack, bound)
  {
    hide Replay, Block, CountOn, CountOrders, CoversFor;
  }

  lemma GatesClear(cfg: Config, p: Prepared, positions: seq<Position>, world: World, s: Surroundings,
                   names: set<string>, slack: nat, bound: nat)
    requires Clear(cfg, world, ReadOrders(p, positions), names, slack) && Entered(world.book, names) <= bound
    ensures StaysClear(cfg, StepReadOrders(cfg, p, positions, world, s), names, slack, bound)
  {
    hide Decide, Block, CountOn, CountOrders, WatchedBy;
    if Accepts(cfg, p, positions, world.book.orders, s) && p.request.symbol in names {
      AcceptedMeansClear(cfg, p, positions, world.book.orders, s, names);
    }
  }

  lemma ClaimClear(cfg: Config, p: Prepared, risk: Decision, world: World, names: set<string>, slack: nat, bound: nat)
    requires Clear(cfg, world, Claim(p, risk), names, slack) && Entered(world.book, names) <= bound
    ensures StaysClear(cfg, StepClaim(p, risk, world), names, slack, bound)
  {
    hide AfterMove, Replay, CountOn, CountOrders;
  }

  lemma OwnedClear(cfg: Config, job: Job, world: World, s: Surroundings, names: set<string>, slack: nat, bound: nat)
    requires Clear(cfg, world, CheckOrder(job), names, slack) && Entered(world.book, names) <= bound
    ensures StaysClear(cfg, StepCheck(cfg, job, world, s), names, slack, bound)
    ensures StaysClear(cfg, StepMarkSubmitted(job, world), names, slack, bound)
  {
    hide AfterMove, Updated, Validated, CountOn, CountOrders;
  }

  /** The part of the protocol from which no send follows. */
  predicate Past(pc: Pc) {
    || pc.Look? || pc.Repair? || pc.SafeClose? || pc.Mark? || pc.MarkCheckRejected?
    || pc.FindRecord? || pc.MatchPositions? || pc.MatchOrders? || !Active(pc)
  }

  /** A step enters nothing and opens nothing. */
  predicate EntersNone(world: World, after: World, names: set<string>) {
    Entered(after.book, names) <= Entered(world.book, names) && |after.book.positions| <= |world.book.positions|
  }

  lemma ProtectionPast(cfg: Config, w: Watch, attempt: nat, ticket: string, world: World, s: Surroundings)
    ensures Past(StepLook(cfg, w, attempt, world, s).0) && StepLook(cfg, w, attempt, world, s).1 == world
    ensures Past(StepRepair(w, ticket, world, s).0) && Past(StepSafeClose(w, ticket, world, s).0)
  {
    hide FirstFill, Modified, MockBroker.Closed, OnSymbol, Protects, Settled;
    SettledPast(w, true, VERIFIED);
    SettledPast(w, true, REPAIRED);
    SettledPast(w, false, NOT_VISIBLE);
    SettledPast(w, false, UNCONFIRMED);
    SettledPast(w, false, SAFELY_CLOSED);
    SettledPast(w, false, CLOSE_FAILED);
  }

  lemma SettledPast(w: Watch, protected: bool, reason: string)
    ensures Past(Settled(w, protected, reason))
  {
  }

  lemma ReplyPast(job: Job, reply: Reply)
    ensures Past(AfterReply(job, reply))
  {
    hide AfterMove;
  }

  lemma MatchPast(cfg: Config, record: Record, positions: seq<Position>, world: World, s: Surroundings)
    ensures Past(StepMatchPositions(record, world, s).0) && StepMatchPositions(record, world, s).1 == world
    ensures Past(StepMatchOrders(cfg, record, positions, world, s).0)
            && StepMatchOrders(cfg, record, positions, world, s).1 == world
  {
    hide FirstPosition, FirstOrder, OnSymbol, OrdersOnSymbol;
  }

  lemma ConcludePast(job: Job, reasons: seq<string>, world: World)
    ensures Past(StepMarkCheckRejected(job, reasons, world).0)
            && StepMarkCheckRejected(job, reasons, world).1.book == world.book
  {
    hide AfterMove, Updated, Joined;
  }

  lemma PastClear(cfg: Config, world: World, pc: Pc, names: set<string>, slack: nat)
    requires Past(pc)
    ensures Clear(cfg, world, pc, names, slack)
  {
  }

  lemma SendClear(cfg: Config, job: Job, world: World, s: Surroundings, names: set<string>, slack: nat, bound: nat)
    requires Clear(cfg, world, Send(job), names, slack) && Entered(world.book, names) <= bound && slack + 1 <= bound
    ensures StaysClear(cfg, StepSend(cfg, job, world, s), names, slack, bound)
  {
    hide Placed, AfterReply, Entered;
    assert job.request.symbol in names ==> Entered(world.book, names) <= slack;
    hide Clear;
    var pending := job.request.orderType != Market;
    var (next, after) := StepSend(cfg, job, world, s);
    PlacedAddsOne(cfg.symbols, s.calls(0), world.book, job.request, pending, names);
    if job.request.symbol !in names {
      PlacedElsewhere(cfg.symbols, s.calls(0), world.book, job.request, pending, names);
    }
    ReplyPast(job, Placed(cfg.symbols, s.calls(0), world.book, job.request, pending).1);
    PastClear(cfg, after, next, names, slack);
  }

  lemma SameBookEntersNone(world: World, after: World, names: set<string>)
    ensures after.book == world.book ==> EntersNone(world, after, names)
  {
  }

  lemma RepairEntersNone(w: Watch, ticket: string, world: World, s: Surroundings, names: set<string>)
    ensures EntersNone(world, StepRepair(w, ticket, world, s).1, names)
  {
    ModifiedAddsNone(s.calls(0), world.book, ticket, w.request.stopLoss, Some(w.request.LastTarget()), names);
    hide Modified, Settled, CountOn, CountOrders;
  }

  lemma SafeCloseEntersNone(w: Watch, ticket: string, world: World, s: Surroundings, names: set<string>)
    ensures EntersNone(world, StepSafeClose(w, ticket, world, s).1, names)
  {
    ClosedAddsNone(s.calls(0), world.book, ticket, None, names);
    hide MockBroker.Closed, Settled, CountOn, CountOrders;
  }

  lemma FindPast(key: string, world: World)
    ensures Past(StepFindRecord(key, world).0) && StepFindRecord(key, world).1 == world
  {
    hide Replay, Block;
  }

  lemma PastPcs(pc: Pc)
    requires Past(pc)
    ensures !pc.Start? && !pc.Lookup? && !pc.ReadPositions? && !pc.ReadOrders? && !pc.Claim? && !pc.CheckOrder?
            && !pc.MarkSubmitted? && !pc.Send?
    ensures Past(Refused) && forall outcome :: Past(Finished(outcome))
  {
  }

  /** Once a call is past its send, or never sends, it stays there and enters nothing. */
  lemma PastStep(cfg: Config, pc: Pc, world: World, s: Surroundings, names: set<string>)
    requires Past(pc)
    ensures Past(Step(cfg, pc, world, s).0) && EntersNone(world, Step(cfg, pc, world, s).1, names)
  {
    hide StepLook, StepRepair, StepSafeClose, StepMatchPositions, StepMatchOrders, StepMarkCheckRejected, StepMark,
         StepFindRecord, EntersNone, Past;
    PastPcs(pc);
    SameBookEntersNone(world, Step(cfg, pc, world, s).1, names);
    match pc
    case Look(w, attempt) => ProtectionPast(cfg, w, attempt, "", world, s);
    case Repair(w, ticket) =>
      ProtectionPast(cfg, w, 0, ticket, world, s);
      RepairEntersNone(w, ticket, world, s, names);
    case SafeClose(w, ticket) =>
      ProtectionPast(cfg, w, 0, ticket, world, s);
      SafeCloseEntersNone(w, ticket, world, s, names);
    case Mark(key, status, report, reason, ending) => MarkShape(key, status, report, reason, ending, world, s);
    case MarkCheckRejected(job, reasons) => ConcludePast(job, reasons, world);
    case FindRecord(key) => FindPast(key, world);
    case MatchPositions(record) => MatchPast(cfg, record, [], world, s);
    case MatchOrders(record, positions) => MatchPast(cfg, record, positions, world, s);
    case _ =>
  }

  lemma StepClear(cfg: Config, pc: Pc, world: World, s: Surroundings, names: set<string>, slack: nat, bound: nat)
    requires slack + 1 <= bound
    requires Clear(cfg, world, pc, names, slack) && Entered(world.book, names) <= bound
    ensures StaysClear(cfg, Step(cfg, pc, world, s), names, slack, bound)
  {
    if Past(pc) {
      hide Step, CountOn, CountOrders, Clear;
      PastStep(cfg, pc, world, s, names);
      PastClear(cfg, Step(cfg, pc, world, s).1, Step(cfg, pc, world, s).0, names, slack);
    } else {
      EntryStepClear(cfg, pc, world, s, names, slack, bound);
    }
  }

  lemma EntryStepClear(cfg: Config, pc: Pc, world: World, s: Surroundings, names: set<string>, slack: nat, bound: nat)
    requires slack + 1 <= bound && !Past(pc)
    requires Clear(cfg, world, pc, names, slack) && Entered(world.book, names) <= bound
    ensures StaysClear(cfg, Step(cfg, pc, world, s), names, slack, bound)
  {
    hide StepStart, StepLookup, StepReadPositions, StepReadOrders, StepClaim, StepCheck, StepMarkSubmitted, StepSend,
         StaysClear, Entered, Covers, CoversFor;
    match pc
    case Start(command) => StartClear(cfg, command, world, s, names, slack, bound);
    case Lookup(p) => EarlyReadsClear(cfg, p, world, s, names, slack, bound);
    case ReadPositions(p) => EarlyReadsClear(cfg, p, world, s, names, slack, bound);
    case ReadOrders(p, positions) => GatesClear(cfg, p, positions, world, s, names, slack, bound);
    case Claim(p, risk) => ClaimClear(cfg, p, risk, world, names, slack, bound);
    case CheckOrder(job) => OwnedClear(cfg, job, world, s, names, slack, bound);
    case MarkSubmitted(job) => OwnedClear(cfg, job, world, s, names, slack, bound);
    case Send(job) => SendClear(cfg, job, world, s, names, slack, bound);
  }

  // ---------------------------------------------------------------------------
  // Every serialized run
  // ---------------------------------------------------------------------------

  ghost predicate MidRead(sys: System) {
    exists i :: 0 <= i < |sys.procs| && sys.procs[i].ReadOrders?
  }

  function Rise(before: nat, after: nat): nat {
    if after > before then after - before else 0
  }

  /**
   * What the market stirs up by itself: entries it adds under the names and, between a call's read of the positions and
   * its read of the orders, orders it turns into positions.
   */
  ghost function StirredBy(sys: System, event: Event, names: set<string>): nat {
    if !event.Outside? then 0
    else
      Rise(Entered(sys.world.book, names), CountOn(event.positions, names) + CountOrders(event.orders, names))
      + if MidRead(sys) then Rise(CountOn(sys.world.book.positions, names), CountOn(event.positions, names)) else 0
  }

  ghost function Stirred(cfg: Config, book: Book, events: seq<Event>, names: set<string>): nat {
    if events == [] then 0
    else
      var before := events[..|events| - 1];
      Stirred(cfg, book, before, names) + StirredBy(Ran(cfg, book, before), events[|events| - 1], names)
  }

  /** Every call of the run that resolves to one of the names watches for all of them. */
  predicate AllCovered(cfg: Config, events: seq<Event>, names: set<string>) {
    forall i :: 0 <= i < |events| && events[i].Execute? ==> Covers(cfg, names, events[i].command)
  }

  ghost predicate ClearOk(cfg: Config, sys: System, names: set<string>, slack: nat, bound: nat) {
    && Entered(sys.world.book, names) <= bound
    && forall i :: 0 <= i < |sys.procs| ==> Clear(cfg, sys.world, sys.procs[i], names, slack)
  }

  lemma IdleClear(cfg: Config, world: World, pc: Pc, names: set<string>, slack: nat)
    requires !Active(pc)
    ensures Clear(cfg, world, pc, names, slack)
  {
  }

  lemma ClearProcess(cfg: Config, sys: System, i: nat, s: Surroundings, names: set<string>, slack: nat, bound: nat)
    requires SerialOk(sys) && ClearOk(cfg, sys, names, slack, bound) && i < |sys.procs| && slack + 1 <= bound
    ensures ClearOk(cfg, Advance(cfg, sys, StepOf(i, s)), names, slack, bound)
  {
    hide Step, Clear, Entered, Fits;
    var (next, after) := Step(cfg, sys.procs[i], sys.world, s);
    StepClear(cfg, sys.procs[i], sys.world, s, names, slack, bound);
    InactiveStays(cfg, sys.procs[i], sys.world, s);
    forall j | 0 <= j < |sys.procs| && j != i
      ensures Clear(cfg, after, sys.procs[j], names, slack)
    {
      if Active(sys.procs[i]) {
        IdleClear(cfg, after, sys.procs[j], names, slack);
      }
    }
  }

  lemma OutsideClear(cfg: Config, sys: System, event: Event, names: set<string>, slack: nat, pc: Pc)
    requires event.Outside? && Clear(cfg, sys.world, pc, names, slack)
    requires pc.ReadOrders? ==> MidRead(sys)
    ensures var book := sys.world.book.(positions := event.positions, orders := event.orders,
                                        behaviors := event.behaviors);
            Clear(cfg, sys.world.(book := book), pc, names, slack + StirredBy(sys, event, names))
  {
    hide CountOn, CountOrders, Covers, CoversFor;
  }

  lemma ClearAdvance(cfg: Config, sys: System, event: Event, names: set<string>, slack: nat, bound: nat)
    requires SerialOk(sys) && ClearOk(cfg, sys, names, slack, bound) && slack + 1 <= bound
    requires event.Execute? ==> Covers(cfg, names, event.command)
    ensures var stirred := StirredBy(sys, event, names);
            ClearOk(cfg, Advance(cfg, sys, event), names, slack + stirred, bound + stirred)
  {
    hide Step, SerialOk, CountOn, CountOrders, Covers, CoversFor;
    match event
    case StepOf(i, s) =>
      if i < |sys.procs| {
        ClearProcess(cfg, sys, i, s, names, slack, bound);
      }
    case Outside(positions, orders, behaviors) =>
      hide Clear;
      forall i | 0 <= i < |sys.procs|
        ensures Clear(cfg, Advance(cfg, sys, event).world, sys.procs[i], names, slack + StirredBy(sys, event, names))
      {
        OutsideClear(cfg, sys, event, names, slack, sys.procs[i]);
      }
    case Crash(i) =>
      hide Clear, Entered;
      IdleClear(cfg, sys.world, Crashed, names, slack);
    case _ =>
      hide Entered;
  }

  lemma SerialShorter(cfg: Config, book: Book, events: seq<Event>)
    requires events != [] && Serial(cfg, book, events)
    ensures Serial(cfg, book, events[..|events| - 1])
  {
    hide Ran;
  }

  lemma CoveredShorter(cfg: Config, events: seq<Event>, names: set<string>)
    requires events != [] && AllCovered(cfg, events, names)
    ensures AllCovered(cfg, events[..|events| - 1], names)
    ensures var last := events[|events| - 1]; last.Execute? ==> Covers(cfg, names, last.command)
  {
    hide Covers;
  }

  lemma {:induction false} ClearRun(cfg: Config, book: Book, events: seq<Event>, names: set<string>, bound: nat)
    requires Fresh(book) && Serial(cfg, book, events) && AllCovered(cfg, events, names)
    requires 1 <= bound && Entered(book, names) <= bound
    ensures var stirred := Stirred(cfg, book, events, names);
            ClearOk(cfg, Ran(cfg, book, events), names, stirred, bound + stirred)
  {
    hide Advance, SerialOk, StirredBy, Covers, Clear, Entered, Serial, AllCovered;
    if events != [] {
      SerialShorter(cfg, book, events);
      CoveredShorter(cfg, events, names);
    }
    if events == [] {
      assert Ran(cfg, book, events).procs == [];
    } else {
      var before := events[..|events| - 1];
      ClearRun(cfg, book, before, names, bound);
      SerialRunOk(cfg, book, before);
      var stirred := Stirred(cfg, book, before, names);
      ClearAdvance(cfg, Ran(cfg, book, before), events[|events| - 1], names, stirred, bound + stirred);
    }
  }

  /**
   * Over every serialized run of any signals, with crashes at any step and replies lost before or after acceptance, the
   * positions and pending orders under a set of names never number more than one, or than there were at the start,
   * beyond what the market stirred up itself; provided each call that enters under one of the names watches for all of
   * them.
   */
  lemma EntryBounded(cfg: Config, book: Book, events: seq<Event>, names: set<string>)
    requires Fresh(book) && Serial(cfg, book, events) && AllCovered(cfg, events, names)
    ensures Entered(Ran(cfg, book, events).world.book, names) <=
            (if Entered(book, names) > 1 then Entered(book, names) else 1) + Stirred(cfg, book, events, names)
  {
    hide Ran, Stirred, Serial, Entered, AllCovered;
    ClearRun(cfg, book, events, names, if Entered(book, names) > 1 then Entered(book, names) else 1);
  }

  // ---------------------------------------------------------------------------
  // The limit on open positions
  // ---------------------------------------------------------------------------

  /** Between the gates and the send there is room for one more position. */
  predicate Room(world: World, pc: Pc, limit: int, slack: nat) {
    match pc
    case ReadOrders(_, positions) => |world.book.positions| <= |positions| + slack
    case Claim(_, _) => |world.book.positions| < limit + slack
    case CheckOrder(_) => |world.book.positions| < limit + slack
    case MarkSubmitted(_) => |world.book.positions| < limit + slack
    case Send(_) => |world.book.positions| < limit + slack
    case _ => true
  }

  predicate StaysRoomy(result: (Pc, World), limit: int, slack: nat, bound: nat) {
    Room(result.1, result.0, limit, slack) && |result.1.book.positions| <= bound
  }

  lemma ReadsRoomy(p: Prepared, world: World, s: Surroundings, limit: int, slack: nat, bound: nat)
    requires |world.book.positions| <= bound
    ensures StaysRoomy(StepLookup(p, world), limit, slack, bound)
            && StaysRoomy(StepReadPositions(p, world, s), limit, slack, bound)
  {
    hide Replay, Block;
  }

  lemma StartRoomy(cfg: Config, command: Command, world: World, s: Surroundings, limit: int, slack: nat, bound: nat)
    requires |world.book.positions| <= bound
    ensures StaysRoomy(StepStart(cfg, command, world, s), limit, slack, bound)
  {
    hide Prepare;
  }

  lemma GatesRoomy(cfg: Config, p: Prepared, positions: seq<Position>, world: World, s: Surroundings, slack: nat,
                   bound: nat)
    requires Room(world, ReadOrders(p, positions), cfg.limits.maximumOpenPositions, slack)
             && |world.book.positions| <= bound
    ensures StaysRoomy(StepReadOrders(cfg, p, positions, world, s), cfg.limits.maximumOpenPositions, slack, bound)
  {
    hide Decide, Block, WatchedBy;
    if Accepts(cfg, p, positions, world.book.orders, s) {
      AcceptedMeansClear(cfg, p, positions, world.book.orders, s, {});
    }
  }

  lemma OwnedRoomy(cfg: Config, job: Job, world: World, s: Surroundings, limit: int, slack: nat, bound: nat)
    requires Room(world, CheckOrder(job), limit, slack) && |world.book.positions| <= bound
    ensures StaysRoomy(StepCheck(cfg, job, world, s), limit, slack, bound)
    ensures StaysRoomy(StepMarkSubmitted(job, world), limit, slack, bound)
  {
    hide AfterMove, Updated, Validated;
  }

  lemma ClaimRoomy(p: Prepared, risk: Decision, world: World, limit: int, slack: nat, bound: nat)
    requires Room(world, Claim(p, risk), limit, slack) && |world.book.positions| <= bound
    ensures StaysRoomy(StepClaim(p, risk, world), limit, slack, bound)
  {
    hide AfterMove, Replay;
  }

  lemma PastRoomy(world: World, pc: Pc, limit: int, slack: nat)
    requires Past(pc)
    ensures Room(world, pc, limit, slack)
  {
  }

  lemma SendRoomy(cfg: Config, job: Job, world: World, s: Surroundings, limit: int, slack: nat, bound: nat)
    requires Room(world, Send(job), limit, slack) && limit + slack <= bound
    ensures StaysRoomy(StepSend(cfg, job, world, s), limit, slack, bound)
  {
    hide Placed, AfterReply, Entered;
    var pending := job.request.orderType != Market;
    var (next, after) := StepSend(cfg, job, world, s);
    PlacedAddsOne(cfg.symbols, s.calls(0), world.book, job.request, pending, {});
    ReplyPast(job, Placed(cfg.symbols, s.calls(0), world.book, job.request, pending).1);
    PastRoomy(after, next, limit, slack);
  }

  lemma EntryStepRoomy(cfg: Config, pc: Pc, world: World, s: Surroundings, slack: nat, bound: nat)
    requires !Past(pc) && Room(world, pc, cfg.limits.maximumOpenPositions, slack)
    requires |world.book.positions| <= bound && cfg.limits.maximumOpenPositions + slack <= bound
    ensures StaysRoomy(Step(cfg, pc, world, s), cfg.limits.maximumOpenPositions, slack, bound)
  {
    hide StepStart, StepLookup, StepReadPositions, StepReadOrders, StepClaim, StepCheck, StepMarkSubmitted, StepSend,
         StaysRoomy;
    var limit := cfg.limits.maximumOpenPositions;
    match pc
    case Start(command) => StartRoomy(cfg, command, world, s, limit, slack, bound);
    case Lookup(p) => ReadsRoomy(p, world, s, limit, slack, bound);
    case ReadPositions(p) => ReadsRoomy(p, world, s, limit, slack, bound);
    case ReadOrders(p, positions) => GatesRoomy(cfg, p, positions, world, s, slack, bound);
    case Claim(p, risk) => ClaimRoomy(p, risk, world, limit, slack, bound);
    case CheckOrder(job) => OwnedRoomy(cfg, job, world, s, limit, slack, bound);
    case MarkSubmitted(job) => OwnedRoomy(cfg, job, world, s, limit, slack, bound);
    case Send(job) => SendRoomy(cfg, job, world, s, limit, slack, bound);
  }

  lemma StepRoomy(cfg: Config, pc: Pc, world: World, s: Surroundings, slack: nat, bound: nat)
    requires Room(world, pc, cfg.limits.maximumOpenPositions, slack)
    requires |world.book.positions| <= bound && cfg.limits.maximumOpenPositions + slack <= bound
    ensures StaysRoomy(Step(cfg, pc, world, s), cfg.limits.maximumOpenPositions, slack, bound)
  {
    if Past(pc) {
      hide Step, Entered, Room;
      PastStep(cfg, pc, world, s, {});
      PastRoomy(Step(cfg, pc, world, s).1, Step(cfg, pc, world, s).0, cfg.limits.maximumOpenPositions, slack);
    } else {
      EntryStepRoomy(cfg, pc, world, s, slack, bound);
    }
  }

  /** The positions the market opens of its own accord, such as by filling pending orders. */
  function Opened(cfg: Config, book: Book, events: seq<Event>): nat {
    if events == [] then 0
    else
      var before, event := events[..|events| - 1], events[|events| - 1];
      Opened(cfg, book, before)
      + if event.Outside? then Rise(|Ran(cfg, book, before).world.book.positions|, |event.positions|) else 0
  }

  ghost predicate RoomOk(sys: System, limit: int, slack: nat, bound: nat) {
    && |sys.world.book.positions| <= bound
    && forall i :: 0 <= i < |sys.procs| ==> Room(sys.world, sys.procs[i], limit, slack)
  }

  lemma IdleRoomy(world: World, pc: Pc, limit: int, slack: nat)
    requires !Active(pc)
    ensures Room(world, pc, limit, slack)
  {
  }

  lemma MorePositionsRoomy(before: World, after: World, pc: Pc, limit: int, slack: nat, more: nat)
    requires Room(before, pc, limit, slack) && |after.book.positions| <= |before.book.positions| + more
    ensures Room(after, pc, limit, slack + more)
  {
  }

  lemma RoomAdvance(cfg: Config, sys: System, event: Event, slack: nat, bound: nat, more: nat)
    requires SerialOk(sys) && RoomOk(sys, cfg.limits.maximumOpenPositions, slack, bound)
    requires cfg.limits.maximumOpenPositions + slack <= bound
    requires more == if event.Outside? then Rise(|sys.world.book.positions|, |event.positions|) else 0
    ensures RoomOk(Advance(cfg, sys, event), cfg.limits.maximumOpenPositions, slack + more, bound + more)
  {
    hide Step, Room, Fits;
    var after, limit := Advance(cfg, sys, event), cfg.limits.maximumOpenPositions;
    if event.StepOf? && event.i < |sys.procs| {
      StepRoomy(cfg, sys.procs[event.i], sys.world, event.s, slack, bound);
      InactiveStays(cfg, sys.procs[event.i], sys.world, event.s);
      forall j | 0 <= j < |sys.procs| && j != event.i
        ensures Room(after.world, sys.procs[j], limit, slack)
      {
        if Active(sys.procs[event.i]) {
          IdleRoomy(after.world, sys.procs[j], limit, slack);
        }
      }
    } else {
      forall j | 0 <= j < |sys.procs|
        ensures Room(after.world, sys.procs[j], limit, slack + more)
      {
        MorePositionsRoomy(sys.world, after.world, sys.procs[j], limit, slack, more);
      }
      NewProcessRoomy(after.world, event, limit, slack + more);
    }
  }

  lemma NewProcessRoomy(world: World, event: Event, limit: int, slack: nat)
    ensures Room(world, Crashed, limit, slack)
    ensures event.Execute? ==> Room(world, Start(event.command), limit, slack)
    ensures event.Reconcile? ==> Room(world, FindRecord(event.key), limit, slack)
  {
  }

  lemma {:induction false} RoomRun(cfg: Config, book: Book, events: seq<Event>, bound: nat)
    requires Fresh(book) && Serial(cfg, book, events)
    requires |book.positions| <= bound && cfg.limits.maximumOpenPositions <= bound
    ensures var fills := Opened(cfg, book, events);
            RoomOk(Ran(cfg, book, events), cfg.limits.maximumOpenPositions, fills, bound + fills)
  {
    if events == [] {
      assert Ran(cfg, book, events).procs == [];
    } else {
      var before, event := events[..|events| - 1], events[|events| - 1];
      RoomRun(cfg, book, before, bound);
      SerialRunOk(cfg, book, before);
      hide RoomOk, Advance, SerialOk, Rise;
      var sys, fills := Ran(cfg, book, before), Opened(cfg, book, before);
      var more := if event.Outside? then Rise(|sys.world.book.positions|, |event.positions|) else 0;
      RoomAdvance(cfg, sys, event, fills, bound + fills, more);
    }
  }

  /**
   * Over every serialized run the open positions, on any symbol, never pass the configured maximum, or the number there
   * were at the start, by more than the market itself fills.
   */
  lemma PositionsBounded(cfg: Config, book: Book, events: seq<Event>)
    requires Fresh(book) && Serial(cfg, book, events)
    ensures var limit := cfg.limits.maximumOpenPositions;
            |Ran(cfg, book, events).world.book.positions|
            <= (if |book.positions| > limit then |book.positions| else limit) + Opened(cfg, book, events)
  {
    hide Ran, Opened, Serial;
    var limit := cfg.limits.maximumOpenPositions;
    RoomRun(cfg, book, events, if |book.positions| > limit then |book.positions| else limit);
  }
}
