/** Any number of executors over one store and one broker, with crashes and lost replies. */
module Interleaving {
  import opened Domain
  import opened Trading
  import opened MockBroker
  import opened Idempotency
  import opened Gates
  import opened Execution

  datatype System = System(world: World, procs: seq<Pc>)

  /** `Outside` is whatever the market does at the broker: fills, closes, new prices and scripted failures. */
  datatype Event =
    | Execute(command: Command)
    | Reconcile(key: string)
    | StepOf(i: nat, s: Surroundings)
    | Crash(i: nat)
    | Outside(positions: seq<Position>, orders: seq<Order>, behaviors: seq<SendBehavior>)

  function Advance(cfg: Config, sys: System, event: Event): System {
    match event
    case Execute(command) => sys.(procs := sys.procs + [Start(command)])
    case Reconcile(key) => sys.(procs := sys.procs + [FindRecord(key)])
    case StepOf(i, s) =>
      if i >= |sys.procs| then sys
      else
        var (pc, world) := Step(cfg, sys.procs[i], sys.world, s);
        System(world, sys.procs[i := pc])
    case Crash(i) => if i < |sys.procs| && Active(sys.procs[i]) then sys.(procs := sys.procs[i := Crashed]) else sys
    case Outside(positions, orders, behaviors) =>
      sys.(world := sys.world.(book :=
                               sys.world.book.(positions := positions, orders := orders, behaviors := behaviors)))
  }

  /** A broker that has not yet been sent anything, and an empty store. */
  predicate Fresh(book: Book) {
    book.reports == map[] && book.sendCalls == 0
  }

  function Ran(cfg: Config, book: Book, events: seq<Event>): System {
    if events == [] then System(World(map[], book, []), [])
    else Advance(cfg, Ran(cfg, book, events[..|events| - 1]), events[|events| - 1])
  }

  // ---------------------------------------------------------------------------
  // The invariant
  // ---------------------------------------------------------------------------

  ghost predicate NoRepeats(keys: seq<string>) {
    forall i, j :: 0 <= i < j < |keys| ==> keys[i] != keys[j]
  }

  /**
   * Every key sent is recorded past its claim, and every key the broker accepted was sent and is not recorded as
   * rejected.
   */
  ghost predicate WorldOk(world: World) {
    && RecordsOk(world.records)
    && NoRepeats(world.sends) && world.book.sendCalls == |world.sends|
    && (forall key :: key in world.sends ==> key in world.records && world.records[key].status != Claimed)
    && (forall key :: key in world.book.reports ==>
          key in world.sends && key in world.records && world.records[key].status != RecordStatus.Rejected)
  }

  predicate Owns(pc: Pc) {
    pc.CheckOrder? || pc.MarkCheckRejected? || pc.MarkSubmitted? || pc.Send?
  }

  function OwnedKey(pc: Pc): string
    requires Owns(pc)
  {
    pc.job.request.key
  }

  /** What a process may rely on, whatever the others do. */
  predicate PcOk(world: World, pc: Pc) {
    match pc
    case CheckOrder(job) => Held(world, job.request.key)
    case MarkCheckRejected(job, _) => Held(world, job.request.key)
    case MarkSubmitted(job) => Held(world, job.request.key)
    case Send(job) =>
      var key := job.request.key;
      key in world.records && world.records[key].status !in {Claimed, RecordStatus.Rejected} && key !in world.sends
    case Mark(key, status, _, _, _) =>
      && status in {Succeeded, ProtectionFailed, Unknown, RecordStatus.Rejected}
      && (status == RecordStatus.Rejected ==> key in world.sends && key !in world.book.reports)
    case _ => true
  }

  predicate Held(world: World, key: string) {
    key in world.records && world.records[key].status == Claimed && key !in world.sends
  }

  predicate Exclusive(a: Pc, b: Pc) {
    Owns(a) && Owns(b) ==> OwnedKey(a) != OwnedKey(b)
  }

  ghost predicate SystemOk(sys: System) {
    && WorldOk(sys.world)
    && (forall i :: 0 <= i < |sys.procs| ==> PcOk(sys.world, sys.procs[i]))
    && (forall i, j :: 0 <= i < j < |sys.procs| ==> Exclusive(sys.procs[i], sys.procs[j]))
  }

  // ---------------------------------------------------------------------------
  // What each kind of step does to the shared state
  // ---------------------------------------------------------------------------

  /** The part of the world the invariant speaks about did not change. */
  predicate Untouched(before: World, after: World) {
    after.records == before.records && after.sends == before.sends && after.book.reports == before.book.reports
    && after.book.sendCalls == before.book.sendCalls
  }

  predicate Writes(pc: Pc) {
    pc.Claim? || pc.MarkCheckRejected? || pc.MarkSubmitted? || pc.Send? || pc.Mark?
  }

  lemma SettledIsFinal(w: Watch, protected: bool, reason: string, world: World)
    ensures var pc := Settled(w, protected, reason); PcOk(world, pc) && !Owns(pc) && pc.Mark?
  {
  }

  /** A step that writes nothing the invariant speaks about and ends outside the owned part of the protocol. */
  predicate Harmless(before: World, result: (Pc, World)) {
    Untouched(before, result.1) && PcOk(result.1, result.0) && !Owns(result.0)
  }

  lemma LookHarmless(cfg: Config, w: Watch, attempt: nat, world: World, s: Surroundings)
    ensures Harmless(world, StepLook(cfg, w, attempt, world, s))
  {
    hide FirstFill, Settled, OnSymbol, Protects;
    SettledIsFinal(w, true, VERIFIED, world);
    SettledIsFinal(w, false, NOT_VISIBLE, world);
  }

  lemma RepairHarmless(w: Watch, ticket: string, world: World, s: Surroundings)
    ensures Harmless(world, StepRepair(w, ticket, world, s))
  {
    hide Find, Put, Settled;
    SettledIsFinal(w, true, REPAIRED, StepRepair(w, ticket, world, s).1);
  }

  lemma SafeCloseHarmless(w: Watch, ticket: string, world: World, s: Surroundings)
    ensures Harmless(world, StepSafeClose(w, ticket, world, s))
  {
    hide Find, Put, Without, Settled;
    var after := StepSafeClose(w, ticket, world, s).1;
    SettledIsFinal(w, false, UNCONFIRMED, after);
    SettledIsFinal(w, false, SAFELY_CLOSED, after);
    SettledIsFinal(w, false, CLOSE_FAILED, after);
  }

  lemma StartHarmless(cfg: Config, command: Command, world: World, s: Surroundings)
    ensures Harmless(world, StepStart(cfg, command, world, s))
  {
    hide Prepare;
  }

  lemma ReadsHarmless(cfg: Config, p: Prepared, positions: seq<Position>, world: World, s: Surroundings)
    ensures Harmless(world, StepLookup(p, world)) && Harmless(world, StepReadPositions(p, world, s))
    ensures Harmless(world, StepReadOrders(cfg, p, positions, world, s))
  {
    hide Decide, Replay, Block;
  }

  lemma FindHarmless(key: string, world: World)
    ensures Harmless(world, StepFindRecord(key, world))
  {
    hide Replay, Block;
  }

  lemma MatchHarmless(cfg: Config, record: Record, positions: seq<Position>, world: World, s: Surroundings)
    ensures Harmless(world, StepMatchPositions(record, world, s))
    ensures Harmless(world, StepMatchOrders(cfg, record, positions, world, s))
  {
    hide FirstPosition, FirstOrder, OnSymbol, OrdersOnSymbol;
  }

  lemma CheckKeepsClaim(cfg: Config, job: Job, world: World, s: Surroundings)
    requires Held(world, job.request.key)
    ensures var (next, after) := StepCheck(cfg, job, world, s);
            && Untouched(world, after) && PcOk(after, next) && (Owns(next) ==> OwnedKey(next) == job.request.key)
  {
    hide Validated, AfterMove;
  }

  /** Steps that write nothing the invariant speaks about; an owner keeps its key. */
  lemma QuietStep(cfg: Config, pc: Pc, world: World, s: Surroundings)
    requires !Writes(pc) && PcOk(world, pc)
    ensures var (next, after) := Step(cfg, pc, world, s);
            && Untouched(world, after) && PcOk(after, next)
            && (Owns(next) ==> Owns(pc) && OwnedKey(next) == OwnedKey(pc))
  {
    hide StepStart, StepLookup, StepReadPositions, StepReadOrders, StepCheck, StepLook, StepRepair, StepSafeClose,
         StepFindRecord, StepMatchPositions, StepMatchOrders;
    match pc
    case Start(command) => StartHarmless(cfg, command, world, s);
    case Lookup(p) => ReadsHarmless(cfg, p, [], world, s);
    case ReadPositions(p) => ReadsHarmless(cfg, p, [], world, s);
    case ReadOrders(p, positions) => ReadsHarmless(cfg, p, positions, world, s);
    case CheckOrder(job) => CheckKeepsClaim(cfg, job, world, s);
    case Look(w, attempt) => LookHarmless(cfg, w, attempt, world, s);
    case Repair(w, ticket) => RepairHarmless(w, ticket, world, s);
    case SafeClose(w, ticket) => SafeCloseHarmless(w, ticket, world, s);
    case FindRecord(key) => FindHarmless(key, world);
    case MatchPositions(record) => MatchHarmless(cfg, record, [], world, s);
    case MatchOrders(record, positions) => MatchHarmless(cfg, record, positions, world, s);
    case _ =>
  }

  // ---------------------------------------------------------------------------
  // The writing steps
  // ---------------------------------------------------------------------------

  lemma ClaimStep(p: Prepared, risk: Decision, world: World, other: Pc)
    requires WorldOk(world) && PcOk(world, other)
    ensures var (next, after) := StepClaim(p, risk, world);
            WorldOk(after) && PcOk(after, next) && PcOk(after, other) && Exclusive(next, other)
            && Extends(world.records, after.records)
  {
    hide AfterMove, RecordsOk, Replay, NewRecord, Extends;
    if p.request.key !in world.records {
      ClaimKeeps(world.records, p.request, p.now);
      assert NewRecord(p.request, p.now).status == Claimed by {
        NewIsClaimed(p.request, p.now);
      }
    } else {
      ExtendsItself(world.records);
    }
  }

  lemma NewIsClaimed(request: OrderRequest, now: Time)
    ensures NewRecord(request, now).status == Claimed
  {
  }

  lemma ExtendsItself(records: Records)
    ensures Extends(records, records)
  {
  }

  /** Moving one record along the table, when the sends and the broker's reports stay as they are. */
  ghost predicate Moves(world: World, after: World, key: string, status: RecordStatus) {
    && key in world.records && status in Successors(world.records[key].status)
    && after.records.Keys == world.records.Keys && after.records[key].status == status
    && (forall k :: k in world.records && k != key ==> after.records[k] == world.records[k])
    && after.sends == world.sends && after.book == world.book
    && RecordsOk(after.records) && Extends(world.records, after.records)
  }

  /** What the store does with an update, as a relation between worlds. */
  lemma UpdateMoves(world: World, key: string, status: RecordStatus, now: Time, report: Option<Report>, reason: string)
    requires RecordsOk(world.records) && Updated(world.records, key, status, now, report, reason).Ok?
    ensures Moves(world, world.(records := Updated(world.records, key, status, now, report, reason).value), key, status)
    ensures Extends(world.records, Updated(world.records, key, status, now, report, reason).value)
  {
    UpdateKeeps(world.records, key, status, now, report, reason);
    hide RecordsOk, Extends;
  }

  /**
   * A record that is claimed moves only by its owner, and one past its claim is never marked rejected once accepted.
   */
  lemma MoveKeepsWorld(world: World, after: World, key: string, status: RecordStatus)
    requires WorldOk(world) && Moves(world, after, key, status)
    requires status == RecordStatus.Rejected ==> key !in world.book.reports
    ensures WorldOk(after)
  {
    hide RecordsOk, Extends;
  }

  lemma MoveKeepsOthers(world: World, after: World, key: string, status: RecordStatus, other: Pc)
    requires Moves(world, after, key, status) && PcOk(world, other)
    requires Owns(other) && OwnedKey(other) == key ==>
               status !in {Submitted, RecordStatus.Rejected}
    ensures PcOk(after, other)
  {
    hide RecordsOk, Extends;
  }

  lemma MarkCheckRejectedStep(job: Job, reasons: seq<string>, world: World, other: Pc)
    requires WorldOk(world) && Held(world, job.request.key) && PcOk(world, other)
    requires Owns(other) ==> OwnedKey(other) != job.request.key
    ensures var (next, after) := StepMarkCheckRejected(job, reasons, world);
            WorldOk(after) && PcOk(after, next) && PcOk(after, other) && !Owns(next)
            && Extends(world.records, after.records)
  {
    hide AfterMove, Joined, WorldOk, Extends, Moves;
    var updated := Updated(world.records, job.request.key, RecordStatus.Rejected, job.now, None, Joined(reasons));
    hide Updated;
    WorldRecords(world);
    if updated.Ok? {
      UpdateMoves(world, job.request.key, RecordStatus.Rejected, job.now, None, Joined(reasons));
      MoveKeepsWorld(world, world.(records := updated.value), job.request.key, RecordStatus.Rejected);
      MoveKeepsOthers(world, world.(records := updated.value), job.request.key, RecordStatus.Rejected, other);
    } else {
      ExtendsItself(world.records);
    }
  }

  lemma WorldRecords(world: World)
    requires WorldOk(world)
    ensures RecordsOk(world.records)
    ensures forall key :: key in world.book.reports ==> key in world.sends
  {
  }

  lemma MarkSubmittedStep(job: Job, world: World, other: Pc)
    requires WorldOk(world) && Held(world, job.request.key) && PcOk(world, other)
    requires Owns(other) ==> OwnedKey(other) != job.request.key
    ensures var (next, after) := StepMarkSubmitted(job, world);
            && WorldOk(after) && PcOk(after, next) && PcOk(after, other) && Extends(world.records, after.records)
            && next == Send(job)
  {
    hide WorldOk, Extends;
    var key, note := job.request.key, "order_send started";
    var updated := Updated(world.records, key, Submitted, job.now, None, note);
    assert updated.Ok?;
    hide Updated;
    WorldRecords(world);
    UpdateMoves(world, key, Submitted, job.now, None, note);
    var after := world.(records := updated.value);
    assert after.records[key].status == Submitted;
    hide Moves;
    MoveKeepsWorld(world, after, key, Submitted);
    MoveKeepsOthers(world, after, key, Submitted, other);
  }

  lemma MarkStep(key: string, status: RecordStatus, report: Option<Report>, reason: string, ending: Ending,
                 world: World, s: Surroundings, other: Pc)
    requires WorldOk(world) && PcOk(world, Mark(key, status, report, reason, ending)) && PcOk(world, other)
    ensures var (next, after) := StepMark(key, status, report, reason, ending, world, s);
            WorldOk(after) && PcOk(after, next) && PcOk(after, other) && !Owns(next)
            && Extends(world.records, after.records)
  {
    MarkShape(key, status, report, reason, ending, world, s);
    hide WorldOk, Extends, StepMark;
    var updated := Updated(world.records, key, status, s.clock, report, reason);
    WorldRecords(world);
    if updated.Ok? {
      OwnerUnmoved(key, status, report, reason, ending, world, s, other);
      hide Updated;
      UpdateMoves(world, key, status, s.clock, report, reason);
      hide Moves;
      var after := world.(records := updated.value);
      MoveKeepsWorld(world, after, key, status);
      MoveKeepsOthers(world, after, key, status, other);
    } else {
      ExtendsItself(world.records);
    }
  }

  lemma MarkShape(key: string, status: RecordStatus, report: Option<Report>, reason: string, ending: Ending,
                  world: World, s: Surroundings)
    ensures var (next, after) := StepMark(key, status, report, reason, ending, world, s);
            var updated := Updated(world.records, key, status, s.clock, report, reason);
            && (next.Finished? || next.Refused?)
            && after == if updated.Ok? then world.(records := updated.value) else world
  {
    hide AfterMove, Replay, Updated;
  }

  /** No other process moves a record out of its claim, or rejects it while its owner is about to send. */
  lemma OwnerUnmoved(key: string, status: RecordStatus, report: Option<Report>, reason: string, ending: Ending,
                     world: World, s: Surroundings, other: Pc)
    requires PcOk(world, Mark(key, status, report, reason, ending)) && PcOk(world, other)
    requires Updated(world.records, key, status, s.clock, report, reason).Ok?
    ensures Owns(other) && OwnedKey(other) == key ==> status !in {Submitted, RecordStatus.Rejected}
  {
  }

  /** The broker books a key at most when it replies with success or loses the reply, never when it refuses. */
  lemma PlacedFacts(symbols: map<string, Spec>, env: Conditions, book: Book, request: OrderRequest, pending: bool)
    requires request.key !in book.reports
    ensures var (after, reply) := Placed(symbols, env, book, request, pending);
            && after.sendCalls == book.sendCalls + 1
            && (forall key :: key in after.reports ==> key in book.reports || key == request.key)
            && (reply.Replied? && !reply.report.success ==> after.reports == book.reports)
  {
    hide Validated, Put, PutOrder, OrderPrice, TicketText, Joined;
  }

  lemma AfterReplyOk(job: Job, reply: Reply, world: World)
    requires job.request.key in world.sends
    requires reply.Replied? && !reply.report.success ==> job.request.key !in world.book.reports
    ensures PcOk(world, AfterReply(job, reply)) && !Owns(AfterReply(job, reply))
  {
    hide AfterMove;
  }

  lemma SendStep(cfg: Config, job: Job, world: World, s: Surroundings, other: Pc)
    requires WorldOk(world) && PcOk(world, Send(job)) && PcOk(world, other)
    requires Owns(other) ==> OwnedKey(other) != job.request.key
    ensures var (next, after) := StepSend(cfg, job, world, s);
            WorldOk(after) && PcOk(after, next) && PcOk(after, other) && !Owns(next)
            && Extends(world.records, after.records)
  {
    var (book, reply) := Placed(cfg.symbols, s.calls(0), world.book, job.request, job.request.orderType != Market);
    var after := world.(book := book, sends := world.sends + [job.request.key]);
    UnsentUnreported(world, job.request.key);
    PlacedFacts(cfg.symbols, s.calls(0), world.book, job.request, job.request.orderType != Market);
    hide Placed, AfterReply;
    SentKeepsWorld(world, book, job.request.key);
    SentKeepsOthers(world, book, job.request.key, other);
    hide WorldOk, Extends;
    AfterReplyOk(job, reply, after);
    ExtendsItself(world.records);
  }

  lemma UnsentUnreported(world: World, key: string)
    requires WorldOk(world) && key !in world.sends
    ensures key !in world.book.reports
  {
  }

  lemma SentKeepsWorld(world: World, book: Book, key: string)
    requires WorldOk(world) && key !in world.sends && book.sendCalls == world.book.sendCalls + 1
    requires key in world.records && world.records[key].status !in {Claimed, RecordStatus.Rejected}
    requires forall k :: k in book.reports ==> k in world.book.reports || k == key
    ensures WorldOk(world.(book := book, sends := world.sends + [key]))
  {
    hide RecordsOk;
  }

  lemma SentKeepsOthers(world: World, book: Book, key: string, other: Pc)
    requires key !in world.sends && PcOk(world, other)
    requires Owns(other) ==> OwnedKey(other) != key
    requires forall k :: k in book.reports ==> k in world.book.reports || k == key
    ensures PcOk(world.(book := book, sends := world.sends + [key]), other)
  {
  }

  // ---------------------------------------------------------------------------
  // Every run
  // ---------------------------------------------------------------------------

  /**
   * What one step by one process leaves intact: the world, itself, any other process, and the history of every record.
   */
  ghost predicate StepKeeps(pc: Pc, world: World, result: (Pc, World), other: Pc) {
    && WorldOk(result.1) && PcOk(result.1, result.0) && PcOk(result.1, other) && Exclusive(result.0, other)
    && Extends(world.records, result.1.records)
  }

  lemma UntouchedKeeps(world: World, after: World, other: Pc)
    requires WorldOk(world) && PcOk(world, other) && Untouched(world, after)
    ensures WorldOk(after) && PcOk(after, other) && Extends(world.records, after.records)
  {
    ExtendsItself(world.records);
  }

  lemma StepOk(cfg: Config, pc: Pc, world: World, s: Surroundings, other: Pc)
    requires WorldOk(world) && PcOk(world, pc) && PcOk(world, other) && Exclusive(pc, other)
    ensures StepKeeps(pc, world, Step(cfg, pc, world, s), other)
  {
    hide WorldOk, Extends, StepClaim, StepMarkCheckRejected, StepMarkSubmitted, StepSend, StepMark;
    if Writes(pc) {
      match pc
      case Claim(p, risk) => ClaimStep(p, risk, world, other);
      case MarkCheckRejected(job, reasons) => MarkCheckRejectedStep(job, reasons, world, other);
      case MarkSubmitted(job) => MarkSubmittedStep(job, world, other);
      case Send(job) => SendStep(cfg, job, world, s, other);
      case Mark(key, status, report, reason, ending) => MarkStep(key, status, report, reason, ending, world, s, other);
    } else {
      QuietStep(cfg, pc, world, s);
      hide Step;
      var (next, after) := Step(cfg, pc, world, s);
      UntouchedKeeps(world, after, other);
    }
  }

  lemma ProcessStepOk(cfg: Config, sys: System, i: nat, s: Surroundings)
    requires SystemOk(sys) && i < |sys.procs|
    ensures SystemOk(Advance(cfg, sys, StepOf(i, s)))
    ensures Extends(sys.world.records, Advance(cfg, sys, StepOf(i, s)).world.records)
  {
    var procs := sys.procs;
    var result := Step(cfg, procs[i], sys.world, s);
    hide Step, WorldOk, PcOk, Extends;
    assert Exclusive(Crashed, procs[i]) && Exclusive(procs[i], Crashed);
    hide Exclusive;
    assert PcOk(sys.world, Crashed) by {
      CrashedOk(sys.world);
    }
    StepOk(cfg, procs[i], sys.world, s, Crashed);
    forall j | 0 <= j < |procs| && j != i
      ensures StepKeeps(procs[i], sys.world, result, procs[j])
    {
      ExclusiveSymmetric(procs[i], procs[j]);
      StepOk(cfg, procs[i], sys.world, s, procs[j]);
    }
    var after := procs[i := result.0];
    forall j, k | 0 <= j < k < |after|
      ensures Exclusive(after[j], after[k])
    {
      ExclusiveSymmetric(result.0, procs[j]);
    }
  }

  lemma CrashedOk(world: World)
    ensures PcOk(world, Crashed)
  {
  }

  lemma ExclusiveSymmetric(a: Pc, b: Pc)
    ensures Exclusive(a, b) == Exclusive(b, a)
  {
  }

  lemma AdvanceOk(cfg: Config, sys: System, event: Event)
    requires SystemOk(sys)
    ensures SystemOk(Advance(cfg, sys, event))
    ensures Extends(sys.world.records, Advance(cfg, sys, event).world.records)
  {
    if event.StepOf? && event.i < |sys.procs| {
      ProcessStepOk(cfg, sys, event.i, event.s);
    } else {
      hide Step;
      var after := Advance(cfg, sys, event);
      assert Untouched(sys.world, after.world);
      forall j | 0 <= j < |sys.procs|
        ensures PcOk(after.world, sys.procs[j])
      {
        UntouchedKeeps(sys.world, after.world, sys.procs[j]);
      }
      UntouchedKeeps(sys.world, after.world, Crashed);
      hide WorldOk, Extends, PcOk;
      assert PcOk(after.world, Crashed) by {
        CrashedOk(after.world);
      }
      NewProcessOk(after.world, event);
    }
  }

  lemma NewProcessOk(world: World, event: Event)
    ensures event.Execute? ==> PcOk(world, Start(event.command))
    ensures event.Reconcile? ==> PcOk(world, FindRecord(event.key))
  {
  }

  lemma {:induction false} RunOk(cfg: Config, book: Book, events: seq<Event>)
    requires Fresh(book)
    ensures SystemOk(Ran(cfg, book, events))
  {
    if events == [] {
      assert Ran(cfg, book, events).procs == [];
    } else {
      RunOk(cfg, book, events[..|events| - 1]);
      hide SystemOk, Advance;
      AdvanceOk(cfg, Ran(cfg, book, events[..|events| - 1]), events[|events| - 1]);
    }
  }

  /**
   * However many processes run, interleave, crash and repeat, and whatever replies are lost, no key is ever given to
   * the broker's place operation twice.
   */
  lemma AtMostOneSend(cfg: Config, book: Book, events: seq<Event>)
    requires Fresh(book)
    ensures var world := Ran(cfg, book, events).world;
            NoRepeats(world.sends) && world.book.sendCalls == |world.sends|
  {
    RunOk(cfg, book, events);
    hide Ran;
  }

  /** An order the broker accepted always has a record, and that record never says it was not sent or was rejected. */
  lemma AcceptedNeverRejected(cfg: Config, book: Book, events: seq<Event>, key: string)
    requires Fresh(book) && key in Ran(cfg, book, events).world.book.reports
    ensures var world := Ran(cfg, book, events).world;
            key in world.sends && key in world.records && world.records[key].status !in {Claimed, RecordStatus.Rejected}
  {
    RunOk(cfg, book, events);
    hide Ran;
  }

  /** Over every run a record keeps its request, its version never passes 4, and a final status never changes. */
  lemma {:induction false} RecordsOnlyMoveForward(cfg: Config, book: Book, events: seq<Event>, n: nat)
    requires Fresh(book) && n <= |events|
    ensures Extends(Ran(cfg, book, events[..n]).world.records, Ran(cfg, book, events).world.records)
    ensures RecordsOk(Ran(cfg, book, events).world.records)
    decreases |events|
  {
    RunOk(cfg, book, events);
    if n == |events| {
      assert events[..n] == events;
      ExtendsItself(Ran(cfg, book, events).world.records);
    } else {
      var last := |events| - 1;
      RecordsOnlyMoveForward(cfg, book, events[..last], n);
      assert events[..last][..n] == events[..n];
      RunOk(cfg, book, events[..last]);
      hide Advance, SystemOk;
      var before := Ran(cfg, book, events[..last]);
      AdvanceOk(cfg, before, events[last]);
      hide Extends;
      ExtendsComposes(Ran(cfg, book, events[..n]).world.records, before.world.records,
                      Advance(cfg, before, events[last]).world.records);
    }
  }

  /** Even among other processes, the owner of a claim is never refused the mark that precedes its send. */
  lemma SubmitNeverRefused(cfg: Config, book: Book, events: seq<Event>, i: nat, s: Surroundings)
    requires Fresh(book) && i < |Ran(cfg, book, events).procs| && Ran(cfg, book, events).procs[i].MarkSubmitted?
    ensures Ran(cfg, book, events + [StepOf(i, s)]).procs[i] == Send(Ran(cfg, book, events).procs[i].job)
  {
    RunOk(cfg, book, events);
    var sys := Ran(cfg, book, events);
    assert (events + [StepOf(i, s)])[..|events|] == events;
    hide WorldOk;
    assert PcOk(sys.world, sys.procs[i]);
    assert PcOk(sys.world, Crashed);
    MarkSubmittedStep(sys.procs[i].job, sys.world, Crashed);
    hide StepMarkSubmitted;
  }

  // ---------------------------------------------------------------------------
  // Every process ends
  // ---------------------------------------------------------------------------

  /** An upper bound on the steps a process has left. */
  function StepsLeft(cfg: Config, pc: Pc): nat {
    match pc
    case Start(_) => 13 + cfg.attempts
    case Lookup(_) => 12 + cfg.attempts
    case ReadPositions(_) => 11 + cfg.attempts
    case ReadOrders(_, _) => 10 + cfg.attempts
    case Claim(_, _) => 9 + cfg.attempts
    case CheckOrder(_) => 8 + cfg.attempts
    case MarkSubmitted(_) => 7 + cfg.attempts
    case Send(_) => 6 + cfg.attempts
    case FindRecord(_) => 8 + cfg.attempts
    case MatchPositions(_) => 7 + cfg.attempts
    case MatchOrders(_, _) => 6 + cfg.attempts
    case Look(_, attempt) => if attempt < cfg.attempts then 4 + cfg.attempts - attempt else 4
    case Repair(_, _) => 3
    case SafeClose(_, _) => 2
    case Mark(_, _, _, _, _) => 1
    case MarkCheckRejected(_, _) => 1
    case _ => 0
  }

  lemma SettledLeft(cfg: Config, w: Watch, protected: bool, reason: string)
    ensures StepsLeft(cfg, Settled(w, protected, reason)) == 1
  {
  }

  lemma ProtectionLeft(cfg: Config, w: Watch, attempt: nat, ticket: string, world: World, s: Surroundings)
    ensures StepsLeft(cfg, StepLook(cfg, w, attempt, world, s).0) < StepsLeft(cfg, Look(w, attempt))
    ensures StepsLeft(cfg, StepRepair(w, ticket, world, s).0) < 3
    ensures StepsLeft(cfg, StepSafeClose(w, ticket, world, s).0) < 2
  {
    hide FirstFill, Modified, MockBroker.Closed, OnSymbol, Protects, Settled;
    SettledLeft(cfg, w, true, VERIFIED);
    SettledLeft(cfg, w, true, REPAIRED);
    SettledLeft(cfg, w, false, NOT_VISIBLE);
    SettledLeft(cfg, w, false, UNCONFIRMED);
    SettledLeft(cfg, w, false, SAFELY_CLOSED);
    SettledLeft(cfg, w, false, CLOSE_FAILED);
  }

  lemma StartLeft(cfg: Config, command: Command, world: World, s: Surroundings)
    ensures StepsLeft(cfg, StepStart(cfg, command, world, s).0) < 13 + cfg.attempts
  {
    hide Prepare;
  }

  lemma ReadLeft(cfg: Config, p: Prepared, positions: seq<Position>, world: World, s: Surroundings)
    ensures StepsLeft(cfg, StepLookup(p, world).0) < 12 + cfg.attempts
    ensures StepsLeft(cfg, StepReadPositions(p, world, s).0) < 11 + cfg.attempts
    ensures StepsLeft(cfg, StepReadOrders(cfg, p, positions, world, s).0) < 10 + cfg.attempts
  {
    hide Decide, Replay, Block;
  }

  lemma ClaimLeft(cfg: Config, p: Prepared, risk: Decision, world: World)
    ensures StepsLeft(cfg, StepClaim(p, risk, world).0) < 9 + cfg.attempts
  {
    hide Replay, AfterMove, NewRecord;
  }

  lemma OwnedLeft(cfg: Config, job: Job, reasons: seq<string>, world: World, s: Surroundings)
    ensures StepsLeft(cfg, StepCheck(cfg, job, world, s).0) < 8 + cfg.attempts
    ensures StepsLeft(cfg, StepMarkCheckRejected(job, reasons, world).0) == 0
    ensures StepsLeft(cfg, StepMarkSubmitted(job, world).0) < 7 + cfg.attempts
  {
    hide Validated, AfterMove, Updated, Joined;
  }

  lemma SendLeft(cfg: Config, job: Job, reply: Reply)
    ensures StepsLeft(cfg, AfterReply(job, reply)) < 6 + cfg.attempts
  {
    hide AfterMove;
  }

  lemma FindLeft(cfg: Config, key: string, world: World)
    ensures StepsLeft(cfg, StepFindRecord(key, world).0) < 8 + cfg.attempts
  {
    hide Replay, Block;
  }

  lemma MatchLeft(cfg: Config, record: Record, positions: seq<Position>, world: World, s: Surroundings)
    ensures StepsLeft(cfg, StepMatchPositions(record, world, s).0) < 7 + cfg.attempts
    ensures StepsLeft(cfg, StepMatchOrders(cfg, record, positions, world, s).0) < 6 + cfg.attempts
  {
    hide FirstPosition, FirstOrder, OnSymbol, OrdersOnSymbol;
  }

  /** Each step of a process brings it nearer its end, so none takes more than 13 plus the visibility attempts. */
  lemma EveryProcessEnds(cfg: Config, pc: Pc, world: World, s: Surroundings)
    requires Active(pc)
    ensures StepsLeft(cfg, Step(cfg, pc, world, s).0) < StepsLeft(cfg, pc) <= 13 + cfg.attempts
  {
    hide StepStart, StepLookup, StepReadPositions, StepReadOrders, StepClaim, StepCheck, StepMarkCheckRejected,
         StepMarkSubmitted, AfterReply, StepLook, StepRepair, StepSafeClose, StepMark, StepFindRecord,
         StepMatchPositions, StepMatchOrders, Placed;
    match pc
    case Start(command) => StartLeft(cfg, command, world, s);
    case Lookup(p) => ReadLeft(cfg, p, [], world, s);
    case ReadPositions(p) => ReadLeft(cfg, p, [], world, s);
    case ReadOrders(p, positions) => ReadLeft(cfg, p, positions, world, s);
    case Claim(p, risk) => ClaimLeft(cfg, p, risk, world);
    case CheckOrder(job) => OwnedLeft(cfg, job, [], world, s);
    case MarkCheckRejected(job, reasons) => OwnedLeft(cfg, job, reasons, world, s);
    case MarkSubmitted(job) => OwnedLeft(cfg, job, [], world, s);
    case Send(job) =>
      SendLeft(cfg, job, Placed(cfg.symbols, s.calls(0), world.book, job.request, job.request.orderType != Market).1);
    case Look(w, attempt) => ProtectionLeft(cfg, w, attempt, "", world, s);
    case Repair(w, ticket) => ProtectionLeft(cfg, w, 0, ticket, world, s);
    case SafeClose(w, ticket) => ProtectionLeft(cfg, w, 0, ticket, world, s);
    case Mark(key, status, report, reason, ending) => MarkShape(key, status, report, reason, ending, world, s);
    case FindRecord(key) => FindLeft(cfg, key, world);
    case MatchPositions(record) => MatchLeft(cfg, record, [], world, s);
    case MatchOrders(record, positions) => MatchLeft(cfg, record, positions, world, s);
  }
}
