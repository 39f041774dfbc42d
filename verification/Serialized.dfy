/** Runs in which a call starts only when none is in flight, as one executor's lock arranges. */
module Serialized {
  import opened Domain
  import opened Trading
  import opened MockBroker
  import opened Gates
  import opened Idempotency
  import opened StateMachine
  import opened Execution
  import Sizing
  import opened Interleaving

  ghost predicate Idle(sys: System) {
    forall i :: 0 <= i < |sys.procs| ==> !Active(sys.procs[i])
  }

  ghost predicate Serial(cfg: Config, book: Book, events: seq<Event>) {
    events == [] ||
    var before, event := events[..|events| - 1], events[|events| - 1];
    Serial(cfg, book, before) && (event.Execute? || event.Reconcile? ==> Idle(Ran(cfg, book, before)))
  }

  // ---------------------------------------------------------------------------
  // What a process knows when it runs alone
  // ---------------------------------------------------------------------------

  /** The record of a request that is in hand, before anything was reported for it. */
  predicate InHand(world: World, request: OrderRequest, status: RecordStatus) {
    && request.key in world.records && world.records[request.key].request == request
    && world.records[request.key].status == status && world.records[request.key].report == None
  }

  predicate Pursued(world: World, request: OrderRequest) {
    && request.key in world.records && world.records[request.key].request == request
    && world.records[request.key].status in {Submitted, Unknown}
  }

  /** The answer a caller gets is the one its record gives. */
  predicate Agrees(outcome: Outcome, status: RecordStatus, request: OrderRequest, report: Option<Report>) {
    && outcome.status == StatusOf(status, request.orderType) && outcome.request == Some(request)
    && outcome.report == report && outcome.requiresReconciliation == IsUnresolved(status)
  }

  predicate CanMove(transitions: seq<StateTransition>, target: TradeState, reason: string) {
    target in Allowed(Last(transitions)) && !Blank(reason)
  }

  predicate EndingFits(world: World, key: string, status: RecordStatus, report: Option<Report>, ending: Ending)
    requires key in world.records
  {
    match ending
    case FromRecord => true
    case Return(outcome) =>
      && world.records[key].report == None
      && Agrees(outcome, status, world.records[key].request, report)
    case Move(target, reason, outcome) =>
      && world.records[key].report == None
      && Agrees(outcome, status, world.records[key].request, report) && CanMove(outcome.transitions, target, reason)
  }

  predicate Fits(world: World, pc: Pc) {
    match pc
    case CheckOrder(job) => InHand(world, job.request, Claimed) && Last(job.transitions) == EntryReady
    case MarkCheckRejected(job, _) => InHand(world, job.request, Claimed) && Last(job.transitions) == EntryReady
    case MarkSubmitted(job) => InHand(world, job.request, Claimed) && Last(job.transitions) == OrderPending
    case Send(job) => InHand(world, job.request, Submitted) && Last(job.transitions) == OrderPending
    case Look(w, _) => WatchFits(world, w)
    case Repair(w, _) => WatchFits(world, w)
    case SafeClose(w, _) => WatchFits(world, w)
    case Mark(key, status, report, _, ending) =>
      && key in world.records && status in Successors(world.records[key].status)
      && EndingFits(world, key, status, report, ending)
    case MatchPositions(record) => record.key == record.request.key && Pursued(world, record.request)
    case MatchOrders(record, _) => record.key == record.request.key && Pursued(world, record.request)
    case Refused => false
    case _ => true
  }

  predicate WatchFits(world: World, w: Watch) {
    match w.origin
    case Reconciling => Pursued(world, w.request)
    case Executing(job, _) =>
      && InHand(world, w.request, Submitted) && w.request.orderType == Market
      && job.request == w.request && Last(job.transitions) == OrderFilled
  }

  ghost predicate SerialOk(sys: System) {
    && (forall i :: 0 <= i < |sys.procs| ==> Fits(sys.world, sys.procs[i]))
    && (forall i :: 0 <= i < |sys.procs| && Active(sys.procs[i]) ==> i == |sys.procs| - 1)
  }

  // ---------------------------------------------------------------------------
  // Each step
  // ---------------------------------------------------------------------------

  lemma MoveTaken(transitions: seq<StateTransition>, target: TradeState, reason: string)
    requires CanMove(transitions, target, reason)
    ensures AfterMove(transitions, target, reason).Ok?
    ensures Last(AfterMove(transitions, target, reason).value) == target
  {
  }

  lemma NotBlank(reason: string)
    requires reason != "" && !IsSpace(reason[|reason| - 1])
    ensures !Blank(reason)
  {
  }

  lemma FindingsGiven()
    ensures !Blank(VERIFIED) && !Blank(REPAIRED)
    ensures !Blank(NOT_VISIBLE) && !Blank(UNCONFIRMED) && !Blank(SAFELY_CLOSED) && !Blank(CLOSE_FAILED)
  {
    hide Blank;
    NotBlank(VERIFIED);
    NotBlank(REPAIRED);
    NotBlank(NOT_VISIBLE);
    NotBlank(UNCONFIRMED);
    NotBlank(SAFELY_CLOSED);
    NotBlank(CLOSE_FAILED);
  }

  lemma ClaimFits(p: Prepared, risk: Decision, world: World)
    ensures var (next, after) := StepClaim(p, risk, world); Fits(after, next)
  {
    NotBlank(GATES_ACCEPTED);
    MoveTaken([], EntryReady, GATES_ACCEPTED);
    hide AfterMove, Replay, Blank;
  }

  lemma CheckFits(cfg: Config, job: Job, world: World, s: Surroundings)
    requires Fits(world, CheckOrder(job))
    ensures var (next, after) := StepCheck(cfg, job, world, s); Fits(after, next) && after.records == world.records
  {
    hide AfterMove, Validated, Last, Blank;
    NotBlank(SUBMISSION_STARTED);
    MoveTaken(job.transitions, OrderPending, SUBMISSION_STARTED);
  }

  lemma MarkCheckRejectedFits(job: Job, reasons: seq<string>, world: World)
    requires Fits(world, MarkCheckRejected(job, reasons))
    ensures var (next, after) := StepMarkCheckRejected(job, reasons, world);
            && Fits(after, next) && next.Finished? && next.outcome.status == CheckRejected
            && next.outcome.reasons == reasons
            && job.request.key in after.records
            && Agrees(next.outcome.(status := RejectedOrder), after.records[job.request.key].status, job.request,
                      after.records[job.request.key].report)
  {
    NotBlank(CHECK_FAILED);
    MoveTaken(job.transitions, TradeState.Error, CHECK_FAILED);
    hide AfterMove, Joined, Last, Blank;
  }

  lemma MarkSubmittedFits(job: Job, world: World)
    requires Fits(world, MarkSubmitted(job))
    ensures var (next, after) := StepMarkSubmitted(job, world); Fits(after, next)
  {
    hide Last;
  }

  lemma UnresolvedFits(job: Job, reason: string, note: string, text: string, world: World)
    requires Fits(world, Send(job)) && !Blank(note)
    ensures Fits(world, Unresolved(job, reason, note, text))
  {
    hide Last, Blank;
  }

  lemma RefusalFits(job: Job, report: Report, world: World)
    requires Fits(world, Send(job))
    ensures Fits(world, AfterRefusal(job, report))
  {
    NotBlank(SEND_REFUSED);
    hide Last, Blank;
  }

  lemma AcceptanceFits(job: Job, report: Report, world: World)
    requires Fits(world, Send(job))
    ensures Fits(world, AfterAcceptance(job, report))
  {
    hide AfterMove, Blank;
    NotBlank(FILL_CONFIRMED);
    MoveTaken(job.transitions, OrderFilled, FILL_CONFIRMED);
    hide Last;
  }

  lemma AfterReplyFits(job: Job, reply: Reply, world: World)
    requires Fits(world, Send(job))
    ensures Fits(world, AfterReply(job, reply))
  {
    NotBlank(RESULT_UNKNOWN);
    NotBlank(MUTATION_FAILED);
    hide AfterAcceptance, AfterRefusal, Unresolved, Blank, Fits;
    match reply
    case Indeterminate(text) =>
      UnresolvedFits(job, "ORDER_RESULT_UNKNOWN_RECONCILIATION_REQUIRED", RESULT_UNKNOWN, text, world);
    case Raised(text) =>
      UnresolvedFits(job, "BROKER_MUTATION_ERROR_RECONCILIATION_REQUIRED", MUTATION_FAILED, text, world);
    case Replied(report) =>
      AcceptanceFits(job, report, world);
      RefusalFits(job, report, world);
  }

  lemma SettledFits(w: Watch, protected: bool, reason: string, world: World)
    requires WatchFits(world, w) && !Blank(reason)
    ensures Fits(world, Settled(w, protected, reason))
  {
    NotBlank(UNVERIFIED);
    hide Last, Blank;
  }

  lemma LookFits(cfg: Config, w: Watch, attempt: nat, world: World, s: Surroundings)
    requires WatchFits(world, w)
    ensures var (next, after) := StepLook(cfg, w, attempt, world, s); Fits(after, next)
  {
    FindingsGiven();
    SettledFits(w, true, VERIFIED, world);
    SettledFits(w, false, NOT_VISIBLE, world);
    hide FirstFill, OnSymbol, Protects, Settled, WatchFits, Blank;
  }

  lemma WatchKept(before: World, after: World, w: Watch)
    requires WatchFits(before, w) && after.records == before.records
    ensures WatchFits(after, w)
  {
  }

  lemma RepairFits(w: Watch, ticket: string, world: World, s: Surroundings)
    requires WatchFits(world, w)
    ensures var (next, after) := StepRepair(w, ticket, world, s); Fits(after, next)
  {
    FindingsGiven();
    var after := StepRepair(w, ticket, world, s).1;
    WatchKept(world, after, w);
    SettledFits(w, true, REPAIRED, after);
    hide Modified, Settled, WatchFits, Blank;
  }

  lemma SafeCloseFits(w: Watch, ticket: string, world: World, s: Surroundings)
    requires WatchFits(world, w)
    ensures var (next, after) := StepSafeClose(w, ticket, world, s); Fits(after, next)
  {
    FindingsGiven();
    var after := StepSafeClose(w, ticket, world, s).1;
    WatchKept(world, after, w);
    SettledFits(w, false, UNCONFIRMED, after);
    SettledFits(w, false, SAFELY_CLOSED, after);
    SettledFits(w, false, CLOSE_FAILED, after);
    hide MockBroker.Closed, Settled, WatchFits, Blank;
  }

  /** The last update is always allowed, and the caller is told what the record now says. */
  lemma MarkFits(key: string, status: RecordStatus, report: Option<Report>, reason: string, ending: Ending,
                 world: World, s: Surroundings)
    requires Fits(world, Mark(key, status, report, reason, ending))
    ensures var (next, after) := StepMark(key, status, report, reason, ending, world, s);
            && Fits(after, next) && next.Finished? && key in after.records
            && Agrees(next.outcome, after.records[key].status, after.records[key].request, after.records[key].report)
  {
    if ending.Move? {
      MoveTaken(ending.outcome.transitions, ending.target, ending.reason);
    }
    hide AfterMove, Last, Blank, StatusOf, IsUnresolved;
  }

  lemma MatchFits(cfg: Config, record: Record, positions: seq<Position>, world: World, s: Surroundings)
    requires record.key == record.request.key && Pursued(world, record.request)
    ensures Fits(world, StepMatchPositions(record, world, s).0) && StepMatchPositions(record, world, s).1 == world
    ensures Fits(world, StepMatchOrders(cfg, record, positions, world, s).0)
            && StepMatchOrders(cfg, record, positions, world, s).1 == world
  {
    hide FirstPosition, FirstOrder, OnSymbol, OrdersOnSymbol;
  }

  lemma FindFits(key: string, world: World)
    requires RecordsOk(world.records)
    ensures Fits(world, StepFindRecord(key, world).0) && StepFindRecord(key, world).1 == world
  {
    assert key in world.records ==> RecordOk(key, world.records[key]);
    hide Replay, Block;
  }

  lemma ReadFits(cfg: Config, p: Prepared, positions: seq<Position>, world: World, s: Surroundings)
    ensures Fits(world, StepLookup(p, world).0) && Fits(world, StepReadPositions(p, world, s).0)
    ensures Fits(world, StepReadOrders(cfg, p, positions, world, s).0)
    ensures StepLookup(p, world).1 == StepReadPositions(p, world, s).1 == StepReadOrders(cfg, p, positions, world, s).1
            == world
  {
    hide Decide, Replay, Block;
  }

  lemma StartFits(cfg: Config, command: Command, world: World, s: Surroundings)
    ensures Fits(world, StepStart(cfg, command, world, s).0) && StepStart(cfg, command, world, s).1 == world
  {
    hide Prepare;
  }

  lemma SendFits(cfg: Config, job: Job, world: World, s: Surroundings)
    requires Fits(world, Send(job))
    ensures var (next, after) := StepSend(cfg, job, world, s); Fits(after, next)
  {
    var (book, reply) := Placed(cfg.symbols, s.calls(0), world.book, job.request, job.request.orderType != Market);
    var after := world.(book := book, sends := world.sends + [job.request.key]);
    assert Fits(after, Send(job));
    hide Placed, AfterReply, Fits;
    AfterReplyFits(job, reply, after);
  }

  lemma StepFits(cfg: Config, pc: Pc, world: World, s: Surroundings)
    requires Fits(world, pc) && RecordsOk(world.records)
    ensures var (next, after) := Step(cfg, pc, world, s); Fits(after, next)
  {
    if Writes(pc) {
      hide StepClaim, StepMarkCheckRejected, StepMarkSubmitted, StepSend, StepMark, RecordsOk, Fits;
      match pc
      case Claim(p, risk) => ClaimFits(p, risk, world);
      case MarkCheckRejected(job, reasons) => MarkCheckRejectedFits(job, reasons, world);
      case MarkSubmitted(job) => MarkSubmittedFits(job, world);
      case Send(job) => SendFits(cfg, job, world, s);
      case Mark(key, status, report, reason, ending) => MarkFits(key, status, report, reason, ending, world, s);
    } else {
      ReadingStepFits(cfg, pc, world, s);
    }
  }

  lemma ReadingStepFits(cfg: Config, pc: Pc, world: World, s: Surroundings)
    requires !Writes(pc) && Fits(world, pc) && RecordsOk(world.records)
    ensures var (next, after) := Step(cfg, pc, world, s); Fits(after, next)
  {
    hide StepStart, StepLookup, StepReadPositions, StepReadOrders, StepCheck, StepLook, StepRepair, StepSafeClose,
         StepFindRecord, StepMatchPositions, StepMatchOrders, RecordsOk, InHand, Pursued, WatchFits;
    match pc
    case Start(command) => StartFits(cfg, command, world, s);
    case Lookup(p) => ReadFits(cfg, p, [], world, s);
    case ReadPositions(p) => ReadFits(cfg, p, [], world, s);
    case ReadOrders(p, positions) => ReadFits(cfg, p, positions, world, s);
    case CheckOrder(job) => CheckFits(cfg, job, world, s);
    case Look(w, attempt) => LookFits(cfg, w, attempt, world, s);
    case Repair(w, ticket) => RepairFits(w, ticket, world, s);
    case SafeClose(w, ticket) => SafeCloseFits(w, ticket, world, s);
    case FindRecord(key) => FindFits(key, world);
    case MatchPositions(record) => MatchFits(cfg, record, [], world, s);
    case MatchOrders(record, positions) => MatchFits(cfg, record, positions, world, s);
    case _ =>
  }

  // ---------------------------------------------------------------------------
  // Every serialized run
  // ---------------------------------------------------------------------------

  lemma IdleFits(before: World, after: World, pc: Pc)
    requires !Active(pc) && Fits(before, pc)
    ensures Fits(after, pc)
  {
  }

  lemma RecordsDecideFits(before: World, after: World, pc: Pc)
    requires Fits(before, pc) && after.records == before.records
    ensures Fits(after, pc)
  {
  }

  lemma SerialAdvance(cfg: Config, sys: System, event: Event)
    requires SerialOk(sys) && RecordsOk(sys.world.records)
    requires event.Execute? || event.Reconcile? ==> Idle(sys)
    ensures SerialOk(Advance(cfg, sys, event))
  {
    hide Step, Fits, RecordsOk;
    var after := Advance(cfg, sys, event);
    if event.StepOf? && event.i < |sys.procs| {
      var i := event.i;
      StepFits(cfg, sys.procs[i], sys.world, event.s);
      InactiveStays(cfg, sys.procs[i], sys.world, event.s);
      forall j | 0 <= j < |sys.procs| && j != i
        ensures Fits(after.world, sys.procs[j])
      {
        if Active(sys.procs[i]) {
          IdleFits(sys.world, after.world, sys.procs[j]);
        }
      }
    } else {
      forall j | 0 <= j < |sys.procs|
        ensures Fits(after.world, sys.procs[j])
      {
        RecordsDecideFits(sys.world, after.world, sys.procs[j]);
      }
      NewProcessFits(after.world, event);
    }
  }

  lemma InactiveStays(cfg: Config, pc: Pc, world: World, s: Surroundings)
    ensures !Active(pc) ==> Step(cfg, pc, world, s) == (pc, world)
  {
  }

  lemma NewProcessFits(world: World, event: Event)
    ensures Fits(world, Crashed)
    ensures event.Execute? ==> Fits(world, Start(event.command))
    ensures event.Reconcile? ==> Fits(world, FindRecord(event.key))
  {
  }

  lemma {:induction false} SerialRunOk(cfg: Config, book: Book, events: seq<Event>)
    requires Fresh(book) && Serial(cfg, book, events)
    ensures SerialOk(Ran(cfg, book, events)) && RecordsOk(Ran(cfg, book, events).world.records)
  {
    RunOk(cfg, book, events);
    if events == [] {
      assert Ran(cfg, book, events).procs == [];
    } else {
      var before := events[..|events| - 1];
      SerialRunOk(cfg, book, before);
      hide SerialOk, Advance, RecordsOk;
      SerialAdvance(cfg, Ran(cfg, book, before), events[|events| - 1]);
    }
  }

  /** In a serialized run no store update and no trade-state transition is ever refused. */
  lemma NeverRefused(cfg: Config, book: Book, events: seq<Event>, i: nat)
    requires Fresh(book) && Serial(cfg, book, events) && i < |Ran(cfg, book, events).procs|
    ensures !Ran(cfg, book, events).procs[i].Refused?
  {
    SerialRunOk(cfg, book, events);
    hide Ran, Serial, RecordsOk;
  }

  predicate Concludes(pc: Pc) {
    pc.Mark? || pc.MarkCheckRejected?
  }

  function ConcludedKey(pc: Pc): string
    requires Concludes(pc)
  {
    if pc.Mark? then pc.key else pc.job.request.key
  }

  /**
   * In a serialized run the last step of a call returns what the record it writes says: the same status, request,
   * report and need for reconciliation. Only an order that failed the broker's check is told apart, by its status.
   */
  lemma AnswerAgreesWithRecord(cfg: Config, book: Book, events: seq<Event>, i: nat, s: Surroundings)
    requires Fresh(book) && Serial(cfg, book, events) && i < |Ran(cfg, book, events).procs|
    requires Concludes(Ran(cfg, book, events).procs[i])
    ensures var pc := Ran(cfg, book, events).procs[i];
            var sys := Ran(cfg, book, events + [StepOf(i, s)]);
            Concluded(pc, (sys.procs[i], sys.world))
  {
    hide Step, Serial, RecordsOk, Fits, Agrees;
    SerialRunOk(cfg, book, events);
    var longer := events + [StepOf(i, s)];
    assert longer[..|longer| - 1] == events;
    var sys := Ran(cfg, book, events);
    assert Ran(cfg, book, longer) == Advance(cfg, sys, StepOf(i, s));
    hide Ran;
    ConcludesWell(cfg, sys.procs[i], sys.world, s);
  }

  /** What the last step of a call leaves behind and returns. */
  predicate Concluded(pc: Pc, result: (Pc, World))
    requires Concludes(pc)
  {
    && result.0.Finished? && ConcludedKey(pc) in result.1.records
    && var record, outcome := result.1.records[ConcludedKey(pc)], result.0.outcome;
    && (pc.MarkCheckRejected? ==> outcome.status == CheckRejected)
    && Agrees(if pc.MarkCheckRejected? then outcome.(status := RejectedOrder) else outcome,
              record.status, record.request, record.report)
  }

  lemma ConcludesWell(cfg: Config, pc: Pc, world: World, s: Surroundings)
    requires Concludes(pc) && Fits(world, pc)
    ensures Concluded(pc, Step(cfg, pc, world, s))
  {
    hide StepMark, StepMarkCheckRejected, Agrees, Fits;
    if pc.Mark? {
      MarkFits(pc.key, pc.status, pc.report, pc.reason, pc.ending, world, s);
    } else {
      MarkCheckRejectedFits(pc.job, pc.reasons, world);
      RejectedKeepsRequest(pc.job, pc.reasons, world);
    }
  }

  lemma RejectedKeepsRequest(job: Job, reasons: seq<string>, world: World)
    requires Fits(world, MarkCheckRejected(job, reasons))
    ensures var after := StepMarkCheckRejected(job, reasons, world).1;
            job.request.key in after.records && after.records[job.request.key].request == job.request
  {
    hide AfterMove, Joined;
  }

  /**
   * Executing a signal again whose key has a record changes nothing at all: the call stops before the lookup, or
   * returns what the record says.
   */
  lemma RecordedKeyIsReplayed(cfg: Config, command: Command, world: World, first: Surroundings, second: Surroundings)
    ensures var (pc, after) := Step(cfg, Start(command), world, first);
            && after == world
            && (pc.Invalid? || (pc.Finished? && pc.outcome.status in {Blocked, SignalOnly})
                || (pc.Lookup? && pc.p.request.key == KeyOf(first.calls(1).account, command.signal)))
            && (pc.Lookup? && pc.p.request.key in world.records ==>
                  Step(cfg, pc, world, second) == (Finished(Replay(world.records[pc.p.request.key], None)), world))
  {
    PreparedKey(cfg, command, first);
    hide Prepare, Replay;
  }

  lemma PreparedKey(cfg: Config, command: Command, s: Surroundings)
    ensures match Prepare(cfg, command, s)
            case Stopped(outcome) => outcome.status in {Blocked, SignalOnly}
            case Malformed => true
            case Ready(p) => p.request.key == KeyOf(s.calls(1).account, command.signal)
  {
    if Unfit(command.signal, s.clock) == [] && cfg.resolve(command.signal.canonicalSymbol).Ok? {
      PreparedOrderKey(cfg, command, s, s.calls(0).HealthCheck(), s.calls(1).account,
                       cfg.resolve(command.signal.canonicalSymbol).value);
    }
    hide PrepareOrder, Unfit;
  }

  lemma PreparedOrderKey(cfg: Config, command: Command, s: Surroundings, health: Health, account: Account, spec: Spec)
    requires Unfit(command.signal, s.clock) == []
    ensures match PrepareOrder(cfg, command, s, health, account, spec)
            case Stopped(outcome) => outcome.status == Blocked
            case Malformed => true
            case Ready(p) => p.request.key == KeyOf(account, command.signal)
  {
    hide Sizing.Calculate, Unfit;
  }
}
