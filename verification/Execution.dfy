/**
 * The order protocol as atomic steps over the shared store and broker.
 *
 * A process is one call of `execute` or `reconcile_unknown`. It gives way at every store or broker call, so each step
 * here is one such call together with the local computation that follows it. Reads that touch neither the store nor the
 * broker's book see only the surroundings, so a run of them is one step that meets fresh conditions at every call.
 */
module Execution {
  import opened Domain
  import opened Trading
  import opened MockBroker
  import opened Sizing
  import opened Gates
  import opened Idempotency
  import opened StateMachine
  import opened Symbols

  datatype TradingMode = SignalMode | SemiAutoMode | AutoMode

  /** A signal to execute; `permission` gives the rules' objections for each kind of account. */
  datatype Command = Command(
    signal: Signal,
    mode: TradingMode,
    permission: AccountType -> seq<string>,
    orderType: OrderType,
    requestedPrice: Option<real>,
    maximumSlippage: real,
    sessionAllowed: bool,
    usage: Usage)

  datatype Config = Config(
    symbols: map<string, Spec>,
    resolve: string -> Result<Spec>,
    correlate: string -> string,
    limits: Limits,
    attempts: nat)

  datatype ExecutionStatus =
    | SignalOnly | Blocked | CheckRejected | UnknownResult | FilledOrder | PendingEntry | RejectedOrder | Unprotected

  datatype Outcome = Outcome(
    status: ExecutionStatus,
    reasons: seq<string>,
    request: Option<OrderRequest>,
    report: Option<Report>,
    risk: Option<Decision>,
    transitions: seq<StateTransition>,
    requiresReconciliation: bool)

  datatype Reading = Reading(locked: bool, kill: bool)

  /** What one step meets: the clock, the broker's conditions at each call, and the circuit breaker's answer. */
  datatype Surroundings = Surroundings(clock: Time, calls: nat -> Conditions, circuit: Result<Reading>)

  /** The shared state. `sends` is the history of keys given to the broker's place operation. */
  datatype World = World(records: Records, book: Book, sends: seq<string>)

  function Block(reasons: seq<string>, request: Option<OrderRequest>, risk: Option<Decision>): Outcome {
    Outcome(Blocked, reasons, request, None, risk, [], false)
  }

  // ---------------------------------------------------------------------------
  // Before the store is touched
  // ---------------------------------------------------------------------------

  datatype Prepared = Prepared(
    now: Time,
    command: Command,
    account: Account,
    health: Health,
    spec: Spec,
    tick: Tick,
    price: real,
    sized: Sized,
    request: OrderRequest)

  datatype Preparation = Stopped(outcome: Outcome) | Malformed | Ready(prepared: Prepared)

  function KeyOf(account: Account, signal: Signal): string {
    account.id + ":" + signal.id
  }

  /** The objections raised before the broker is asked anything. */
  function Unfit(signal: Signal, now: Time): seq<string> {
    if signal.Direction().None? then ["SIGNAL_HAS_NO_ENTRY_DIRECTION"]
    else if signal.stopLoss.None? || signal.takeProfits == [] then ["SIGNAL_PROTECTION_INCOMPLETE"]
    else if signal.IsExpired(now) then ["SIGNAL_EXPIRED"]
    else []
  }

  function RequestFor(command: Command, account: Account, spec: Spec, volume: real, price: real, now: Time): OrderData
    requires Unfit(command.signal, now) == []
  {
    var signal := command.signal;
    OrderData(signal.id, signal.strategyId, spec.name, signal.Direction().value, command.orderType, volume,
              signal.stopLoss.value, signal.takeProfits, KeyOf(account, signal), Some(price), signal.entryMin,
              signal.entryMax, signal.expiresAt, command.maximumSlippage)
  }

  /** Health, account, permission, symbol, tick and size; nothing is written. */
  function Prepare(cfg: Config, command: Command, s: Surroundings): Preparation {
    var signal := command.signal;
    if command.mode == SignalMode then
      Stopped(Outcome(SignalOnly, ["SIGNAL_MODE_NEVER_EXECUTES"], None, None, None, [], false))
    else if Unfit(signal, s.clock) != [] then Stopped(Block(Unfit(signal, s.clock), None, None))
    else
      var health := s.calls(0).HealthCheck();
      if !health.healthy || !health.connected then Stopped(Block(["BROKER_UNHEALTHY"], None, None))
      else if !s.calls(1).Up() then Stopped(Block(["BrokerUnavailableError"], None, None))
      else
        var account := s.calls(1).account;
        var objections := command.permission(account.accountType);
        if objections != [] then Stopped(Block(objections, None, None))
        else if !s.calls(2).Up() then Stopped(Block([UNAVAILABLE], None, None))
        else
          var resolved := cfg.resolve(signal.canonicalSymbol);
          if resolved.Err? then Stopped(Block([resolved.error], None, None))
          else PrepareOrder(cfg, command, s, health, account, resolved.value)
  }

  function PrepareOrder(cfg: Config, command: Command, s: Surroundings, health: Health, account: Account, spec: Spec)
    : Preparation
    requires Unfit(command.signal, s.clock) == []
  {
    var signal := command.signal;
    if !s.calls(3).Up() then Stopped(Block([UNAVAILABLE], None, None))
    else if spec.name !in s.calls(3).ticks then Stopped(Block(["no tick is available for " + spec.name], None, None))
    else
      var tick := s.calls(3).ticks[spec.name];
      var price := if command.requestedPrice.Some? && command.requestedPrice.value != 0.0
                   then command.requestedPrice.value
                   else if signal.Direction() == Some(Long) then tick.ask else tick.bid;
      var sized := Calculate(cfg.symbols, s.calls(4), s.calls(5), account, spec, signal.Direction().value, price,
                             signal.stopLoss.value, cfg.limits.riskPerTrade);
      if sized.Err? then Stopped(Block([sized.error], None, None))
      else
        var request := RequestFor(command, account, spec, sized.value.volume, price, s.clock);
        if !ValidOrder(request) then Malformed
        else Ready(Prepared(s.clock, command, account, health, spec, tick, price, sized.value, request))
  }

  // ---------------------------------------------------------------------------
  // The risk decision
  // ---------------------------------------------------------------------------

  /** The order, symbol, market and margin reads, the circuit breaker, and the gates. */
  function Decide(cfg: Config, p: Prepared, positions: seq<Position>, orders: seq<Order>, s: Surroundings)
    : Result<Decision>
  {
    if !s.calls(0).Up() || !s.calls(1).Up() || !s.calls(2).Up() || !s.calls(3).Up() then Err("BrokerUnavailableError")
    else if p.request.symbol !in cfg.symbols || s.calls(3).account.leverage == 0 then Err("BrokerError")
    else if s.circuit.Err? then Err("CIRCUIT_STATE_UNAVAILABLE")
    else
      var margin := Margin(cfg.symbols[p.request.symbol], p.request, p.price, s.calls(3).account.leverage);
      var snapshot := Snapshot(p.now, p.account, p.spec, p.tick, p.health,
                               s.calls(2).marketOpen && p.spec.name in cfg.symbols,
                               p.command.sessionAllowed,
                               Equivalents(cfg.symbols, Upper(p.command.signal.canonicalSymbol)),
                               positions, orders, p.command.usage, margin,
                               s.circuit.value.kill, s.circuit.value.locked);
      Ok(Decided(cfg.limits, p.request, p.sized, snapshot))
  }

  // ---------------------------------------------------------------------------
  // Steps
  // ---------------------------------------------------------------------------

  /** What a process that owns a claim carries along. */
  datatype Job = Job(request: OrderRequest, risk: Decision, now: Time, transitions: seq<StateTransition>)

  datatype Origin = Executing(job: Job, reasons: seq<string>) | Reconciling

  /** A fill whose protection is being checked. */
  datatype Watch = Watch(request: OrderRequest, report: Report, origin: Origin)

  /** What a process returns after its last update: a fixed outcome after one more transition, or the record itself. */
  datatype Ending = Return(outcome: Outcome) | Move(target: TradeState, reason: string, outcome: Outcome) | FromRecord

  datatype Pc =
    | Start(command: Command)
    | Lookup(p: Prepared)
    | ReadPositions(p: Prepared)
    | ReadOrders(p: Prepared, positions: seq<Position>)
    | Claim(p: Prepared, risk: Decision)
    | CheckOrder(job: Job)
    | MarkCheckRejected(job: Job, reasons: seq<string>)
    | MarkSubmitted(job: Job)
    | Send(job: Job)
    | Look(w: Watch, attempt: nat)
    | Repair(w: Watch, ticket: string)
    | SafeClose(w: Watch, ticket: string)
    | Mark(key: string, status: RecordStatus, report: Option<Report>, reason: string, ending: Ending)
    | FindRecord(key: string)
    | MatchPositions(record: Record)
    | MatchOrders(record: Record, positions: seq<Position>)
    | Finished(outcome: Outcome)
    | Invalid
    | Refused
    | Crashed

  predicate Active(pc: Pc) {
    !(pc.Finished? || pc.Invalid? || pc.Refused? || pc.Crashed?)
  }

  function StatusOf(status: RecordStatus, orderType: OrderType): ExecutionStatus {
    match status
    case Claimed => UnknownResult
    case Submitted => UnknownResult
    case Unknown => UnknownResult
    case Succeeded => if orderType == Market then FilledOrder else PendingEntry
    case ProtectionFailed => Unprotected
    case Rejected => RejectedOrder
  }

  predicate IsUnresolved(status: RecordStatus) {
    status in {Claimed, Submitted, Unknown, ProtectionFailed}
  }

  /** What is answered for a key that already has a record. */
  function Replay(record: Record, risk: Option<Decision>): Outcome {
    Outcome(StatusOf(record.status, record.request.orderType), ["DUPLICATE_EXECUTION_SUPPRESSED"], Some(record.request),
            record.report, risk, [], IsUnresolved(record.status))
  }

  function Last(transitions: seq<StateTransition>): TradeState {
    if transitions == [] then SignalFound else transitions[|transitions| - 1].current
  }

  function AfterMove(transitions: seq<StateTransition>, target: TradeState, reason: string)
    : Result<seq<StateTransition>>
  {
    var moved := Moved(Last(transitions), target, reason);
    if moved.Err? then Err(moved.error) else Ok(transitions + [moved.value])
  }

  // The reasons given to the trade's state machine.
  const GATES_ACCEPTED := "pre-trade gates accepted"
  const SUBMISSION_STARTED := "order submission started"
  const CHECK_FAILED := "broker order_check rejected"
  const RESULT_UNKNOWN := "order result is indeterminate"
  const MUTATION_FAILED := "broker mutation failed"
  const SEND_REFUSED := "broker rejected order_send"
  const FILL_CONFIRMED := "broker confirmed fill"
  const UNVERIFIED := "position protection could not be verified"

  function StepStart(cfg: Config, command: Command, world: World, s: Surroundings): (Pc, World) {
    match Prepare(cfg, command, s)
    case Stopped(outcome) => (Finished(outcome), world)
    case Malformed => (Invalid, world)
    case Ready(p) => (Lookup(p), world)
  }

  function StepLookup(p: Prepared, world: World): (Pc, World) {
    if p.request.key in world.records then (Finished(Replay(world.records[p.request.key], None)), world)
    else (ReadPositions(p), world)
  }

  function StepReadPositions(p: Prepared, world: World, s: Surroundings): (Pc, World) {
    if !s.calls(0).Up() then (Finished(Block(["BrokerUnavailableError"], Some(p.request), None)), world)
    else (ReadOrders(p, world.book.positions), world)
  }

  function StepReadOrders(cfg: Config, p: Prepared, positions: seq<Position>, world: World, s: Surroundings)
    : (Pc, World)
  {
    var decided := Decide(cfg, p, positions, world.book.orders, s);
    if decided.Err? then (Finished(Block([decided.error], Some(p.request), None)), world)
    else if !decided.value.accepted then
      (Finished(Block(decided.value.reasons, Some(p.request), Some(decided.value))), world)
    else (Claim(p, decided.value), world)
  }

  function StepClaim(p: Prepared, risk: Decision, world: World): (Pc, World) {
    var key := p.request.key;
    if key in world.records then (Finished(Replay(world.records[key], Some(risk))), world)
    else
      var claimed := world.(records := world.records[key := NewRecord(p.request, p.now)]);
      var moved := AfterMove([], EntryReady, GATES_ACCEPTED);
      (if moved.Err? then Refused else CheckOrder(Job(p.request, risk, p.now, moved.value)), claimed)
  }

  function StepCheck(cfg: Config, job: Job, world: World, s: Surroundings): (Pc, World) {
    var checked := world.(book := world.book.(checkCalls := world.book.checkCalls + 1));
    var check := Validated(cfg.symbols, s.calls(0), job.request);
    if check.Err? then (MarkCheckRejected(job, ["BROKER_ORDER_CHECK_ERROR:BrokerError"]), checked)
    else if !check.value.accepted then (MarkCheckRejected(job, check.value.reasons), checked)
    else
      var moved := AfterMove(job.transitions, OrderPending, SUBMISSION_STARTED);
      (if moved.Err? then Refused else MarkSubmitted(job.(transitions := moved.value)), checked)
  }

  function StepMarkCheckRejected(job: Job, reasons: seq<string>, world: World): (Pc, World) {
    var updated := Updated(world.records, job.request.key, RecordStatus.Rejected, job.now, None, Joined(reasons));
    if updated.Err? then (Refused, world)
    else
      var moved := AfterMove(job.transitions, TradeState.Error, CHECK_FAILED);
      (if moved.Err? then Refused
       else Finished(Outcome(CheckRejected, reasons, Some(job.request), None, Some(job.risk), moved.value, false)),
       world.(records := updated.value))
  }

  function StepMarkSubmitted(job: Job, world: World): (Pc, World) {
    var updated := Updated(world.records, job.request.key, Submitted, job.now, None, "order_send started");
    if updated.Err? then (Refused, world) else (Send(job), world.(records := updated.value))
  }

  function Unresolved(job: Job, reason: string, note: string, text: string): Pc {
    Mark(job.request.key, Unknown, None, text,
         Move(TradeState.Error, note,
              Outcome(UnknownResult, [reason], Some(job.request), None, Some(job.risk), job.transitions, true)))
  }

  function AfterRefusal(job: Job, report: Report): Pc {
    Mark(job.request.key, RecordStatus.Rejected, Some(report), report.message,
         Move(TradeState.Error, SEND_REFUSED,
              Outcome(RejectedOrder, [if report.message == "" then "ORDER_REJECTED" else report.message],
                      Some(job.request), Some(report), Some(job.risk), job.transitions, false)))
  }

  /** A market fill goes on to have its protection checked; a pending order is done. */
  function AfterAcceptance(job: Job, report: Report): Pc {
    var slipped := report.Slippage().Some? && report.Slippage().value > job.request.maximumSlippage;
    var reasons := AddIf([], slipped, "EXECUTED_SLIPPAGE_EXCEEDED_TOLERANCE");
    if job.request.orderType == Market then
      var moved := AfterMove(job.transitions, OrderFilled, FILL_CONFIRMED);
      if moved.Err? then Refused
      else Look(Watch(job.request, report, Executing(job.(transitions := moved.value), reasons)), 1)
    else
      Mark(job.request.key, Succeeded, Some(report), "broker confirmed pending order",
           Return(Outcome(PendingEntry, reasons, Some(job.request), Some(report), Some(job.risk), job.transitions,
                          false)))
  }

  /** Where a process goes once its order has been sent. */
  function AfterReply(job: Job, reply: Reply): Pc {
    match reply
    case Indeterminate(text) =>
      Unresolved(job, "ORDER_RESULT_UNKNOWN_RECONCILIATION_REQUIRED", RESULT_UNKNOWN, text)
    case Raised(text) =>
      Unresolved(job, "BROKER_MUTATION_ERROR_RECONCILIATION_REQUIRED", MUTATION_FAILED, text)
    case Replied(report) => if report.success then AfterAcceptance(job, report) else AfterRefusal(job, report)
  }

  function StepSend(cfg: Config, job: Job, world: World, s: Surroundings): (Pc, World) {
    var (book, reply) := Placed(cfg.symbols, s.calls(0), world.book, job.request, job.request.orderType != Market);
    (AfterReply(job, reply), world.(book := book, sends := world.sends + [job.request.key]))
  }

  // ---------------------------------------------------------------------------
  // Protection of a fill
  // ---------------------------------------------------------------------------

  predicate IsFill(cfg: Config, w: Watch, item: Position) {
    || Some(item.ticket) == w.report.ticket
    || item.signalId == Some(w.request.signalId)
    || item.strategyId == cfg.correlate(w.request.key)
  }

  function FirstFill(cfg: Config, w: Watch, positions: seq<Position>): Option<Position> {
    if positions == [] then None
    else if IsFill(cfg, w, positions[0]) then Some(positions[0])
    else FirstFill(cfg, w, positions[1..])
  }

  predicate Protects(position: Position, request: OrderRequest) {
    position.stopLoss == request.stopLoss && position.takeProfit == Some(request.LastTarget())
  }

  /** The last update once protection has been settled one way or the other. */
  function Settled(w: Watch, protected: bool, reason: string): Pc {
    match w.origin
    case Reconciling =>
      if protected then Mark(w.request.key, Succeeded, Some(w.report), "reconciled with broker state", FromRecord)
      else Mark(w.request.key, ProtectionFailed, Some(w.report), reason, FromRecord)
    case Executing(job, reasons) =>
      if protected then
        Mark(w.request.key, Succeeded, Some(w.report), reason,
             Move(PositionOpen, reason,
                  Outcome(FilledOrder, reasons, Some(job.request), Some(w.report), Some(job.risk), job.transitions,
                          false)))
      else
        Mark(w.request.key, ProtectionFailed, Some(w.report), reason,
             Move(TradeState.Error, UNVERIFIED,
                  Outcome(Unprotected, [reason], Some(job.request), Some(w.report), Some(job.risk), job.transitions,
                          true)))
  }

  const VERIFIED := "broker position protection verified"
  const REPAIRED := "broker confirmed protection repair"
  const NOT_VISIBLE := "POSITION_NOT_VISIBLE_AND_NO_TICKET_TO_PROTECT"
  const UNCONFIRMED := "PROTECTION_REPAIR_AND_SAFE_CLOSE_UNCONFIRMED"
  const SAFELY_CLOSED := "UNPROTECTED_FILL_SAFELY_CLOSED"
  const CLOSE_FAILED := "PROTECTION_REPAIR_AND_SAFE_CLOSE_FAILED"

  function StartRepair(w: Watch, ticket: Option<string>): Pc {
    if ticket.None? || ticket.value == "" then Settled(w, false, NOT_VISIBLE) else Repair(w, ticket.value)
  }

  function Visible(w: Watch, book: Book, env: Conditions): seq<Position> {
    if env.Up() then OnSymbol(book.positions, w.request.symbol) else []
  }

  function StepLook(cfg: Config, w: Watch, attempt: nat, world: World, s: Surroundings): (Pc, World) {
    var found := FirstFill(cfg, w, Visible(w, world.book, s.calls(0)));
    (if found.Some? then
       if Protects(found.value, w.request) then Settled(w, true, VERIFIED) else StartRepair(w, Some(found.value.ticket))
     else if attempt < cfg.attempts then Look(w, attempt + 1)
     else StartRepair(w, w.report.ticket),
     world)
  }

  function StepRepair(w: Watch, ticket: string, world: World, s: Surroundings): (Pc, World) {
    var (book, done) := Modified(s.calls(0), world.book, ticket, w.request.stopLoss, Some(w.request.LastTarget()));
    (if done == Ok(true) then Settled(w, true, REPAIRED) else SafeClose(w, ticket), world.(book := book))
  }

  function StepSafeClose(w: Watch, ticket: string, world: World, s: Surroundings): (Pc, World) {
    var (book, closed) := MockBroker.Closed(s.calls(0), world.book, ticket, None);
    (Settled(w, false, if closed.Err? then UNCONFIRMED else if closed.value.success then SAFELY_CLOSED
             else CLOSE_FAILED),
     world.(book := book))
  }

  function StepMark(key: string, status: RecordStatus, report: Option<Report>, reason: string, ending: Ending,
                    world: World, s: Surroundings): (Pc, World)
  {
    var updated := Updated(world.records, key, status, s.clock, report, reason);
    if updated.Err? then (Refused, world)
    else
      (match ending
       case FromRecord => Finished(Replay(updated.value[key], None))
       case Return(outcome) => Finished(outcome)
       case Move(target, note, outcome) =>
         var moved := AfterMove(outcome.transitions, target, note);
         if moved.Err? then Refused else Finished(outcome.(transitions := moved.value)),
       world.(records := updated.value))
  }

  // ---------------------------------------------------------------------------
  // Reconciling an unknown result
  // ---------------------------------------------------------------------------

  function Deferred(reason: string, record: Record): Outcome {
    Outcome(UnknownResult, [reason], Some(record.request), None, None, [], true)
  }

  function FirstPosition(cfg: Config, record: Record, key: string, positions: seq<Position>): Option<Position> {
    if positions == [] then None
    else if positions[0].signalId == Some(record.request.signalId) || positions[0].strategyId == cfg.correlate(key) then
      Some(positions[0])
    else FirstPosition(cfg, record, key, positions[1..])
  }

  function FirstOrder(cfg: Config, key: string, orders: seq<Order>): Option<Order> {
    if orders == [] then None
    else if orders[0].key == key || orders[0].key == cfg.correlate(key) then Some(orders[0])
    else FirstOrder(cfg, key, orders[1..])
  }

  function StepFindRecord(key: string, world: World): (Pc, World) {
    if key !in world.records then (Finished(Block(["EXECUTION_RECORD_NOT_FOUND"], None, None)), world)
    else if world.records[key].status !in {Submitted, Unknown} then (Finished(Replay(world.records[key], None)), world)
    else (MatchPositions(world.records[key]), world)
  }

  function StepMatchPositions(record: Record, world: World, s: Surroundings): (Pc, World) {
    if !s.calls(0).Up() then (Finished(Deferred("BROKER_UNAVAILABLE_RECONCILIATION_DEFERRED", record)), world)
    else (MatchOrders(record, OnSymbol(world.book.positions, record.request.symbol)), world)
  }

  function StepMatchOrders(cfg: Config, record: Record, positions: seq<Position>, world: World, s: Surroundings)
    : (Pc, World)
  {
    if !s.calls(0).Up() then (Finished(Deferred("BROKER_UNAVAILABLE_RECONCILIATION_DEFERRED", record)), world)
    else
      var position := FirstPosition(cfg, record, record.key, positions);
      var order := FirstOrder(cfg, record.key, OrdersOnSymbol(world.book.orders, record.request.symbol));
      if position.Some? then
        var report := Report(true, record.key, Some(position.value.ticket), record.request.requestedPrice,
                             Some(position.value.openPrice), record.request.volume, "RECONCILED",
                             "matched broker position", s.clock);
        (Look(Watch(record.request, report, Reconciling), 1), world)
      else if order.Some? then
        var report := Report(true, record.key, Some(order.value.ticket), record.request.requestedPrice, None,
                             record.request.volume, "RECONCILED", "matched broker order", s.clock);
        (Mark(record.key, Succeeded, Some(report), "reconciled with broker state", FromRecord), world)
      else (Finished(Deferred("NO_BROKER_MATCH_YET_RECONCILIATION_REQUIRED", record)), world)
  }

  /** One atomic step of a process. */
  function Step(cfg: Config, pc: Pc, world: World, s: Surroundings): (Pc, World) {
    match pc
    case Start(command) => StepStart(cfg, command, world, s)
    case Lookup(p) => StepLookup(p, world)
    case ReadPositions(p) => StepReadPositions(p, world, s)
    case ReadOrders(p, positions) => StepReadOrders(cfg, p, positions, world, s)
    case Claim(p, risk) => StepClaim(p, risk, world)
    case CheckOrder(job) => StepCheck(cfg, job, world, s)
    case MarkCheckRejected(job, reasons) => StepMarkCheckRejected(job, reasons, world)
    case MarkSubmitted(job) => StepMarkSubmitted(job, world)
    case Send(job) => StepSend(cfg, job, world, s)
    case Look(w, attempt) => StepLook(cfg, w, attempt, world, s)
    case Repair(w, ticket) => StepRepair(w, ticket, world, s)
    case SafeClose(w, ticket) => StepSafeClose(w, ticket, world, s)
    case Mark(key, status, report, reason, ending) => StepMark(key, status, report, reason, ending, world, s)
    case FindRecord(key) => StepFindRecord(key, world)
    case MatchPositions(record) => StepMatchPositions(record, world, s)
    case MatchOrders(record, positions) => StepMatchOrders(cfg, record, positions, world, s)
    case _ => (pc, world)
  }
}
