/** Concrete runs that show where the protocol's guarantees end. */
module Witnesses {
  import opened Domain
  import opened Trading
  import opened MockBroker
  import opened Sizing
  import opened Gates
  import opened Idempotency
  import opened StateMachine
  import opened Execution
  import opened Interleaving
  import opened Serialized
  import opened Exposure
  import opened Calls
  import opened Symbols
  import opened GoldSymbols
  import Coverage
  import Text

  const QUOTE: Tick := TickData(NAME, 100.0, 100.0, 0)

  const HOLDER := Account("A", 1000.0, 1000.0, 1, Demo)

  const SKY := Conditions(true, true, true, true, true, map[NAME := QUOTE], HOLDER, 0)

  const AIR := Surroundings(0, (n: nat) => SKY, Ok(Reading(false, false)))

  const UNUSED: Usage := UsageData(0.0, 0.0, 0.0, None)

  const LOOSE: Limits := LimitsData(1.0, 1.0, 1.0, 1.0, 2, 1, 1.0, 0.0, 1)

  /** A broker that lists gold under two names; texts are resolved as the broker resolves them. */
  const SETUP := Config(SYMBOLS, (text: string) => Resolve(text, LISTED),
                        (key: string) => "none", LOOSE, 1)

  /** The canonical text a signal carries, and the positions its call reads. */
  datatype Trial = Trial(name: string, seen: seq<Position>)

  function Buy(name: string): Signal {
    SignalData("S", name, "strategy", EnterLong, Some(100.0), Some(100.0), Some(90.0), [200.0], 0, None)
  }

  function Ordered(name: string): Command {
    Command(Buy(name), AutoMode, (kind: AccountType) => [], Market, None, 0.0, true, UNUSED)
  }

  const SIZE := Sized(1.0, 10.0, 0.01, 1000.0, 10.0)

  const REQUEST: OrderRequest :=
    OrderData("S", "strategy", NAME, Long, Market, 1.0, 90.0, [200.0], "A:S", Some(100.0), Some(100.0), Some(100.0),
              None, 0.0)

  function Prep(name: string): Prepared {
    Prepared(0, Ordered(name), HOLDER, Health(true, true, true), GOLD, QUOTE, 100.0, SIZE, REQUEST)
  }

  lemma SampleSize()
    ensures Calculate(SETUP.symbols, SKY, SKY, HOLDER, GOLD, Long, 100.0, 90.0, 1.0) == Ok(SIZE)
  {
    assert Profit(SETUP.symbols, SKY, NAME, Long, 1.0, 100.0, 90.0) == Ok(-10.0);
    assert Budget(HOLDER, 1.0) == 1000.0;
    assert StepsBelow(GOLD, 1.0) == 0;
    assert Rounded(GOLD, 1000.0, 10.0) == Ok(1.0);
  }

  lemma SampleOrder(name: string)
    ensures PrepareOrder(SETUP, Ordered(name), AIR, Health(true, true, true), HOLDER, GOLD) == Ready(Prep(name))
  {
    hide Calculate, Resolve;
    SampleSize();
    assert KeyOf(HOLDER, Buy(name)) == "A:S";
  }

  lemma SamplePrepared(name: string)
    requires Spelling(name)
    ensures Prepare(SETUP, Ordered(name), AIR) == Ready(Prep(name))
  {
    hide PrepareOrder, Resolve, Prep, Spelling;
    GoldResolves(name);
    SampleOrder(name);
  }

  /** The gates' answer to the sample order. */
  function Risk(t: Trial): Decision {
    var decided := Decide(SETUP, Prep(t.name), t.seen, [], AIR);
    if decided.Ok? then decided.value else Decision(false, [], 0.0, 0.0, None, 0.0)
  }

  function Sight(t: Trial): Snapshot {
    Snapshot(0, HOLDER, GOLD, QUOTE, Health(true, true, true), true, true, Equivalents(SETUP.symbols, Upper(t.name)),
             t.seen, [],
             UNUSED, Margin(GOLD, REQUEST, 100.0, 1), false, false)
  }

  /** The call sees at most one position, and that under a name it does not watch. */
  predicate Unseen(t: Trial) {
    |t.seen| < 2 && forall i :: 0 <= i < |t.seen| ==>
      t.seen[i].symbol !in Equivalents(SETUP.symbols, Upper(t.name)) + {NAME}
  }

  lemma SampleDecides(t: Trial)
    ensures Decide(SETUP, Prep(t.name), t.seen, [], AIR) == Ok(Decided(LOOSE, REQUEST, SIZE, Sight(t)))
  {
    hide Decided, Equivalents, Upper, Margin;
  }

  lemma SampleMargin()
    ensures Margin(GOLD, REQUEST, 100.0, 1) == 100.0
  {
  }

  lemma SampleAccepted(t: Trial)
    requires Unseen(t)
    ensures Decide(SETUP, Prep(t.name), t.seen, [], AIR) == Ok(Risk(t)) && Risk(t).accepted
  {
    hide Decide, Decided, Passes, Equivalents, Upper, Margin;
    SampleDecides(t);
    SampleMargin();
    SamplePasses(Sight(t));
    AcceptedIffPasses(LOOSE, REQUEST, SIZE, Sight(t));
  }

  lemma SamplePasses(s: Snapshot)
    requires s.now == 0 && s.account == HOLDER && s.spec == GOLD && s.tick == QUOTE
             && s.health == Health(true, true, true)
    requires s.marketOpen && s.sessionAllowed && s.orders == [] && s.usage == UNUSED
    requires |s.positions| < 2 && forall i :: 0 <= i < |s.positions| ==> s.positions[i].symbol !in Watched(s)
    requires s.requiredMargin == 100.0 && !s.killSwitch && !s.circuitLocked
    ensures Passes(LOOSE, REQUEST, SIZE, s)
  {
    assert OrderPrice(REQUEST, QUOTE) == 100.0;
    assert RiskDistance(REQUEST, 100.0) == 10.0;
    assert NearestReward(REQUEST.takeProfits, 100.0) == 100.0;
    assert RewardRatio(REQUEST, 100.0) == 10.0;
    assert MinimumDistance(GOLD) == 0.0;
    assert ProtectionSound(LOOSE, s, REQUEST);
    assert Capacity(1000.0, 1.0) == 1000.0;
    assert WithinLosses(LOOSE, s, SIZE);
  }

  lemma SampleChecked()
    ensures Validated(SETUP.symbols, SKY, REQUEST) == Ok(Check(true, []))
  {
    assert OnGrid(GOLD, 1.0);
    assert Margin(GOLD, REQUEST, 100.0, 1) == 100.0;
    assert OrderPrice(REQUEST, QUOTE) == 100.0;
    assert ProtectionOnSide(REQUEST, 100.0);
    assert StopDistance(REQUEST, 100.0) == 10.0 && MinimumDistance(GOLD) == 0.0;
    AcceptedIffAcceptable(SETUP.symbols, SKY, REQUEST);
    hide OnGrid, Margin, ProtectionOnSide, StopDistance, MinimumDistance, OrderPrice, ReasonsAgainst;
  }

  // ---------------------------------------------------------------------------
  // The sample call, step by step
  // ---------------------------------------------------------------------------

  const FIRST := [StateTransition(SignalFound, EntryReady, GATES_ACCEPTED)]

  const SECOND := FIRST + [StateTransition(EntryReady, OrderPending, SUBMISSION_STARTED)]

  function Owner(t: Trial, transitions: seq<StateTransition>): Job {
    Job(REQUEST, Risk(t), 0, transitions)
  }

  lemma ReadsTo(t: Trial, world: World)
    requires "A:S" !in world.records && Spelling(t.name)
    ensures Step(SETUP, Start(Ordered(t.name)), world, AIR) == (Lookup(Prep(t.name)), world)
    ensures Step(SETUP, Lookup(Prep(t.name)), world, AIR) == (ReadPositions(Prep(t.name)), world)
    ensures Step(SETUP, ReadPositions(Prep(t.name)), world, AIR)
            == (ReadOrders(Prep(t.name), world.book.positions), world)
  {
    SamplePrepared(t.name);
    hide Prepare, Replay, Block;
  }

  lemma ReadOrdersIs(cfg: Config, p: Prepared, positions: seq<Position>, world: World, s: Surroundings)
    requires Accepts(cfg, p, positions, world.book.orders, s)
    ensures Step(cfg, ReadOrders(p, positions), world, s)
         == (Claim(p, Decide(cfg, p, positions, world.book.orders, s).value), world)
  {
    hide Decide, Block;
  }

  lemma GatesTo(t: Trial, world: World)
    requires world.book.orders == [] && Unseen(t)
    ensures Step(SETUP, ReadOrders(Prep(t.name), t.seen), world, AIR) == (Claim(Prep(t.name), Risk(t)), world)
  {
    hide Decide, Risk, Block, Unseen, Prep, Step;
    SampleAccepted(t);
    ReadOrdersIs(SETUP, Prep(t.name), t.seen, world, AIR);
  }

  lemma ClaimTo(t: Trial, world: World)
    requires "A:S" !in world.records
    ensures Step(SETUP, Claim(Prep(t.name), Risk(t)), world, AIR)
         == (CheckOrder(Owner(t, FIRST)), world.(records := world.records["A:S" := NewRecord(REQUEST, 0)]))
  {
    FirstMove();
    hide AfterMove, Risk, Replay, NewRecord;
  }

  lemma FirstMove()
    ensures AfterMove([], EntryReady, GATES_ACCEPTED) == Ok(FIRST)
  {
    NotBlank(GATES_ACCEPTED);
    hide Blank;
    var none: seq<StateTransition> := [];
    assert none + [StateTransition(SignalFound, EntryReady, GATES_ACCEPTED)] == FIRST;
  }

  lemma SecondMove()
    ensures AfterMove(FIRST, OrderPending, SUBMISSION_STARTED) == Ok(SECOND)
  {
    NotBlank(SUBMISSION_STARTED);
    hide Blank;
    assert Last(FIRST) == EntryReady;
  }

  lemma CheckTo(t: Trial, world: World)
    ensures Step(SETUP, CheckOrder(Owner(t, FIRST)), world, AIR)
         == (MarkSubmitted(Owner(t, SECOND)), world.(book := world.book.(checkCalls := world.book.checkCalls + 1)))
  {
    SampleChecked();
    SecondMove();
    hide AfterMove, Risk, Validated;
  }

  lemma SubmitTo(t: Trial, world: World)
    requires "A:S" in world.records && world.records["A:S"].status == Claimed
    ensures Step(SETUP, MarkSubmitted(Owner(t, SECOND)), world, AIR)
         == (Send(Owner(t, SECOND)),
             world.(records := world.records["A:S" :=
                                             Changed(world.records["A:S"], Submitted, 0, None, "order_send started")]))
  {
    hide Risk, Changed;
  }

  function Bought(book: Book): Position {
    Position(TicketText('P', book.tickets + 1), NAME, Long, 1.0, 100.0, 100.0, 90.0, Some(200.0), 0, "strategy",
             Some("S"))
  }

  function Answer(book: Book): Report {
    Report(true, "A:S", Some(TicketText('P', book.tickets + 1)), Some(100.0), Some(100.0), 1.0, "MOCK_FILLED",
           "market order filled", 0)
  }

  lemma PlacedTo(book: Book)
    requires "A:S" !in book.reports && book.behaviors == []
    ensures Placed(SETUP.symbols, SKY, book, REQUEST, false)
         == (book.(positions := Put(book.positions, Bought(book)), reports := book.reports["A:S" := Answer(book)],
                   tickets := book.tickets + 1, sendCalls := book.sendCalls + 1, checkCalls := book.checkCalls + 1),
             Replied(Answer(book)))
  {
    SampleChecked();
    assert OrderPrice(REQUEST, QUOTE) == 100.0;
    hide Validated, Put, TicketText;
  }

  const THIRD := SECOND + [StateTransition(OrderPending, OrderFilled, FILL_CONFIRMED)]

  lemma ThirdMove()
    ensures AfterMove(SECOND, OrderFilled, FILL_CONFIRMED) == Ok(THIRD)
  {
    NotBlank(FILL_CONFIRMED);
    hide Blank;
    assert Last(SECOND) == OrderPending;
  }

  function Filling(t: Trial, book: Book): Watch {
    Watch(REQUEST, Answer(book), Executing(Owner(t, THIRD), []))
  }

  function Sent(world: World): World {
    world.(book := world.book.(positions := Put(world.book.positions, Bought(world.book)),
                               reports := world.book.reports["A:S" := Answer(world.book)],
                               tickets := world.book.tickets + 1, sendCalls := world.book.sendCalls + 1,
                               checkCalls := world.book.checkCalls + 1),
           sends := world.sends + ["A:S"])
  }

  lemma SendTo(t: Trial, world: World)
    requires "A:S" !in world.book.reports && world.book.behaviors == []
    ensures Step(SETUP, Send(Owner(t, SECOND)), world, AIR) == (Look(Filling(t, world.book), 1), Sent(world))
  {
    hide Step, Placed, AfterReply, Put, TicketText, Filling, Answer, Bought, Owner;
    PlacedTo(world.book);
    AcceptedTo(t, world.book);
    SampleFacts(t, SECOND);
    SendIs(SETUP, Owner(t, SECOND), world, AIR, SKY, REQUEST, Sent(world).book, Replied(Answer(world.book)));
  }

  lemma SampleFacts(t: Trial, transitions: seq<StateTransition>)
    ensures AIR.calls(0) == SKY && REQUEST.orderType == Market && REQUEST.key == "A:S"
            && Owner(t, transitions).request == REQUEST
  {
  }

  lemma SendIs(cfg: Config, job: Job, world: World, s: Surroundings, env: Conditions, request: OrderRequest, book: Book,
               reply: Reply)
    requires s.calls(0) == env && job.request == request && request.orderType == Market
    requires Placed(cfg.symbols, env, world.book, request, false) == (book, reply)
    ensures Step(cfg, Send(job), world, s)
            == (AfterReply(job, reply), world.(book := book, sends := world.sends + [request.key]))
  {
    hide Placed, AfterReply;
  }

  lemma AcceptedTo(t: Trial, book: Book)
    ensures AfterReply(Owner(t, SECOND), Replied(Answer(book))) == Look(Filling(t, book), 1)
  {
    ThirdMove();
    assert Answer(book).Slippage() == Some(0.0);
    hide AfterMove, Risk, TicketText;
  }

  // ---------------------------------------------------------------------------
  // Runs
  // ---------------------------------------------------------------------------

  const GO := StepOf(0, AIR)

  lemma RunStep(book: Book, events: seq<Event>, pc: Pc, world: World, next: Pc, after: World)
    requires Ran(SETUP, book, events) == System(world, [pc]) && Step(SETUP, pc, world, AIR) == (next, after)
    ensures Ran(SETUP, book, events + [GO]) == System(after, [next])
  {
    RanSnoc(SETUP, book, events, GO);
    hide Ran, Step;
    assert [pc][0 := next] == [next];
  }

  /** The sample call up to its read of the orders, from a book without a record of it. */
  lemma RunToOrders(t: Trial, book: Book)
    requires Spelling(t.name)
    ensures Ran(SETUP, book, [Execute(Ordered(t.name)), GO, GO, GO])
            == System(World(map[], book, []), [ReadOrders(Prep(t.name), book.positions)])
  {
    hide Step, Advance, Prep, Ordered, Spelling;
    var world := World(map[], book, []);
    ReadsTo(t, world);
    var e0: seq<Event> := [];
    RanSnoc(SETUP, book, e0, Execute(Ordered(t.name)));
    assert Ran(SETUP, book, e0) == System(world, []);
    Began(t, world);
    var e1 := [Execute(Ordered(t.name))];
    assert e0 + [Execute(Ordered(t.name))] == e1;
    hide Ran;
    RunStep(book, e1, Start(Ordered(t.name)), world, Lookup(Prep(t.name)), world);
    RunStep(book, e1 + [GO], Lookup(Prep(t.name)), world, ReadPositions(Prep(t.name)), world);
    RunStep(book, e1 + [GO] + [GO], ReadPositions(Prep(t.name)), world, ReadOrders(Prep(t.name), book.positions),
            world);
    assert e1 + [GO] + [GO] + [GO] == [Execute(Ordered(t.name)), GO, GO, GO];
  }

  lemma Began(t: Trial, world: World)
    ensures Advance(SETUP, System(world, []), Execute(Ordered(t.name))) == System(world, [Start(Ordered(t.name))])
  {
    var none: seq<Pc> := [];
    assert none + [Start(Ordered(t.name))] == [Start(Ordered(t.name))];
  }

  function Recorded(world: World, status: RecordStatus): World
    requires status in {Claimed, Submitted}
  {
    world.(records := world.records["A:S" := if status == Claimed then NewRecord(REQUEST, 0)
                                             else Changed(NewRecord(REQUEST, 0), Submitted, 0, None,
                                                          "order_send started")])
  }

  function Counted(world: World): World {
    world.(book := world.book.(checkCalls := world.book.checkCalls + 1))
  }

  lemma RecordedFacts(world: World)
    ensures "A:S" in Counted(Recorded(world, Claimed)).records
            && Counted(Recorded(world, Claimed)).records["A:S"] == NewRecord(REQUEST, 0)
    ensures NewRecord(REQUEST, 0).status == Claimed
    ensures Counted(Recorded(world, Claimed)).(records := Counted(Recorded(world, Claimed)).records["A:S" :=
              Changed(NewRecord(REQUEST, 0), Submitted, 0, None, "order_send started")])
              == Counted(Recorded(world, Submitted))
  {
    var claimed := Counted(Recorded(world, Claimed));
    var changed := Changed(NewRecord(REQUEST, 0), Submitted, 0, None, "order_send started");
    assert world.records["A:S" := NewRecord(REQUEST, 0)]["A:S" := changed] == world.records["A:S" := changed];
  }

  /** Once its reads saw nothing entered, the sample call goes through to a sent order. */
  lemma RunToSent(t: Trial, book: Book, events: seq<Event>, world: World)
    requires Ran(SETUP, book, events) == System(world, [ReadOrders(Prep(t.name), t.seen)])
    requires Unseen(t) && world.book.orders == [] && "A:S" !in world.records && "A:S" !in world.book.reports
             && world.book.behaviors == []
    ensures var ready := Counted(Recorded(world, Submitted));
            Ran(SETUP, book, events + [GO] + [GO] + [GO] + [GO] + [GO])
            == System(Sent(ready), [Look(Filling(t, ready.book), 1)])
  {
    hide Step, Ran, Sent, Filling, Owner, Risk, NewRecord, Changed;
    var claimed := Recorded(world, Claimed);
    var ready := Counted(Recorded(world, Submitted));
    GatesTo(t, world);
    RunStep(book, events, ReadOrders(Prep(t.name), t.seen), world, Claim(Prep(t.name), Risk(t)), world);
    ClaimTo(t, world);
    RunStep(book, events + [GO], Claim(Prep(t.name), Risk(t)), world, CheckOrder(Owner(t, FIRST)), claimed);
    CheckTo(t, claimed);
    RunStep(book, events + [GO] + [GO], CheckOrder(Owner(t, FIRST)), claimed, MarkSubmitted(Owner(t, SECOND)),
            Counted(claimed));
    RecordedFacts(world);
    SubmitTo(t, Counted(claimed));
    RunStep(book, events + [GO] + [GO] + [GO], MarkSubmitted(Owner(t, SECOND)), Counted(claimed),
            Send(Owner(t, SECOND)), ready);
    SendTo(t, ready);
    RunStep(book, events + [GO] + [GO] + [GO] + [GO], Send(Owner(t, SECOND)), ready, Look(Filling(t, ready.book), 1),
            Sent(ready));
  }

  function Called(name: string): seq<Event> {
    [Execute(Ordered(name)), GO, GO, GO]
  }

  function Sending(events: seq<Event>): seq<Event> {
    events + [GO] + [GO] + [GO] + [GO] + [GO]
  }

  lemma SerialStart(book: Book, name: string)
    ensures Serial(SETUP, book, Called(name))
  {
    var e0: seq<Event> := [];
    var e1 := [Execute(Ordered(name))];
    assert e1[..0] == e0;
    assert Ran(SETUP, book, e0).procs == [];
    assert Serial(SETUP, book, e1);
    hide Ran, Serial;
    RanSnoc(SETUP, book, e1, GO);
    RanSnoc(SETUP, book, e1 + [GO], GO);
    RanSnoc(SETUP, book, e1 + [GO] + [GO], GO);
    assert e1 + [GO] + [GO] + [GO] == Called(name);
  }

  lemma SerialSending(book: Book, events: seq<Event>)
    requires Serial(SETUP, book, events)
    ensures Serial(SETUP, book, Sending(events))
  {
    hide Serial;
    RanSnoc(SETUP, book, events, GO);
    RanSnoc(SETUP, book, events + [GO], GO);
    RanSnoc(SETUP, book, events + [GO] + [GO], GO);
    RanSnoc(SETUP, book, events + [GO] + [GO] + [GO], GO);
    RanSnoc(SETUP, book, events + [GO] + [GO] + [GO] + [GO], GO);
  }

  /** Sending the sample order beside one gold position leaves two. */
  lemma SentBeside(world: World, held: Position)
    requires world.book.positions == [held] && held.symbol in GOLDS && held.ticket == "P9" && world.book.tickets == 0
    ensures CountOn(Sent(world).book.positions, GOLDS) == 2
  {
    var bought := Bought(world.book);
    assert bought.ticket == "P1" by {
      assert Text.Decimal(1) == "1";
    }
    assert [held][1..] == [];
    assert Put([held], bought) == [held, bought];
    assert [held, bought][1..] == [bought];
    assert CountOn([bought], GOLDS) == 1 by {
      assert [bought][1..] == [];
    }
  }

  // ---------------------------------------------------------------------------
  // A fill between the two reads
  // ---------------------------------------------------------------------------

  const PLAIN := Trial(NAME, [])

  const RESTING := Order("O9", NAME, Long, Limit, 1.0, 100.0, 90.0, Some(200.0), OrderStatus.Pending, 0, "other")

  const HIT := Position("P9", NAME, Long, 1.0, 100.0, 100.0, 90.0, Some(200.0), 0, "other", None)

  const WAITING := Book([], [RESTING], map[], [], 0, 0, 0, 0, 0)

  const FILLED := Outside([HIT], [], [])

  const RACE := Sending(Called(NAME) + [FILLED])

  lemma RaceEnds()
    ensures CountOn(Ran(SETUP, WAITING, RACE).world.book.positions, GOLDS) == 2
  {
    hide Step, Ran, Sent, Filling;
    RunToOrders(PLAIN, WAITING);
    RanSnoc(SETUP, WAITING, Called(NAME), FILLED);
    var world := World(map[], WAITING.(positions := [HIT], orders := []), []);
    assert Ran(SETUP, WAITING, Called(NAME) + [FILLED]) == System(world, [ReadOrders(Prep(NAME), [])]);
    RunToSent(PLAIN, WAITING, Called(NAME) + [FILLED], world);
    SentBeside(Counted(Recorded(world, Submitted)), HIT);
  }

  lemma PlainIsCovered()
    ensures Covers(SETUP, GOLDS, Ordered(NAME))
  {
    hide Equivalents, Upper, Resolve;
    GoldNames();
    assert Ordered(NAME).signal.canonicalSymbol == NAME;
  }

  lemma RaceIsCovered()
    ensures AllCovered(SETUP, RACE, GOLDS)
  {
    hide Covers, Ordered;
    PlainIsCovered();
    assert RACE[0] == Execute(Ordered(NAME)) && forall i :: 0 < i < |RACE| ==> !RACE[i].Execute?;
  }

  /**
   * What the market stirs up has to be allowed for: when it fills a resting order after a call has read the positions
   * and before it reads the orders, the call sees neither, and a serialized run enters one instrument twice.
   */
  lemma FillBetweenReadsEntersTwice()
    ensures Fresh(WAITING) && Serial(SETUP, WAITING, RACE) && AllCovered(SETUP, RACE, GOLDS)
    ensures Entered(WAITING, GOLDS) == 1 && Entered(Ran(SETUP, WAITING, RACE).world.book, GOLDS) >= 2
  {
    hide Ran, Serial, AllCovered;
    RaceEnds();
    RaceIsCovered();
    SerialStart(WAITING, NAME);
    RanSnoc(SETUP, WAITING, Called(NAME), FILLED);
    SerialSending(WAITING, Called(NAME) + [FILLED]);
    assert [RESTING][1..] == [];
    assert CountOrders([RESTING], GOLDS) == 1;
    assert WAITING.orders == [RESTING] && WAITING.positions == [];
  }

  // ---------------------------------------------------------------------------
  // A signal under another spelling
  // ---------------------------------------------------------------------------

  const HELD := Position("P9", OTHER, Long, 1.0, 100.0, 100.0, 90.0, Some(200.0), 0, "other", None)

  const BESIDE := Coverage.Beside(QUIET, HELD)

  const CALM := (k: nat) => AIR

  const ALIASED := Coverage.Sending(SETUP, Ordered("GOLD"), CALM, BESIDE)

  lemma CalmSteps()
    ensures StepEvents(0, CALM, 8) == [GO, GO, GO, GO, GO, GO, GO, GO]
  {
    assert StepEvents(0, CALM, 0) == [];
    assert StepEvents(0, CALM, 2) == [GO, GO];
    assert StepEvents(0, CALM, 4) == [GO, GO, GO, GO];
    assert StepEvents(0, CALM, 6) == [GO, GO, GO, GO, GO, GO];
  }

  lemma AliasEntersAlone()
    ensures Coverage.EntersAlone(SETUP, Ordered("GOLD"), CALM, QUIET)
  {
    var t, start := Trial("GOLD", []), World(map[], QUIET, []);
    var events := Coverage.Sending(SETUP, Ordered("GOLD"), CALM, QUIET);
    assert Ran(SETUP, QUIET, []).procs == [];
    hide Step, Ran, Sent, Filling, Recorded, Counted, RunTo, StepEvents;
    CalmSteps();
    assert events == Sending(Called("GOLD"));
    Coverage.SendingRuns(SETUP, Ordered("GOLD"), CALM, QUIET, GOLDS);
    RunToOrders(t, QUIET);
    RunToSent(t, QUIET, Called("GOLD"), start);
    SentIsOpen();
  }

  /**
   * The bound also needs its calls to watch for every name: the executor watches the names that carry the signal's raw
   * text, while symbol resolution follows aliases, so a signal for "GOLD" enters XAUUSD beside a position on XAUUSDm,
   * in a serialized run in which the market does nothing.
   */
  lemma AliasEntersBeside()
    ensures Fresh(BESIDE) && Serial(SETUP, BESIDE, ALIASED) && Stirred(SETUP, BESIDE, ALIASED, GOLDS) == 0
    ensures SETUP.resolve("GOLD") == Ok(GOLD) && !Covers(SETUP, GOLDS, Ordered("GOLD"))
    ensures Entered(BESIDE, GOLDS) == 1 && Entered(Ran(SETUP, BESIDE, ALIASED).world.book, GOLDS) == 2
  {
    hide Step, Ran, Serial, Stirred, Equivalents, Upper, Resolve, Entered, TicketText, Coverage.EntersAlone;
    GoldNames();
    GoldResolves("GOLD");
    AliasIsUncovered();
    AliasEntersAlone();
    NotTheNextTicket();
    Coverage.UncoveredEntersBeside(SETUP, GOLDS, Ordered("GOLD"), CALM, QUIET, HELD);
  }

  lemma AliasIsUncovered()
    ensures !Covers(SETUP, GOLDS, Ordered("GOLD"))
  {
    hide Equivalents, Upper, Resolve;
    GoldNames();
    GoldResolves("GOLD");
    assert Ordered("GOLD").signal.canonicalSymbol == "GOLD";
    assert OTHER in GOLDS && OTHER != NAME;
  }

  lemma NotTheNextTicket()
    ensures HELD.ticket != TicketText('P', QUIET.tickets + 1)
  {
    assert Text.Decimal(1) == "1";
    var next := TicketText('P', 1);
    assert next == "P1" && next[1] == '1' && HELD.ticket[1] == '9';
  }

  // ---------------------------------------------------------------------------
  // A reconciliation that overtakes a call
  // ---------------------------------------------------------------------------

  const QUIET := Book([], [], map[], [], 0, 0, 0, 0, 0)

  const ALSO := StepOf(1, AIR)

  lemma RunSecond(book: Book, events: seq<Event>, first: Pc, pc: Pc, world: World, next: Pc, after: World)
    requires Ran(SETUP, book, events) == System(world, [first, pc]) && Step(SETUP, pc, world, AIR) == (next, after)
    ensures Ran(SETUP, book, events + [ALSO]) == System(after, [first, next])
  {
    hide Ran, Step;
    RanSnoc(SETUP, book, events, ALSO);
    assert [first, pc][1 := next] == [first, next];
  }

  lemma RunFirst(book: Book, events: seq<Event>, pc: Pc, second: Pc, world: World, next: Pc, after: World)
    requires Ran(SETUP, book, events) == System(world, [pc, second]) && Step(SETUP, pc, world, AIR) == (next, after)
    ensures Ran(SETUP, book, events + [GO]) == System(after, [next, second])
  {
    hide Ran, Step;
    RanSnoc(SETUP, book, events, GO);
    assert [pc, second][0 := next] == [next, second];
  }

  /** The record is submitted and the one open position is the sample fill. */
  predicate Open(world: World) {
    && "A:S" in world.records && world.records["A:S"].status == Submitted
    && world.records["A:S"].request == REQUEST && world.records["A:S"].key == "A:S"
    && |world.book.positions| == 1 && world.book.orders == []
    && var held := world.book.positions[0];
       held.symbol == NAME && held.signalId == Some("S") && Protects(held, REQUEST)
  }

  function Found(world: World): Report
    requires |world.book.positions| == 1
  {
    var held := world.book.positions[0];
    Report(true, "A:S", Some(held.ticket), Some(100.0), Some(held.openPrice), 1.0, "RECONCILED",
           "matched broker position", 0)
  }

  lemma OneOnSymbol(positions: seq<Position>)
    requires |positions| == 1 && positions[0].symbol == NAME
    ensures OnSymbol(positions, NAME) == positions
  {
    assert OnSymbol(positions[1..], NAME) == [];
    assert positions == [positions[0]];
  }

  lemma FindTo(world: World)
    requires Open(world)
    ensures Step(SETUP, FindRecord("A:S"), world, AIR) == (MatchPositions(world.records["A:S"]), world)
  {
    hide Replay, Block;
  }

  lemma MatchTo(world: World)
    requires Open(world)
    ensures Step(SETUP, MatchPositions(world.records["A:S"]), world, AIR)
            == (MatchOrders(world.records["A:S"], world.book.positions), world)
  {
    OneOnSymbol(world.book.positions);
    hide OnSymbol;
  }

  lemma OrdersTo(world: World)
    requires Open(world)
    ensures Step(SETUP, MatchOrders(world.records["A:S"], world.book.positions), world, AIR)
         == (Look(Watch(REQUEST, Found(world), Reconciling), 1), world)
  {
    assert FirstPosition(SETUP, world.records["A:S"], "A:S", world.book.positions) == Some(world.book.positions[0]);
    hide FirstPosition, FirstOrder, OrdersOnSymbol;
  }

  lemma LookTo(w: Watch, world: World)
    requires Open(world) && w.request == REQUEST
    ensures Step(SETUP, Look(w, 1), world, AIR) == (Settled(w, true, VERIFIED), world)
  {
    OneOnSymbol(world.book.positions);
    assert FirstFill(SETUP, w, world.book.positions) == Some(world.book.positions[0]);
    hide OnSymbol, FirstFill, Settled, Protects;
  }

  lemma ResolveTo(w: Watch, world: World)
    requires Open(world) && w.request == REQUEST && w.origin == Reconciling
    ensures var (next, after) := Step(SETUP, Settled(w, true, VERIFIED), world, AIR);
            next.Finished? && after.book == world.book && "A:S" in after.records
            && after.records["A:S"].status == Succeeded
  {
    hide Replay;
  }

  lemma RefuseTo(w: Watch, world: World)
    requires "A:S" in world.records && world.records["A:S"].status == Succeeded && w.request == REQUEST
    ensures Step(SETUP, Settled(w, true, VERIFIED), world, AIR) == (Refused, world)
  {
  }

  lemma SentIsOpen()
    ensures Open(Sent(Counted(Recorded(World(map[], QUIET, []), Submitted))))
  {
    var world := Counted(Recorded(World(map[], QUIET, []), Submitted));
    assert Put([], Bought(world.book)) == [Bought(world.book)];
    assert Protects(Bought(world.book), REQUEST);
    hide TicketText;
  }

  const SENT := Sending(Called(NAME))

  const OVERTAKEN := SENT + [Reconcile("A:S")] + [ALSO] + [ALSO] + [ALSO] + [ALSO] + [ALSO] + [GO] + [GO]

  lemma JoinTo(events: seq<Event>, world: World, pc: Pc)
    requires Ran(SETUP, QUIET, events) == System(world, [pc])
    ensures Ran(SETUP, QUIET, events + [Reconcile("A:S")]) == System(world, [pc, FindRecord("A:S")])
  {
    hide Ran, Step;
    RanSnoc(SETUP, QUIET, events, Reconcile("A:S"));
    assert [pc] + [FindRecord("A:S")] == [pc, FindRecord("A:S")];
  }

  /**
   * Without serialization an update can be refused: a reconciliation that settles a record while its own call is still
   * checking the fill makes the call's last update invalid, and the call ends in an error instead of an answer.
   */
  lemma OvertakenCallIsRefused()
    ensures Fresh(QUIET) && |Ran(SETUP, QUIET, OVERTAKEN).procs| == 2
            && Ran(SETUP, QUIET, OVERTAKEN).procs[0] == Refused
  {
    hide Step, Ran, Sent, Open, Settled, Found, Recorded, Counted, Answer, Owner;
    var start := World(map[], QUIET, []);
    var ready := Counted(Recorded(start, Submitted));
    var world := Sent(ready);
    var w := Filling(PLAIN, ready.book);
    RunToOrders(PLAIN, QUIET);
    RunToSent(PLAIN, QUIET, Called(NAME), start);
    SentIsOpen();
    Overtakes(SENT, world, w);
  }

  lemma Overtakes(sent: seq<Event>, world: World, w: Watch)
    requires Ran(SETUP, QUIET, sent) == System(world, [Look(w, 1)]) && Open(world) && w.request == REQUEST
    ensures var sys := Ran(SETUP, QUIET,
                           sent + [Reconcile("A:S")] + [ALSO] + [ALSO] + [ALSO] + [ALSO] + [ALSO] + [GO] + [GO]);
            |sys.procs| == 2 && sys.procs[0] == Refused
  {
    OpenFacts(world);
    hide Step, Ran, Open, Settled, Found;
    var first, record := Look(w, 1), world.records["A:S"];
    var found := Watch(REQUEST, Found(world), Reconciling);
    var e := sent + [Reconcile("A:S")];
    JoinTo(sent, world, first);
    FindTo(world);
    RunSecond(QUIET, e, first, FindRecord("A:S"), world, MatchPositions(record), world);
    MatchTo(world);
    RunSecond(QUIET, e + [ALSO], first, MatchPositions(record), world, MatchOrders(record, world.book.positions),
              world);
    OrdersTo(world);
    RunSecond(QUIET, e + [ALSO] + [ALSO], first, MatchOrders(record, world.book.positions), world, Look(found, 1),
              world);
    LookTo(found, world);
    RunSecond(QUIET, e + [ALSO] + [ALSO] + [ALSO], first, Look(found, 1), world, Settled(found, true, VERIFIED), world);
    ResolveTo(found, world);
    var (done, after) := Step(SETUP, Settled(found, true, VERIFIED), world, AIR);
    RunSecond(QUIET, e + [ALSO] + [ALSO] + [ALSO] + [ALSO], first, Settled(found, true, VERIFIED), world, done, after);
    LookAgain(w, world, after);
    RunFirst(QUIET, e + [ALSO] + [ALSO] + [ALSO] + [ALSO] + [ALSO], first, done, after, Settled(w, true, VERIFIED),
             after);
    RefuseTo(w, after);
    RunFirst(QUIET, e + [ALSO] + [ALSO] + [ALSO] + [ALSO] + [ALSO] + [GO], Settled(w, true, VERIFIED), done, after,
             Refused, after);
  }

  lemma OpenFacts(world: World)
    requires Open(world)
    ensures "A:S" in world.records && |world.book.positions| == 1
  {
  }

  lemma LookAgain(w: Watch, before: World, world: World)
    requires Open(before) && world.book == before.book && w.request == REQUEST
    ensures Step(SETUP, Look(w, 1), world, AIR) == (Settled(w, true, VERIFIED), world)
  {
    LookTo(w, before);
    hide FirstFill, Settled, Protects, OnSymbol;
  }
}
