/** The deterministic broker: a stateful fake with scripted order-send failures. */
module MockBroker {
  import opened Domain
  import opened Trading
  import opened Text

  datatype SendBehavior = Normal | Reject | TimeoutBeforeAccept | TimeoutAfterAccept

  /** The world around the broker when one call arrives; any two calls may meet different conditions. */
  datatype Conditions = Conditions(
    connected: bool,
    healthy: bool,
    tradingAllowed: bool,
    marketOpen: bool,
    modificationAllowed: bool,
    ticks: map<string, Tick>,
    account: Account,
    now: Time)
  {
    predicate Up() {
      connected && healthy
    }

    function HealthCheck(): Health {
      Health(Up(), connected, Up() && tradingAllowed)
    }
  }

  /** Everything the broker itself changes. */
  datatype Book = Book(
    positions: seq<Position>,
    orders: seq<Order>,
    reports: map<string, Report>,
    behaviors: seq<SendBehavior>,
    tickets: nat,
    sendCalls: nat,
    checkCalls: nat,
    modifyCalls: nat,
    closeCalls: nat)

  const UNAVAILABLE := "mock broker is disconnected or unhealthy"

  // ---------------------------------------------------------------------------
  // Dictionaries in insertion order
  // ---------------------------------------------------------------------------

  predicate HasTicket(positions: seq<Position>, ticket: string) {
    exists i :: 0 <= i < |positions| && positions[i].ticket == ticket
  }

  function Find(positions: seq<Position>, ticket: string): Option<Position> {
    if positions == [] then None
    else if positions[0].ticket == ticket then Some(positions[0])
    else Find(positions[1..], ticket)
  }

  /** Assignment under a ticket: in place if it exists, at the end otherwise. */
  function Put(positions: seq<Position>, position: Position): seq<Position> {
    if positions == [] then [position]
    else if positions[0].ticket == position.ticket then [position] + positions[1..]
    else [positions[0]] + Put(positions[1..], position)
  }

  function Without(positions: seq<Position>, ticket: string): seq<Position> {
    if positions == [] then []
    else if positions[0].ticket == ticket then positions[1..]
    else [positions[0]] + Without(positions[1..], ticket)
  }

  function PutOrder(orders: seq<Order>, order: Order): seq<Order> {
    if orders == [] then [order]
    else if orders[0].ticket == order.ticket then [order] + orders[1..]
    else [orders[0]] + PutOrder(orders[1..], order)
  }

  function WithoutOrder(orders: seq<Order>, ticket: string): seq<Order> {
    if orders == [] then []
    else if orders[0].ticket == ticket then orders[1..]
    else [orders[0]] + WithoutOrder(orders[1..], ticket)
  }

  ghost predicate UniqueTickets(positions: seq<Position>) {
    forall i, j :: 0 <= i < j < |positions| ==> positions[i].ticket != positions[j].ticket
  }

  lemma {:induction false} FindExact(positions: seq<Position>, ticket: string)
    ensures Find(positions, ticket).Some? <==> HasTicket(positions, ticket)
    ensures Find(positions, ticket).Some? ==>
              Find(positions, ticket).value in positions && Find(positions, ticket).value.ticket == ticket
  {
    if positions != [] && positions[0].ticket != ticket {
      FindExact(positions[1..], ticket);
      if HasTicket(positions[1..], ticket) {
        var i :| 0 <= i < |positions[1..]| && positions[1..][i].ticket == ticket;
        assert positions[i + 1].ticket == ticket;
      }
      if HasTicket(positions, ticket) {
        var i :| 0 <= i < |positions| && positions[i].ticket == ticket;
        assert positions[1..][i - 1].ticket == ticket;
      }
    }
  }

  /** Reading back a ticket after an assignment finds the new value; every other ticket reads as before. */
  lemma {:induction false} FindAfterPut(positions: seq<Position>, position: Position, ticket: string)
    ensures Find(Put(positions, position), ticket) ==
            if ticket == position.ticket then Some(position) else Find(positions, ticket)
  {
    if positions != [] && positions[0].ticket != position.ticket {
      FindAfterPut(positions[1..], position, ticket);
      assert ([positions[0]] + Put(positions[1..], position))[1..] == Put(positions[1..], position);
    } else if positions != [] {
      assert ([position] + positions[1..])[1..] == positions[1..];
    } else {
      assert [position][1..] == [];
    }
  }

  lemma {:induction false} FindAfterWithout(positions: seq<Position>, gone: string, ticket: string)
    requires UniqueTickets(positions)
    ensures Find(Without(positions, gone), ticket) == if ticket == gone then None else Find(positions, ticket)
  {
    if positions != [] {
      if positions[0].ticket == gone {
        if ticket == gone {
          FindExact(positions[1..], gone);
        }
      } else {
        FindAfterWithout(positions[1..], gone, ticket);
        assert ([positions[0]] + Without(positions[1..], gone))[1..] == Without(positions[1..], gone);
      }
    }
  }

  lemma {:induction false} PutKeepsTickets(positions: seq<Position>, position: Position)
    requires UniqueTickets(positions)
    ensures UniqueTickets(Put(positions, position))
    ensures forall i :: 0 <= i < |Put(positions, position)| ==>
              Put(positions, position)[i].ticket == position.ticket || Put(positions, position)[i] in positions
    ensures |Put(positions, position)| == |positions| + (if HasTicket(positions, position.ticket) then 0 else 1)
  {
    if positions != [] && positions[0].ticket != position.ticket {
      PutKeepsTickets(positions[1..], position);
      FindExact(positions, position.ticket);
      FindExact(positions[1..], position.ticket);
      var rest := Put(positions[1..], position);
      forall j | 0 <= j < |rest|
        ensures positions[0].ticket != rest[j].ticket
      {
        if rest[j].ticket != position.ticket {
          assert rest[j] in positions[1..];
        }
      }
    }
  }

  lemma {:induction false} WithoutKeepsTickets(positions: seq<Position>, ticket: string)
    requires UniqueTickets(positions)
    ensures UniqueTickets(Without(positions, ticket))
    ensures forall i :: 0 <= i < |Without(positions, ticket)| ==> Without(positions, ticket)[i] in positions
  {
    if positions != [] && positions[0].ticket != ticket {
      WithoutKeepsTickets(positions[1..], ticket);
      var rest := Without(positions[1..], ticket);
      forall j | 0 <= j < |rest|
        ensures rest[j].ticket != positions[0].ticket
      {
        assert rest[j] in positions[1..];
      }
    }
  }

  // ---------------------------------------------------------------------------
  // Order checks
  // ---------------------------------------------------------------------------

  function OrderPrice(request: OrderRequest, tick: Tick): real {
    if request.requestedPrice.Some? && request.requestedPrice.value != 0.0 then request.requestedPrice.value
    else if request.direction == Long then tick.ask else tick.bid
  }

  /** The volume is `k` whole steps above the minimum. */
  predicate OnGrid(spec: Spec, volume: real) {
    var steps := (volume - spec.volumeMin) / spec.volumeStep;
    steps == steps.Floor as real
  }

  predicate ProtectionOnSide(request: OrderRequest, price: real) {
    if request.direction == Long
    then request.stopLoss < price && forall i :: 0 <= i < |request.takeProfits| ==> request.takeProfits[i] > price
    else request.stopLoss > price && forall i :: 0 <= i < |request.takeProfits| ==> request.takeProfits[i] < price
  }

  function StopDistance(request: OrderRequest, price: real): real {
    if request.direction == Long then price - request.stopLoss else request.stopLoss - price
  }

  function MinimumDistance(spec: Spec): real {
    spec.point * spec.stopsLevelPoints as real
  }

  function Margin(spec: Spec, request: OrderRequest, price: real, leverage: nat): real
    requires leverage > 0
  {
    price * spec.contractSize * request.volume / leverage as real
  }

  predicate VolumeAllowed(spec: Spec, volume: real) {
    spec.volumeMin <= volume <= spec.volumeMax && OnGrid(spec, volume)
  }

  /** Every condition under which the broker takes an order. */
  predicate Acceptable(spec: Spec, tick: Tick, env: Conditions, request: OrderRequest)
    requires env.account.leverage > 0
  {
    var price := OrderPrice(request, tick);
    && env.Up() && env.tradingAllowed && env.marketOpen
    && VolumeAllowed(spec, request.volume)
    && ProtectionOnSide(request, price)
    && StopDistance(request, price) >= MinimumDistance(spec)
    && Margin(spec, request, price, env.account.leverage) <= env.account.freeMargin
  }

  function ReasonsAgainst(spec: Spec, tick: Tick, env: Conditions, request: OrderRequest): seq<string>
    requires env.account.leverage > 0
  {
    var price := OrderPrice(request, tick);
    var inRange := spec.volumeMin <= request.volume <= spec.volumeMax;
    var r1 := AddIf([], !(env.Up() && env.tradingAllowed), "BROKER_UNHEALTHY");
    var r2 := AddIf(r1, !env.marketOpen, "MARKET_CLOSED");
    var r3 := AddIf(r2, !inRange, "INVALID_VOLUME");
    var r4 := AddIf(r3, inRange && !OnGrid(spec, request.volume), "INVALID_VOLUME_STEP");
    var r5 := AddIf(r4, !ProtectionOnSide(request, price), "INVALID_PROTECTION_SIDE");
    var r6 := AddIf(r5, StopDistance(request, price) < MinimumDistance(spec), "STOP_TOO_CLOSE");
    AddIf(r6, Margin(spec, request, price, env.account.leverage) > env.account.freeMargin, "INSUFFICIENT_MARGIN")
  }

  /** The order check; it raises only when the account has no leverage. */
  function Validated(symbols: map<string, Spec>, env: Conditions, request: OrderRequest): Result<Check> {
    if request.symbol !in symbols || !env.Up() || request.symbol !in env.ticks then
      Ok(Check(false, ["SYMBOL_OR_TICK_UNAVAILABLE"]))
    else if env.account.leverage == 0 then Err("account leverage is unavailable")
    else
      var reasons := ReasonsAgainst(symbols[request.symbol], env.ticks[request.symbol], env, request);
      Ok(Check(reasons == [], reasons))
  }

  /** An order passes the check exactly when every condition holds. */
  lemma AcceptedIffAcceptable(symbols: map<string, Spec>, env: Conditions, request: OrderRequest)
    ensures Validated(symbols, env, request).Ok? && Validated(symbols, env, request).value.accepted <==>
            && request.symbol in symbols && request.symbol in env.ticks && env.account.leverage > 0
            && Acceptable(symbols[request.symbol], env.ticks[request.symbol], env, request)
  {
    hide OnGrid, ProtectionOnSide, StopDistance, MinimumDistance, Margin, OrderPrice;
  }

  // ---------------------------------------------------------------------------
  // What each call does to the book
  // ---------------------------------------------------------------------------

  /** How a send ends for the caller. */
  datatype Reply = Replied(report: Report) | Indeterminate(reason: string) | Raised(reason: string)

  const LOST_BEFORE := "mock response timed out before acceptance was known"
  const LOST_AFTER := "mock order accepted but response was lost"

  function TicketText(prefix: char, n: nat): string {
    [prefix] + Decimal(n)
  }

  function Refusal(request: OrderRequest, reasons: seq<string>, now: Time): Report {
    Report(false, request.key, None, request.requestedPrice, None, request.volume, "MOCK_REJECT",
           if reasons == [] then "scripted rejection" else Joined(reasons), now)
  }

  /** The book once an order is accepted under the next ticket. */
  function Accepted(book: Book, request: OrderRequest, pending: bool, price: real, now: Time): (Book, Report) {
    var n := book.tickets + 1;
    var ticket := TicketText(if pending then 'O' else 'P', n);
    var report := Report(true, request.key, Some(ticket), request.requestedPrice, if pending then None else Some(price),
                         request.volume, if pending then "MOCK_PLACED" else "MOCK_FILLED",
                         if pending then "pending order placed" else "market order filled", now);
    var entered := book.(tickets := n, reports := book.reports[request.key := report]);
    if pending then
      (entered.(orders := PutOrder(book.orders,
                                   Order(ticket, request.symbol, request.direction, request.orderType, request.volume,
                                         price, request.stopLoss, Some(request.LastTarget()), Pending, now,
                                             request.key))),
       report)
    else
      (entered.(positions := Put(book.positions,
                                 Position(ticket, request.symbol, request.direction, request.volume, price, price,
                                          request.stopLoss, Some(request.LastTarget()), now, request.strategyId,
                                          Some(request.signalId)))),
       report)
  }

  function NextBehavior(book: Book): SendBehavior {
    if book.behaviors == [] then Normal else book.behaviors[0]
  }

  /** One send: replayed, lost before or after acceptance, refused, or accepted. */
  function Placed(symbols: map<string, Spec>, env: Conditions, book: Book, request: OrderRequest, pending: bool)
    : (Book, Reply)
  {
    var called := book.(sendCalls := book.sendCalls + 1);
    if request.key in book.reports then (called, Replied(book.reports[request.key]))
    else
      var behavior := NextBehavior(book);
      var popped := called.(behaviors := if book.behaviors == [] then [] else book.behaviors[1..]);
      if behavior == TimeoutBeforeAccept then (popped, Indeterminate(LOST_BEFORE))
      else
        var checked := popped.(checkCalls := book.checkCalls + 1);
        var check := Validated(symbols, env, request);
        if check.Err? then (checked, Raised(check.error))
        else if !check.value.accepted || behavior == Reject then
          (checked, Replied(Refusal(request, check.value.reasons, env.now)))
        else
          var price := if request.symbol in env.ticks then OrderPrice(request, env.ticks[request.symbol]) else 0.0;
          var (entered, report) := Accepted(checked, request, pending, price, env.now);
          (entered, if behavior == TimeoutAfterAccept then Indeterminate(LOST_AFTER) else Replied(report))
  }

  function Modified(env: Conditions, book: Book, ticket: string, stopLoss: real, takeProfit: Option<real>)
    : (Book, Result<bool>)
  {
    if !env.Up() then (book, Err(UNAVAILABLE))
    else
      var called := book.(modifyCalls := book.modifyCalls + 1);
      var position := Find(book.positions, ticket);
      if position.None? || stopLoss <= 0.0 || !env.modificationAllowed then (called, Ok(false))
      else (called.(positions := Put(book.positions, position.value.(stopLoss := stopLoss, takeProfit := takeProfit))),
            Ok(true))
  }

  function Closed(env: Conditions, book: Book, ticket: string, volume: Option<real>): (Book, Result<Report>) {
    if !env.Up() then (book, Err(UNAVAILABLE))
    else
      var called := book.(closeCalls := book.closeCalls + 1);
      var found := Find(book.positions, ticket);
      if found.None? then
        (called, Ok(Report(false, "close:" + ticket, Some(ticket), None, None, 0.0, "MOCK_NOT_FOUND",
                           "position not found", env.now)))
      else
        var position := found.value;
        var size := if volume.Some? && volume.value != 0.0 then volume.value else position.volume;
        if size <= 0.0 || size > position.volume then
          (called, Err("close volume is outside the open position volume"))
        else
          var report := Report(true, "close:" + ticket + ":" + Decimal(called.closeCalls), Some(ticket),
                               Some(position.currentPrice), Some(position.currentPrice), size, "MOCK_CLOSED",
                               "position closed", env.now);
          (called.(positions := if size == position.volume then Without(book.positions, ticket)
                                else Put(book.positions, position.(volume := position.volume - size))),
           Ok(report))
  }

  function HasOrder(orders: seq<Order>, ticket: string): bool {
    exists i :: 0 <= i < |orders| && orders[i].ticket == ticket
  }

  function CancelledOrder(env: Conditions, book: Book, ticket: string): (Book, Result<bool>) {
    if !env.Up() then (book, Err(UNAVAILABLE))
    else (book.(orders := WithoutOrder(book.orders, ticket)), Ok(HasOrder(book.orders, ticket)))
  }

  function OnSymbol(positions: seq<Position>, symbol: string): seq<Position> {
    if positions == [] then []
    else (if positions[0].symbol == symbol then [positions[0]] else []) + OnSymbol(positions[1..], symbol)
  }

  function OrdersOnSymbol(orders: seq<Order>, symbol: string): seq<Order> {
    if orders == [] then []
    else (if orders[0].symbol == symbol then [orders[0]] else []) + OrdersOnSymbol(orders[1..], symbol)
  }

  // ---------------------------------------------------------------------------
  // The broker object
  // ---------------------------------------------------------------------------

  class Broker {
    const symbols: map<string, Spec>
    var positions: seq<Position>
    var orders: seq<Order>
    var reports: map<string, Report>
    var behaviors: seq<SendBehavior>
    var tickets: nat
    var sendCalls: nat
    var checkCalls: nat
    var modifyCalls: nat
    var closeCalls: nat

    constructor (symbols: map<string, Spec>, behaviors: seq<SendBehavior>)
      ensures this.symbols == symbols
      ensures Contents() == Book([], [], map[], behaviors, 0, 0, 0, 0, 0)
    {
      this.symbols, this.behaviors := symbols, behaviors;
      positions, orders, reports := [], [], map[];
      tickets, sendCalls, checkCalls, modifyCalls, closeCalls := 0, 0, 0, 0, 0;
    }

    function Contents(): Book
      reads this
    {
      Book(positions, orders, reports, behaviors, tickets, sendCalls, checkCalls, modifyCalls, closeCalls)
    }

    method GetPositions(env: Conditions) returns (r: Result<seq<Position>>)
      ensures r == if env.Up() then Ok(positions) else Err(UNAVAILABLE)
    {
      return if env.Up() then Ok(positions) else Err(UNAVAILABLE);
    }

    method GetOrders(env: Conditions) returns (r: Result<seq<Order>>)
      ensures r == if env.Up() then Ok(orders) else Err(UNAVAILABLE)
    {
      return if env.Up() then Ok(orders) else Err(UNAVAILABLE);
    }

    /** Counts the call and collects every reason against the order. */
    method ValidateOrder(env: Conditions, request: OrderRequest) returns (r: Result<Check>)
      modifies this`checkCalls
      ensures r == Validated(symbols, env, request)
      ensures checkCalls == old(checkCalls) + 1
    {
      checkCalls := checkCalls + 1;
      if request.symbol !in symbols || !env.Up() || request.symbol !in env.ticks {
        return Ok(Check(false, ["SYMBOL_OR_TICK_UNAVAILABLE"]));
      }
      var spec, tick := symbols[request.symbol], env.ticks[request.symbol];
      if env.account.leverage == 0 {
        return Err("account leverage is unavailable");
      }
      var reasons := CollectReasons(spec, tick, env, request);
      return Ok(Check(reasons == [], reasons));
    }

    static method CollectReasons(spec: Spec, tick: Tick, env: Conditions, request: OrderRequest)
      returns (reasons: seq<string>)
      requires env.account.leverage > 0
      ensures reasons == ReasonsAgainst(spec, tick, env, request)
    {
      hide OnGrid;
      reasons := [];
      if !env.HealthCheck().tradingAllowed {
        reasons := reasons + ["BROKER_UNHEALTHY"];
      }
      if !env.marketOpen {
        reasons := reasons + ["MARKET_CLOSED"];
      }
      if request.volume < spec.volumeMin || request.volume > spec.volumeMax {
        reasons := reasons + ["INVALID_VOLUME"];
      } else if !OnGrid(spec, request.volume) {
        reasons := reasons + ["INVALID_VOLUME_STEP"];
      }
      var price := OrderPrice(request, tick);
      var wrongSide, tooClose := ProtectionFaults(spec, request, price);
      if wrongSide {
        reasons := reasons + ["INVALID_PROTECTION_SIDE"];
      }
      if tooClose {
        reasons := reasons + ["STOP_TOO_CLOSE"];
      }
      hide Margin, ProtectionOnSide, StopDistance, MinimumDistance, OrderPrice;
      var margin := Margin(spec, request, price, env.account.leverage);
      if margin > env.account.freeMargin {
        reasons := reasons + ["INSUFFICIENT_MARGIN"];
      }
    }

    static method ProtectionFaults(spec: Spec, request: OrderRequest, price: real)
      returns (wrongSide: bool, tooClose: bool)
      ensures wrongSide == !ProtectionOnSide(request, price)
      ensures tooClose == (StopDistance(request, price) < MinimumDistance(spec))
    {
      var minimum := spec.point * spec.stopsLevelPoints as real;
      var targets := request.takeProfits;
      if request.direction == Long {
        wrongSide := request.stopLoss >= price || exists i :: 0 <= i < |targets| && targets[i] <= price;
        tooClose := price - request.stopLoss < minimum;
      } else {
        wrongSide := request.stopLoss <= price || exists i :: 0 <= i < |targets| && targets[i] >= price;
        tooClose := request.stopLoss - price < minimum;
      }
    }

    /** Sends an order, following the next scripted behaviour. */
    method Place(env: Conditions, request: OrderRequest, pending: bool) returns (reply: Reply)
      modifies this
      ensures (Contents(), reply) == Placed(symbols, env, old(Contents()), request, pending)
    {
      hide Validated, Accepted, Refusal;
      sendCalls := sendCalls + 1;
      if request.key in reports {
        return Replied(reports[request.key]);
      }
      var behavior := Normal;
      if behaviors != [] {
        behavior := behaviors[0];
        behaviors := behaviors[1..];
      }
      if behavior == TimeoutBeforeAccept {
        return Indeterminate(LOST_BEFORE);
      }
      var check := ValidateOrder(env, request);
      if check.Err? {
        return Raised(check.error);
      }
      if !check.value.accepted || behavior == Reject {
        return Replied(Refusal(request, check.value.reasons, env.now));
      }
      var price := if request.symbol in env.ticks then OrderPrice(request, env.ticks[request.symbol]) else 0.0;
      var report := Enter(request, pending, price, env.now);
      if behavior == TimeoutAfterAccept {
        return Indeterminate(LOST_AFTER);
      }
      return Replied(report);
    }

    /** Books an accepted order as a pending order or an open position. */
    method Enter(request: OrderRequest, pending: bool, price: real, now: Time) returns (report: Report)
      modifies this
      ensures (Contents(), report) == Accepted(old(Contents()), request, pending, price, now)
    {
      hide PutOrder, Put, Decimal;
      tickets := tickets + 1;
      var ticket := TicketText(if pending then 'O' else 'P', tickets);
      report := Report(true, request.key, Some(ticket), request.requestedPrice, if pending then None else Some(price),
                       request.volume, if pending then "MOCK_PLACED" else "MOCK_FILLED",
                       if pending then "pending order placed" else "market order filled", now);
      reports := reports[request.key := report];
      if pending {
        orders := PutOrder(orders,
                           Order(ticket, request.symbol, request.direction, request.orderType, request.volume, price,
                                         request.stopLoss, Some(request.LastTarget()), Pending, now, request.key));
      } else {
        positions := Put(positions, Position(ticket, request.symbol, request.direction, request.volume, price, price,
                                             request.stopLoss, Some(request.LastTarget()), now, request.strategyId,
                                             Some(request.signalId)));
      }
    }

    method ModifyPosition(env: Conditions, ticket: string, stopLoss: real, takeProfit: Option<real>)
      returns (r: Result<bool>)
      modifies this
      ensures (Contents(), r) == Modified(env, old(Contents()), ticket, stopLoss, takeProfit)
    {
      if !env.Up() {
        return Err(UNAVAILABLE);
      }
      modifyCalls := modifyCalls + 1;
      var position := Find(positions, ticket);
      if position.None? || stopLoss <= 0.0 || !env.modificationAllowed {
        return Ok(false);
      }
      positions := Put(positions, position.value.(stopLoss := stopLoss, takeProfit := takeProfit));
      return Ok(true);
    }

    method ClosePosition(env: Conditions, ticket: string, volume: Option<real>) returns (r: Result<Report>)
      modifies this
      ensures (Contents(), r) == Closed(env, old(Contents()), ticket, volume)
    {
      hide Decimal, Put, Without;
      if !env.Up() {
        return Err(UNAVAILABLE);
      }
      closeCalls := closeCalls + 1;
      var found := Find(positions, ticket);
      if found.None? {
        return Ok(Report(false, "close:" + ticket, Some(ticket), None, None, 0.0, "MOCK_NOT_FOUND",
                         "position not found", env.now));
      }
      var position := found.value;
      var size := if volume.Some? && volume.value != 0.0 then volume.value else position.volume;
      if size <= 0.0 || size > position.volume {
        return Err("close volume is outside the open position volume");
      }
      if size == position.volume {
        positions := Without(positions, ticket);
      } else {
        positions := Put(positions, position.(volume := position.volume - size));
      }
      return Ok(Report(true, "close:" + ticket + ":" + Decimal(closeCalls), Some(ticket), Some(position.currentPrice),
                       Some(position.currentPrice), size, "MOCK_CLOSED", "position closed", env.now));
    }

    method CancelOrder(env: Conditions, ticket: string) returns (r: Result<bool>)
      modifies this
      ensures (Contents(), r) == CancelledOrder(env, old(Contents()), ticket)
    {
      if !env.Up() {
        return Err(UNAVAILABLE);
      }
      var present := exists i :: 0 <= i < |orders| && orders[i].ticket == ticket;
      orders := WithoutOrder(orders, ticket);
      return Ok(present);
    }
  }
}
