/** What any sequence of management calls, at any prices, can do to one position. */
module PositionRuns {
  import opened Domain
  import opened Trading
  import opened MockBroker
  import opened Positions
  import Text

  /** One call of the manager on the position, or a change of its market price. */
  datatype Management =
    | Partial(fraction: real, first: Conditions, second: Conditions, third: Conditions)
    | ToBreakEven(spread: real, commission: real, slippage: real, first: Conditions, second: Conditions,
                  third: Conditions)
    | TrailBy(mode: TrailMode, first: Conditions, second: Conditions, third: Conditions)
    | PriceMove(price: real)

  function VolumeClosed(r: Result<Action>): real {
    if r.Ok? && r.value.applied && r.value.report.Some? then r.value.report.value.volume else 0.0
  }

  /** The book after one call, and the volume the call closed. */
  function Managed(resolve: string -> Result<Spec>, enabled: bool, book: Book, ticket: string, m: Management)
    : (Book, real)
  {
    match m
    case Partial(fraction, first, second, third) =>
      var (after, r) := ClosedPartly(resolve, first, second, third, book, ticket, fraction);
      (after, VolumeClosed(r))
    case ToBreakEven(spread, commission, slippage, first, second, third) =>
      (MovedToBreakEven(first, second, third, book, ticket, spread, commission, slippage).0, 0.0)
    case TrailBy(mode, first, second, third) => (Trailed(enabled, first, second, third, book, ticket, mode).0, 0.0)
    case PriceMove(price) =>
      var found := Find(book.positions, ticket);
      (if found.None? then book else book.(positions := Put(book.positions, found.value.(currentPrice := price))), 0.0)
  }

  /** The book and the total volume closed after a run. */
  function AfterAll(resolve: string -> Result<Spec>, enabled: bool, book: Book, ticket: string, run: seq<Management>)
    : (Book, real)
  {
    if run == [] then (book, 0.0)
    else
      var (before, total) := AfterAll(resolve, enabled, book, ticket, run[..|run| - 1]);
      var (after, closed) := Managed(resolve, enabled, before, ticket, run[|run| - 1]);
      (after, total + closed)
  }

  // ---------------------------------------------------------------------------
  // One call
  // ---------------------------------------------------------------------------

  /** The stop of `after` is no looser than that of `before`. */
  predicate NoLooser(before: Position, after: Position) {
    if before.direction == Long then before.stopLoss <= after.stopLoss else after.stopLoss <= before.stopLoss
  }

  /** The same position: its identity, direction and target stay, its stop is no looser, and volume is conserved. */
  predicate Continues(before: Position, after: Position, closed: real) {
    && after.ticket == before.ticket && after.symbol == before.symbol && after.direction == before.direction
    && after.openPrice == before.openPrice && after.takeProfit == before.takeProfit
    && NoLooser(before, after)
    && after.volume + closed == before.volume
  }

  predicate Effect(before: Option<Position>, after: Option<Position>, closed: real) {
    if before.None? then after.None? && closed == 0.0
    else closed >= 0.0 && if after.None? then closed == before.value.volume
    else Continues(before.value, after.value, closed)
  }

  lemma EffectsCompose(a: Option<Position>, b: Option<Position>, c: Option<Position>, first: real, second: real)
    requires Effect(a, b, first) && Effect(b, c, second)
    ensures Effect(a, c, first + second)
  {
  }

  /** A close takes its size off the position, removes it when nothing is left, and otherwise changes no position. */
  lemma ClosedExact(env: Conditions, book: Book, ticket: string, volume: Option<real>)
    requires UniqueTickets(book.positions)
    ensures var (after, r) := Closed(env, book, ticket, volume);
            var before, left := Find(book.positions, ticket), Find(after.positions, ticket);
            && UniqueTickets(after.positions)
            && (r.Ok? && r.value.success ==>
                  && before.Some? && r.value.volume > 0.0
                  && left == (if r.value.volume == before.value.volume then None
                              else Some(before.value.(volume := before.value.volume - r.value.volume)))
                  && r.value.volume == SizeToClose(before.value, volume))
            && (r.Err? || !r.value.success ==> after.positions == book.positions)
  {
    hide Find, Put, Without, UniqueTickets, Closed, HasTicket;
    ClosedShape(env, book, ticket, volume);
    var found := Find(book.positions, ticket);
    FindExact(book.positions, ticket);
    FindAfterWithout(book.positions, ticket, ticket);
    WithoutKeepsTickets(book.positions, ticket);
    if found.Some? {
      var size := SizeToClose(found.value, volume);
      var smaller := found.value.(volume := found.value.volume - size);
      FindAfterPut(book.positions, smaller, ticket);
      PutKeepsTickets(book.positions, smaller);
    }
  }

  function SizeToClose(position: Position, volume: Option<real>): real {
    if volume.Some? && volume.value != 0.0 then volume.value else position.volume
  }

  /** The three things a close can do to the positions. */
  lemma ClosedShape(env: Conditions, book: Book, ticket: string, volume: Option<real>)
    ensures var (after, r) := Closed(env, book, ticket, volume);
            var found := Find(book.positions, ticket);
            if r.Ok? && r.value.success then
              && found.Some? && r.value.volume == SizeToClose(found.value, volume) > 0.0
              && after.positions ==
                 if r.value.volume == found.value.volume then Without(book.positions, ticket)
                 else Put(book.positions, found.value.(volume := found.value.volume - r.value.volume))
            else after.positions == book.positions
  {
    hide Find, Put, Without, Text.Decimal;
  }

  lemma ModifiedExact(env: Conditions, book: Book, ticket: string, stop: real, target: Option<real>)
    requires UniqueTickets(book.positions)
    ensures var (after, r) := Modified(env, book, ticket, stop, target);
            && UniqueTickets(after.positions)
            && (r == Ok(true) ==>
                  && Find(book.positions, ticket).Some?
                  && Find(after.positions, ticket)
                     == Some(Find(book.positions, ticket).value.(stopLoss := stop, takeProfit := target)))
            && (r != Ok(true) ==> after.positions == book.positions)
  {
    var found := Find(book.positions, ticket);
    FindExact(book.positions, ticket);
    if found.Some? {
      var changed := found.value.(stopLoss := stop, takeProfit := target);
      FindAfterPut(book.positions, changed, ticket);
      PutKeepsTickets(book.positions, changed);
    }
    hide Find, Put, UniqueTickets;
  }

  lemma ClosedByEffect(env: Conditions, book: Book, ticket: string, volume: Option<real>, reason: string)
    requires UniqueTickets(book.positions)
    ensures var (after, r) := ClosedBy(env, book, ticket, volume, reason);
            UniqueTickets(after.positions)
            && Effect(Find(book.positions, ticket), Find(after.positions, ticket), VolumeClosed(r))
  {
    ClosedExact(env, book, ticket, volume);
    hide Closed, Find, UniqueTickets;
  }

  lemma NothingClosed(position: Option<Position>)
    ensures Effect(position, position, 0.0)
  {
  }

  /** A partial close conserves volume and touches nothing else of the position. */
  lemma PartialEffect(resolve: string -> Result<Spec>, first: Conditions, second: Conditions, third: Conditions,
                      book: Book, ticket: string, fraction: real)
    requires UniqueTickets(book.positions)
    ensures var (after, r) := ClosedPartly(resolve, first, second, third, book, ticket, fraction);
            UniqueTickets(after.positions)
            && Effect(Find(book.positions, ticket), Find(after.positions, ticket), VolumeClosed(r))
  {
    hide ClosedBy, Find, UniqueTickets, CloseVolume, Effect, Located;
    NothingClosed(Find(book.positions, ticket));
    ClosedByEffect(second, book, ticket, None, "POSITION_CLOSED");
    var located := Located(first, book, ticket);
    if located.Ok? && resolve(located.value.symbol).Ok? {
      var size := CloseVolume(resolve(located.value.symbol).value, located.value.volume, fraction);
      ClosedByEffect(third, book, ticket, Some(size), "PARTIAL_CLOSE_EXECUTED");
    }
  }

  /** A stop that is moved improves on the old one and lies on the protective side of the price at that moment. */
  predicate Ratchets(before: Option<Position>, after: Option<Position>) {
    before.Some? && after.Some? && after.value.stopLoss != before.value.stopLoss ==>
      Improves(before.value, after.value.stopLoss) && Protective(before.value, after.value.stopLoss)
  }

  lemma RestoppedEffect(second: Conditions, third: Conditions, book: Book, position: Position, ticket: string,
                        stop: real, applied: string, refused: string)
    requires UniqueTickets(book.positions) && Find(book.positions, ticket) == Some(position)
    requires Improves(position, stop) && Protective(position, stop)
    ensures var after := Restopped(second, third, book, position, ticket, stop, applied, refused).0;
            && UniqueTickets(after.positions)
            && Effect(Find(book.positions, ticket), Find(after.positions, ticket), 0.0)
            && Ratchets(Find(book.positions, ticket), Find(after.positions, ticket))
  {
    ModifiedExact(second, book, ticket, stop, position.takeProfit);
    hide Modified, Find, UniqueTickets, Located;
  }

  lemma LocatedIsFound(env: Conditions, book: Book, ticket: string)
    ensures Located(env, book, ticket).Ok? ==> Find(book.positions, ticket) == Some(Located(env, book, ticket).value)
  {
  }

  lemma BreakEvenEffect(first: Conditions, second: Conditions, third: Conditions, book: Book, ticket: string,
                        spread: real, commission: real, slippage: real)
    requires UniqueTickets(book.positions)
    ensures var after := MovedToBreakEven(first, second, third, book, ticket, spread, commission, slippage).0;
            && UniqueTickets(after.positions)
            && Effect(Find(book.positions, ticket), Find(after.positions, ticket), 0.0)
            && Ratchets(Find(book.positions, ticket), Find(after.positions, ticket))
  {
    NothingClosed(Find(book.positions, ticket));
    LocatedIsFound(first, book, ticket);
    hide Restopped, Find, UniqueTickets, Effect, Located, Improves, Protective;
    var located := Located(first, book, ticket);
    if located.Ok? {
      var stop := BreakEvenStop(located.value, spread + commission + slippage);
      if Improves(located.value, stop) && Protective(located.value, stop) {
        RestoppedEffect(second, third, book, located.value, ticket, stop, "BREAK_EVEN_APPLIED",
                        "BREAK_EVEN_BROKER_REJECTED");
      }
    }
  }

  lemma TrailEffect(enabled: bool, first: Conditions, second: Conditions, third: Conditions, book: Book, ticket: string,
                    mode: TrailMode)
    requires UniqueTickets(book.positions)
    ensures var after := Trailed(enabled, first, second, third, book, ticket, mode).0;
            && UniqueTickets(after.positions)
            && Effect(Find(book.positions, ticket), Find(after.positions, ticket), 0.0)
            && Ratchets(Find(book.positions, ticket), Find(after.positions, ticket))
  {
    NothingClosed(Find(book.positions, ticket));
    LocatedIsFound(first, book, ticket);
    hide Restopped, Find, UniqueTickets, Effect, Located, Improves, Protective, Candidate;
    var located := Located(first, book, ticket);
    if located.Ok? {
      var candidate := Candidate(located.value, mode);
      if candidate.Ok? && Improves(located.value, candidate.value) && Protective(located.value, candidate.value) {
        RestoppedEffect(second, third, book, located.value, ticket, candidate.value, "TRAILING_STOP_APPLIED",
                        "TRAILING_STOP_BROKER_REJECTED");
      }
    }
  }

  lemma PriceMoveEffect(book: Book, ticket: string, price: real)
    requires UniqueTickets(book.positions)
    ensures var found := Find(book.positions, ticket);
            var after := if found.None? then book
                         else book.(positions := Put(book.positions, found.value.(currentPrice := price)));
            UniqueTickets(after.positions) && Effect(found, Find(after.positions, ticket), 0.0)
            && Ratchets(found, Find(after.positions, ticket))
  {
    var found := Find(book.positions, ticket);
    FindExact(book.positions, ticket);
    NothingClosed(found);
    if found.Some? {
      FindAfterPut(book.positions, found.value.(currentPrice := price), ticket);
      PutKeepsTickets(book.positions, found.value.(currentPrice := price));
    }
    hide Find, Put, UniqueTickets;
  }

  lemma ManagedEffect(resolve: string -> Result<Spec>, enabled: bool, book: Book, ticket: string, m: Management)
    requires UniqueTickets(book.positions)
    ensures var (after, closed) := Managed(resolve, enabled, book, ticket, m);
            && UniqueTickets(after.positions)
            && Effect(Find(book.positions, ticket), Find(after.positions, ticket), closed)
  {
    match m
    case Partial(fraction, first, second, third) =>
      hide ClosedPartly, Find, UniqueTickets, Effect;
      PartialEffect(resolve, first, second, third, book, ticket, fraction);
    case ToBreakEven(spread, commission, slippage, first, second, third) =>
      hide MovedToBreakEven, Find, UniqueTickets, Effect;
      BreakEvenEffect(first, second, third, book, ticket, spread, commission, slippage);
    case TrailBy(mode, first, second, third) =>
      hide Trailed, Find, UniqueTickets, Effect;
      TrailEffect(enabled, first, second, third, book, ticket, mode);
    case PriceMove(price) =>
      hide Put, Find, UniqueTickets, Effect;
      PriceMoveEffect(book, ticket, price);
  }

  /**
   * Over any run of management calls at any prices, the position that is left has the same direction and target, a stop
   * no looser than at the start, and with what was closed its original volume; a position that is gone was closed
   * whole.
   */
  lemma {:induction false} RunEffect(resolve: string -> Result<Spec>, enabled: bool, book: Book, ticket: string,
                                     run: seq<Management>)
    requires UniqueTickets(book.positions)
    ensures var (after, total) := AfterAll(resolve, enabled, book, ticket, run);
            && UniqueTickets(after.positions)
            && Effect(Find(book.positions, ticket), Find(after.positions, ticket), total)
  {
    hide Find, UniqueTickets, Effect, Managed;
    if run == [] {
      NothingClosed(Find(book.positions, ticket));
    } else {
      RunEffect(resolve, enabled, book, ticket, run[..|run| - 1]);
      var (before, total) := AfterAll(resolve, enabled, book, ticket, run[..|run| - 1]);
      ManagedEffect(resolve, enabled, before, ticket, run[|run| - 1]);
      var (after, closed) := Managed(resolve, enabled, before, ticket, run[|run| - 1]);
      EffectsCompose(Find(book.positions, ticket), Find(before.positions, ticket), Find(after.positions, ticket), total,
                     closed);
    }
  }

  /**
   * Whenever a call in a run changes the stop, the new stop improves on the old and the price of that moment has not
   * passed it.
   */
  lemma EveryMoveRatchets(resolve: string -> Result<Spec>, enabled: bool, book: Book, ticket: string,
                          run: seq<Management>, m: Management)
    requires UniqueTickets(book.positions)
    ensures var before := AfterAll(resolve, enabled, book, ticket, run).0;
            Ratchets(Find(before.positions, ticket),
                     Find(Managed(resolve, enabled, before, ticket, m).0.positions, ticket))
  {
    RunEffect(resolve, enabled, book, ticket, run);
    var before := AfterAll(resolve, enabled, book, ticket, run).0;
    hide AfterAll, Find, UniqueTickets, Effect;
    match m
    case Partial(fraction, first, second, third) =>
      PartialKeepsStop(resolve, first, second, third, before, ticket, fraction);
      hide ClosedPartly;
    case ToBreakEven(spread, commission, slippage, first, second, third) =>
      hide MovedToBreakEven;
      BreakEvenEffect(first, second, third, before, ticket, spread, commission, slippage);
    case TrailBy(mode, first, second, third) =>
      hide Trailed;
      TrailEffect(enabled, first, second, third, before, ticket, mode);
    case PriceMove(price) =>
      hide Put;
      PriceMoveEffect(before, ticket, price);
  }

  lemma ClosedByKeepsStop(env: Conditions, book: Book, ticket: string, volume: Option<real>, reason: string)
    requires UniqueTickets(book.positions)
    ensures var before, after := Find(book.positions, ticket),
            Find(ClosedBy(env, book, ticket, volume, reason).0.positions, ticket);
            before.Some? && after.Some? ==> after.value.stopLoss == before.value.stopLoss
  {
    ClosedExact(env, book, ticket, volume);
    hide Closed, Find, UniqueTickets;
  }

  lemma PartialKeepsStop(resolve: string -> Result<Spec>, first: Conditions, second: Conditions, third: Conditions,
                         book: Book, ticket: string, fraction: real)
    requires UniqueTickets(book.positions)
    ensures var before := Find(book.positions, ticket);
            var after := Find(ClosedPartly(resolve, first, second, third, book, ticket, fraction).0.positions, ticket);
            before.Some? && after.Some? ==> after.value.stopLoss == before.value.stopLoss
  {
    hide ClosedBy, Find, UniqueTickets, CloseVolume, Located;
    ClosedByKeepsStop(second, book, ticket, None, "POSITION_CLOSED");
    var located := Located(first, book, ticket);
    if located.Ok? && resolve(located.value.symbol).Ok? {
      var size := CloseVolume(resolve(located.value.symbol).value, located.value.volume, fraction);
      ClosedByKeepsStop(third, book, ticket, Some(size), "PARTIAL_CLOSE_EXECUTED");
    }
  }

  // ---------------------------------------------------------------------------
  // What a partial close may take
  // ---------------------------------------------------------------------------

  /** The size is a whole number of steps, at most the fraction, and so less than the whole. */
  lemma CloseVolumeBounds(spec: Spec, volume: real, fraction: real)
    requires volume > 0.0 && 0.0 < fraction < 1.0
    ensures 0.0 <= CloseVolume(spec, volume, fraction) <= Share(volume, fraction) < volume
    ensures Share(volume, fraction) < CloseVolume(spec, volume, fraction) + spec.volumeStep
    ensures CloseVolume(spec, volume, fraction) == StepsOf(Steps(spec, volume, fraction), spec.volumeStep)
    ensures Steps(spec, volume, fraction) >= 0
  {
    ShareBounds(volume, fraction);
    hide Share;
    FloorBounds(Share(volume, fraction), spec.volumeStep);
    FloorNext(Share(volume, fraction), spec.volumeStep);
  }

  function Steps(spec: Spec, volume: real, fraction: real): int {
    (Share(volume, fraction) / spec.volumeStep).Floor
  }

  function StepsOf(n: int, step: real): real {
    n as real * step
  }

  lemma ShareBounds(volume: real, fraction: real)
    requires volume > 0.0 && 0.0 < fraction < 1.0
    ensures 0.0 < Share(volume, fraction) < volume
  {
    SharePositive(volume, fraction);
    ShareBelow(volume, fraction);
  }

  lemma SharePositive(volume: real, fraction: real)
    requires volume > 0.0 && fraction > 0.0
    ensures 0.0 < Share(volume, fraction)
  {
  }

  lemma ShareBelow(volume: real, fraction: real)
    requires volume > 0.0 && fraction < 1.0
    ensures Share(volume, fraction) < volume
  {
    ScaleStrict(fraction, 1.0, volume);
    assert fraction * volume < volume;
    assert volume * fraction < volume;
  }

  lemma FloorBounds(x: real, step: real)
    requires x > 0.0 && step > 0.0
    ensures (x / step).Floor >= 0 && 0.0 <= (x / step).Floor as real * step <= x
  {
    var q := x / step;
    var n := q.Floor as real;
    assert q * step == x;
    assert q > 0.0;
    Scale(n, q, step);
  }

  lemma FloorNext(x: real, step: real)
    requires x > 0.0 && step > 0.0
    ensures x < StepsOf((x / step).Floor, step) + step
  {
    var q := x / step;
    assert q * step == x;
    NextStep(x, q, q.Floor, step);
    hide StepsOf;
  }

  lemma NextStep(x: real, q: real, n: int, step: real)
    requires q < n as real + 1.0 && step > 0.0 && q * step == x
    ensures x < StepsOf(n, step) + step
  {
    var m := n as real;
    ScaleStrict(q, m + 1.0, step);
    assert (m + 1.0) * step == m * step + step;
  }

  /** A volume that lies on the broker's grid still does after whole steps are taken off it. */
  lemma GridAfterSteps(spec: Spec, volume: real, n: int)
    requires OnGrid(spec, volume)
    ensures OnGrid(spec, volume - StepsOf(n, spec.volumeStep))
  {
    var k := ((volume - spec.volumeMin) / spec.volumeStep).Floor;
    GridQuotient(volume - spec.volumeMin, spec.volumeStep, n);
    assert volume - StepsOf(n, spec.volumeStep) - spec.volumeMin
           == volume - spec.volumeMin - StepsOf(n, spec.volumeStep);
    FloorOfInteger(k - n);
  }

  lemma GridQuotient(x: real, step: real, n: int)
    requires step > 0.0
    ensures (x - StepsOf(n, step)) / step == x / step - n as real
  {
  }

  lemma FloorOfInteger(k: int)
    ensures (k as real).Floor == k
  {
  }

  /**
   * A partial close of less than the whole closes the greatest whole number of steps within the fraction, exactly when
   * both that size and what it leaves reach the broker's minimum; the remainder stays on the broker's grid.
   */
  lemma PartialCloseExact(resolve: string -> Result<Spec>, first: Conditions, second: Conditions, third: Conditions,
                          book: Book, ticket: string, fraction: real, position: Position, spec: Spec)
    requires UniqueTickets(book.positions) && Find(book.positions, ticket) == Some(position) && position.volume > 0.0
    requires first.Up() && second.Up() && third.Up() && 0.0 < fraction < 1.0 && resolve(position.symbol) == Ok(spec)
    ensures var (after, r) := ClosedPartly(resolve, first, second, third, book, ticket, fraction);
            var size := CloseVolume(spec, position.volume, fraction);
            && 0.0 <= size <= Share(position.volume, fraction) < position.volume
            && Share(position.volume, fraction) < size + spec.volumeStep
            && r.Ok? && (r.value.applied <==> spec.volumeMin <= size && spec.volumeMin <= position.volume - size)
            && (r.value.applied ==>
                  && VolumeClosed(r) == size
                  && Find(after.positions, ticket) == Some(position.(volume := position.volume - size))
                  && (OnGrid(spec, position.volume) ==> OnGrid(spec, position.volume - size)))
            && (!r.value.applied ==> after.positions == book.positions)
  {
    var size := CloseVolume(spec, position.volume, fraction);
    CloseVolumeBounds(spec, position.volume, fraction);
    if OnGrid(spec, position.volume) {
      GridAfterSteps(spec, position.volume, Steps(spec, position.volume, fraction));
    }
    hide CloseVolume, OnGrid, Share, Steps, StepsOf;
    if 0.0 < size {
      PartOfPosition(third, book, ticket, size, position);
    }
    hide Closed, Find, UniqueTickets;
  }

  lemma PartOfPosition(env: Conditions, book: Book, ticket: string, size: real, position: Position)
    requires UniqueTickets(book.positions) && Find(book.positions, ticket) == Some(position) && env.Up()
    requires 0.0 < size < position.volume
    ensures var (after, r) := Closed(env, book, ticket, Some(size));
            && r.Ok? && r.value.success && r.value.volume == size
            && Find(after.positions, ticket) == Some(position.(volume := position.volume - size))
  {
    ClosedExact(env, book, ticket, Some(size));
    hide Find, Put, Without, UniqueTickets, Text.Decimal;
  }

  // ---------------------------------------------------------------------------
  // What is left after any number of partial closes
  // ---------------------------------------------------------------------------

  /** A volume the broker could still trade. */
  predicate Tradable(spec: Spec, volume: real) {
    spec.volumeMin <= volume && OnGrid(spec, volume)
  }

  /** A position is left that the broker could still trade, under the same symbol. */
  predicate Left(spec: Spec, symbol: string, position: Option<Position>) {
    position.Some? && position.value.symbol == symbol && Tradable(spec, position.value.volume)
  }

  predicate ClosesAll(m: Management) {
    m.Partial? && m.fraction == 1.0
  }

  lemma PartLeaves(env: Conditions, book: Book, ticket: string, position: Position, spec: Spec, fraction: real)
    requires UniqueTickets(book.positions) && Find(book.positions, ticket) == Some(position)
    requires Tradable(spec, position.volume) && 0.0 < fraction < 1.0
    requires var size := CloseVolume(spec, position.volume, fraction);
             spec.volumeMin <= size && (position.volume - size != 0.0 ==> spec.volumeMin <= position.volume - size)
    ensures Left(spec, position.symbol, Find(Closed(env, book, ticket,
                                                    Some(CloseVolume(spec, position.volume, fraction))).0.positions,
                                                        ticket))
  {
    hide Find, UniqueTickets, Closed, CloseVolume, OnGrid, Share, Steps, StepsOf;
    var size := CloseVolume(spec, position.volume, fraction);
    CloseVolumeBounds(spec, position.volume, fraction);
    GridAfterSteps(spec, position.volume, Steps(spec, position.volume, fraction));
    ClosedExact(env, book, ticket, Some(size));
  }

  lemma PartialLeaves(resolve: string -> Result<Spec>, first: Conditions, second: Conditions, third: Conditions,
                      book: Book, ticket: string, fraction: real, position: Position, spec: Spec)
    requires UniqueTickets(book.positions) && Find(book.positions, ticket) == Some(position)
    requires resolve(position.symbol) == Ok(spec) && Tradable(spec, position.volume) && fraction != 1.0
    ensures Left(spec, position.symbol,
                 Find(ClosedPartly(resolve, first, second, third, book, ticket, fraction).0.positions, ticket))
  {
    LocatedIsFound(first, book, ticket);
    hide Find, UniqueTickets, Closed, CloseVolume, OnGrid, Located;
    if 0.0 < fraction < 1.0 {
      var size := CloseVolume(spec, position.volume, fraction);
      if spec.volumeMin <= size && (position.volume - size != 0.0 ==> spec.volumeMin <= position.volume - size) {
        PartLeaves(third, book, ticket, position, spec, fraction);
      }
    }
  }

  lemma EffectLeaves(spec: Spec, symbol: string, before: Option<Position>, after: Option<Position>)
    requires Left(spec, symbol, before) && Effect(before, after, 0.0)
    ensures Left(spec, symbol, after)
  {
    hide OnGrid;
  }

  lemma ManagedLeaves(resolve: string -> Result<Spec>, enabled: bool, book: Book, ticket: string, m: Management,
                      symbol: string, spec: Spec)
    requires UniqueTickets(book.positions) && resolve(symbol) == Ok(spec)
             && Left(spec, symbol, Find(book.positions, ticket))
    ensures ClosesAll(m) || Left(spec, symbol, Find(Managed(resolve, enabled, book, ticket, m).0.positions, ticket))
  {
    hide ClosedPartly, MovedToBreakEven, Trailed, Put, Find, UniqueTickets, Effect, Tradable;
    ManagedEffect(resolve, enabled, book, ticket, m);
    if m.Partial? && m.fraction != 1.0 {
      PartialLeaves(resolve, m.first, m.second, m.third, book, ticket, m.fraction, Find(book.positions, ticket).value,
                    spec);
    }
    if !m.Partial? {
      EffectLeaves(spec, symbol, Find(book.positions, ticket),
                   Find(Managed(resolve, enabled, book, ticket, m).0.positions, ticket));
    }
  }

  /**
   * However often a position is partly closed, trailed or moved to break even, with calls failing anywhere, it stays
   * open, at or above the broker's minimum and on its grid, unless some call asked for the whole of it.
   */
  lemma {:induction false} RunLeavesTradable(resolve: string -> Result<Spec>, enabled: bool, book: Book, ticket: string,
                                             run: seq<Management>, symbol: string, spec: Spec)
    requires UniqueTickets(book.positions) && resolve(symbol) == Ok(spec)
             && Left(spec, symbol, Find(book.positions, ticket))
    requires forall i :: 0 <= i < |run| ==> !ClosesAll(run[i])
    ensures Left(spec, symbol, Find(AfterAll(resolve, enabled, book, ticket, run).0.positions, ticket))
  {
    hide Find, UniqueTickets, Left, Managed, Effect, ClosesAll;
    if run != [] {
      var front := run[..|run| - 1];
      RunLeavesTradable(resolve, enabled, book, ticket, front, symbol, spec);
      RunEffect(resolve, enabled, book, ticket, front);
      ManagedLeaves(resolve, enabled, AfterAll(resolve, enabled, book, ticket, front).0, ticket, run[|run| - 1], symbol,
                    spec);
    }
  }

  /** So a position that is gone after a run was closed whole by one call of it. */
  lemma GoneWasClosedWhole(resolve: string -> Result<Spec>, enabled: bool, book: Book, ticket: string,
                           run: seq<Management>, symbol: string, spec: Spec)
    requires UniqueTickets(book.positions) && resolve(symbol) == Ok(spec)
             && Left(spec, symbol, Find(book.positions, ticket))
    requires Find(AfterAll(resolve, enabled, book, ticket, run).0.positions, ticket).None?
    ensures exists i :: 0 <= i < |run| && ClosesAll(run[i])
  {
    if forall i :: 0 <= i < |run| ==> !ClosesAll(run[i]) {
      RunLeavesTradable(resolve, enabled, book, ticket, run, symbol, spec);
    }
  }
}
