/** Management of open positions: partial closes, break-even moves and trailing stops. */
module Positions {
  import opened Domain
  import opened Trading
  import opened MockBroker

  datatype Action = Action(applied: bool, reason: string, position: Option<Position>, report: Option<Report>)

  datatype TrailMode =
    | Fixed(distance: Option<real>)
    | AverageRange(range: Option<real>, multiple: real)
    | StructureStop(stop: Option<real>)

  // ---------------------------------------------------------------------------
  // Specifications over the broker's book
  // ---------------------------------------------------------------------------

  function Located(env: Conditions, book: Book, ticket: string): Result<Position> {
    if !env.Up() then Err(UNAVAILABLE)
    else if Find(book.positions, ticket).None? then Err("position was not found")
    else Ok(Find(book.positions, ticket).value)
  }

  /** The part of a volume that a fraction allows to be closed in whole steps. */
  function CloseVolume(spec: Spec, volume: real, fraction: real): real {
    (Share(volume, fraction) / spec.volumeStep).Floor as real * spec.volumeStep
  }

  function Share(volume: real, fraction: real): real {
    volume * fraction
  }

  function ClosedPartly(resolve: string -> Result<Spec>, first: Conditions, second: Conditions, third: Conditions,
                        book: Book, ticket: string, fraction: real): (Book, Result<Action>)
  {
    if fraction <= 0.0 || fraction > 1.0 then (book, Err("partial-close fraction must be in (0, 1]"))
    else
      var located := Located(first, book, ticket);
      if located.Err? then (book, Err(located.error))
      else if fraction == 1.0 then ClosedBy(second, book, ticket, None, "POSITION_CLOSED")
      else if !second.Up() then (book, Err(UNAVAILABLE))
      else
        var resolved := resolve(located.value.symbol);
        if resolved.Err? then (book, Err(resolved.error))
        else
          var spec, position := resolved.value, located.value;
          var size := CloseVolume(spec, position.volume, fraction);
          var remaining := position.volume - size;
          if size < spec.volumeMin then
            (book, Ok(Action(false, "PARTIAL_VOLUME_BELOW_BROKER_MINIMUM", Some(position), None)))
          else if remaining != 0.0 && remaining < spec.volumeMin then
            (book, Ok(Action(false, "PARTIAL_CLOSE_LEAVES_INVALID_REMAINDER", Some(position), None)))
          else ClosedBy(third, book, ticket, Some(size), "PARTIAL_CLOSE_EXECUTED")
  }

  function ClosedBy(env: Conditions, book: Book, ticket: string, volume: Option<real>, reason: string)
    : (Book, Result<Action>)
  {
    var (after, report) := Closed(env, book, ticket, volume);
    (after, if report.Err? then Err(report.error)
     else Ok(Action(report.value.success, reason, None, Some(report.value))))
  }

  /** A stop on the better side of the present one. */
  predicate Improves(position: Position, stop: real) {
    if position.direction == Long then stop > position.stopLoss else stop < position.stopLoss
  }

  /** A stop that the current price has not yet passed. */
  predicate Protective(position: Position, stop: real) {
    if position.direction == Long then stop < position.currentPrice else stop > position.currentPrice
  }

  /** Asks the broker to move the stop and leave the target; a final read confirms it. */
  function Restopped(second: Conditions, third: Conditions, book: Book, position: Position, ticket: string, stop: real,
                     applied: string, refused: string): (Book, Result<Action>)
  {
    var (after, modified) := Modified(second, book, ticket, stop, position.takeProfit);
    (after,
     if modified.Err? then Err(modified.error)
     else if !modified.value then Ok(Action(false, refused, Some(position), None))
     else
       var confirmed := Located(third, after, ticket);
       if confirmed.Err? then Err(confirmed.error) else Ok(Action(true, applied, Some(confirmed.value), None)))
  }

  function BreakEvenStop(position: Position, costs: real): real {
    if position.direction == Long then position.openPrice + costs else position.openPrice - costs
  }

  function MovedToBreakEven(first: Conditions, second: Conditions, third: Conditions, book: Book, ticket: string,
                            spread: real, commission: real, slippage: real): (Book, Result<Action>)
  {
    if spread < 0.0 || commission < 0.0 || slippage < 0.0
    then (book, Err("break-even cost components cannot be negative"))
    else
      var located := Located(first, book, ticket);
      if located.Err? then (book, Err(located.error))
      else
        var position := located.value;
        var stop := BreakEvenStop(position, spread + commission + slippage);
        if !Improves(position, stop)
        then (book, Ok(Action(false, "BREAK_EVEN_WOULD_NOT_IMPROVE_STOP", Some(position), None)))
        else if !Protective(position, stop) then
          (book, Ok(Action(false, "PRICE_HAS_NOT_CLEARED_BREAK_EVEN_BUFFER", Some(position), None)))
        else Restopped(second, third, book, position, ticket, stop, "BREAK_EVEN_APPLIED", "BREAK_EVEN_BROKER_REJECTED")
  }

  function Behind(position: Position, distance: real): real {
    if position.direction == Long then position.currentPrice - distance else position.currentPrice + distance
  }

  function Candidate(position: Position, mode: TrailMode): Result<real> {
    match mode
    case Fixed(distance) =>
      if distance.None? || distance.value <= 0.0 then Err("fixed trailing requires a positive distance")
      else Ok(Behind(position, distance.value))
    case AverageRange(range, multiple) =>
      if range.None? || range.value <= 0.0 || multiple <= 0.0
      then Err("ATR trailing requires positive ATR and multiple")
      else Ok(Behind(position, Share(range.value, multiple)))
    case StructureStop(stop) =>
      if stop.None? || stop.value <= 0.0 then Err("structure trailing requires a positive structure stop")
      else Ok(stop.value)
  }

  function Trailed(enabled: bool, first: Conditions, second: Conditions, third: Conditions, book: Book, ticket: string,
                   mode: TrailMode): (Book, Result<Action>)
  {
    if !enabled then (book, Ok(Action(false, "TRAILING_DISABLED", None, None)))
    else
      var located := Located(first, book, ticket);
      if located.Err? then (book, Err(located.error))
      else
        var position := located.value;
        var candidate := Candidate(position, mode);
        if candidate.Err? then (book, Err(candidate.error))
        else if !Improves(position, candidate.value) || !Protective(position, candidate.value) then
          (book, Ok(Action(false, "TRAILING_STOP_NOT_AN_IMPROVEMENT", Some(position), None)))
        else
          Restopped(second, third, book, position, ticket, candidate.value, "TRAILING_STOP_APPLIED",
                    "TRAILING_STOP_BROKER_REJECTED")
  }

  // ---------------------------------------------------------------------------
  // The manager
  // ---------------------------------------------------------------------------

  class PositionManager {
    const broker: Broker
    const resolve: string -> Result<Spec>
    const trailingEnabled: bool

    constructor (broker: Broker, resolve: string -> Result<Spec>, trailingEnabled: bool)
      ensures this.broker == broker && this.resolve == resolve && this.trailingEnabled == trailingEnabled
    {
      this.broker, this.resolve, this.trailingEnabled := broker, resolve, trailingEnabled;
    }

    method Locate(env: Conditions, ticket: string) returns (r: Result<Position>)
      ensures r == Located(env, broker.Contents(), ticket)
    {
      var positions := broker.GetPositions(env);
      if positions.Err? {
        return Err(positions.error);
      }
      var found := Find(positions.value, ticket);
      return if found.None? then Err("position was not found") else Ok(found.value);
    }

    method PartialClose(first: Conditions, second: Conditions, third: Conditions, ticket: string, fraction: real)
      returns (r: Result<Action>)
      modifies broker
      ensures (broker.Contents(), r)
              == ClosedPartly(resolve, first, second, third, old(broker.Contents()), ticket, fraction)
    {
      hide Closed, CloseVolume;
      if fraction <= 0.0 || fraction > 1.0 {
        return Err("partial-close fraction must be in (0, 1]");
      }
      var position :- Locate(first, ticket);
      if fraction == 1.0 {
        var report :- broker.ClosePosition(second, ticket, None);
        return Ok(Action(report.success, "POSITION_CLOSED", None, Some(report)));
      }
      if !second.Up() {
        return Err(UNAVAILABLE);
      }
      var spec :- resolve(position.symbol);
      var size := CloseVolume(spec, position.volume, fraction);
      var remaining := position.volume - size;
      if size < spec.volumeMin {
        return Ok(Action(false, "PARTIAL_VOLUME_BELOW_BROKER_MINIMUM", Some(position), None));
      }
      if remaining != 0.0 && remaining < spec.volumeMin {
        return Ok(Action(false, "PARTIAL_CLOSE_LEAVES_INVALID_REMAINDER", Some(position), None));
      }
      var report :- broker.ClosePosition(third, ticket, Some(size));
      return Ok(Action(report.success, "PARTIAL_CLOSE_EXECUTED", None, Some(report)));
    }

    method MoveToBreakEven(first: Conditions, second: Conditions, third: Conditions, ticket: string,
                           spread: real, commission: real, slippage: real)
      returns (r: Result<Action>)
      modifies broker
      ensures (broker.Contents(), r)
           == MovedToBreakEven(first, second, third, old(broker.Contents()), ticket, spread, commission, slippage)
    {
      hide Modified;
      var costs := spread + commission + slippage;
      if spread < 0.0 || commission < 0.0 || slippage < 0.0 {
        return Err("break-even cost components cannot be negative");
      }
      var position :- Locate(first, ticket);
      var stop := if position.direction == Long then position.openPrice + costs else position.openPrice - costs;
      var improves := if position.direction == Long then stop > position.stopLoss else stop < position.stopLoss;
      var protectable := if position.direction == Long then stop < position.currentPrice
                         else stop > position.currentPrice;
      if !improves {
        return Ok(Action(false, "BREAK_EVEN_WOULD_NOT_IMPROVE_STOP", Some(position), None));
      }
      if !protectable {
        return Ok(Action(false, "PRICE_HAS_NOT_CLEARED_BREAK_EVEN_BUFFER", Some(position), None));
      }
      var modified :- broker.ModifyPosition(second, ticket, stop, position.takeProfit);
      if !modified {
        return Ok(Action(false, "BREAK_EVEN_BROKER_REJECTED", Some(position), None));
      }
      var confirmed :- Locate(third, ticket);
      return Ok(Action(true, "BREAK_EVEN_APPLIED", Some(confirmed), None));
    }

    method Trail(first: Conditions, second: Conditions, third: Conditions, ticket: string, mode: TrailMode)
      returns (r: Result<Action>)
      modifies broker
      ensures (broker.Contents(), r)
              == Trailed(trailingEnabled, first, second, third, old(broker.Contents()), ticket, mode)
    {
      hide Modified, Candidate;
      if !trailingEnabled {
        return Ok(Action(false, "TRAILING_DISABLED", None, None));
      }
      var position :- Locate(first, ticket);
      var candidate :- Candidate(position, mode);
      var improves := if position.direction == Long then candidate > position.stopLoss
                      else candidate < position.stopLoss;
      var validSide := if position.direction == Long then candidate < position.currentPrice
                       else candidate > position.currentPrice;
      if !improves || !validSide {
        return Ok(Action(false, "TRAILING_STOP_NOT_AN_IMPROVEMENT", Some(position), None));
      }
      var modified :- broker.ModifyPosition(second, ticket, candidate, position.takeProfit);
      if !modified {
        return Ok(Action(false, "TRAILING_STOP_BROKER_REJECTED", Some(position), None));
      }
      var confirmed :- Locate(third, ticket);
      return Ok(Action(true, "TRAILING_STOP_APPLIED", Some(confirmed), None));
    }
  }
}
