/** The lifecycle of a trade. */
module StateMachine {
  import opened Domain

  datatype TradeState =
    | Scanning | SignalFound | WaitingForEntry | EntryReady | OrderPending | OrderFilled | PositionOpen
    | Tp1Hit | BreakEven | Closing | Closed | StoppedOut | Expired | Cancelled | Error

  datatype StateTransition = StateTransition(previous: TradeState, current: TradeState, reason: string)

  function Allowed(state: TradeState): set<TradeState> {
    match state
    case Scanning => {SignalFound, Error}
    case SignalFound => {WaitingForEntry, EntryReady, Cancelled, Error}
    case WaitingForEntry => {EntryReady, Expired, Cancelled, Error}
    case EntryReady => {OrderPending, OrderFilled, Expired, Error}
    case OrderPending => {OrderFilled, Cancelled, Expired, Error}
    case OrderFilled => {PositionOpen, Error}
    case PositionOpen => {Tp1Hit, BreakEven, Closing, Closed, StoppedOut, Error}
    case Tp1Hit => {BreakEven, Closing, Closed, StoppedOut, Error}
    case BreakEven => {Closing, Closed, StoppedOut, Error}
    case Closing => {Closed, Error}
    case Error => {Cancelled, Closing, Closed}
    case Closed => {}
    case StoppedOut => {}
    case Expired => {}
    case Cancelled => {}
  }

  predicate IsSpace(c: char) {
    var n := c as int;
    || 9 <= n <= 13 || 28 <= n <= 32 || n == 0x85 || n == 0xA0 || n == 0x1680 || 0x2000 <= n <= 0x200A
    || n == 0x2028 || n == 0x2029 || n == 0x202F || n == 0x205F || n == 0x3000
  }

  predicate Blank(reason: string) {
    forall i :: 0 <= i < |reason| ==> IsSpace(reason[i])
  }

  /** The transition out of a state, or the error raised instead. */
  function Moved(state: TradeState, target: TradeState, reason: string): Result<StateTransition> {
    if Blank(reason) then Err("a state transition reason is required")
    else if target !in Allowed(state) then Err("cannot transition")
    else Ok(StateTransition(state, target, reason))
  }

  class TradeStateMachine {
    var state: TradeState

    constructor (initial: TradeState)
      ensures state == initial
    {
      state := initial;
    }

    /** Moves along an allowed edge, for a stated reason; otherwise refuses and stays. */
    method Transition(target: TradeState, reason: string) returns (r: Result<StateTransition>)
      modifies this
      ensures r == Moved(old(state), target, reason)
      ensures state == if r.Ok? then target else old(state)
    {
      if Blank(reason) {
        return Err("a state transition reason is required");
      }
      if target !in Allowed(state) {
        return Err("cannot transition");
      }
      r := Ok(StateTransition(state, target, reason));
      state := target;
    }
  }

  // ---------------------------------------------------------------------------
  // Every lifecycle
  // ---------------------------------------------------------------------------

  /** The states a machine passes through, in order. */
  ghost predicate Lifecycle(states: seq<TradeState>) {
    forall i :: 0 < i < |states| ==> states[i] in Allowed(states[i - 1])
  }

  function Stage(state: TradeState): nat {
    match state
    case Scanning => 0
    case SignalFound => 1
    case WaitingForEntry => 2
    case EntryReady => 3
    case OrderPending => 4
    case OrderFilled => 5
    case PositionOpen => 6
    case Tp1Hit => 7
    case BreakEven => 8
    case Closing => 9
    case Error => 9
    case Closed => 10
    case StoppedOut => 10
    case Expired => 10
    case Cancelled => 10
  }

  lemma StageGrows(state: TradeState, next: TradeState)
    requires next in Allowed(state)
    ensures Stage(state) < Stage(next) || (state in {Closing, Error} && next in {Closing, Error})
  {
  }

  lemma {:induction false} StagesOrdered(states: seq<TradeState>, i: nat, j: nat)
    requires Lifecycle(states) && i < j < |states|
    ensures Stage(states[i]) <= Stage(states[j])
    ensures Stage(states[i]) == Stage(states[j]) ==> states[i] in {Closing, Error} && states[j] in {Closing, Error}
    decreases j - i
  {
    StageGrows(states[i], states[i + 1]);
    if i + 1 < j {
      StagesOrdered(states, i + 1, j);
    }
  }

  /** No lifecycle comes back to a state, except that closing can fail and be tried again. */
  lemma EachStateOnce(states: seq<TradeState>, i: nat, j: nat)
    requires Lifecycle(states) && i < j < |states| && states[i] == states[j]
    ensures states[i] in {Closing, Error}
  {
    StagesOrdered(states, i, j);
  }

  /** A lifecycle shows an open position only directly after a confirmed fill, and at most once. */
  lemma OpenOnlyAfterFill(states: seq<TradeState>, i: nat)
    requires Lifecycle(states) && 0 < i < |states| && states[i] == PositionOpen
    ensures states[i - 1] == OrderFilled
    ensures forall j :: 0 <= j < |states| && states[j] == PositionOpen ==> j == i
  {
    forall j | 0 <= j < |states| && states[j] == PositionOpen
      ensures j == i
    {
      if j < i {
        EachStateOnce(states, j, i);
      } else if i < j {
        EachStateOnce(states, i, j);
      }
    }
    assert states[i] in Allowed(states[i - 1]);
  }

  /** A lifecycle ends for good exactly in the four terminal states. */
  lemma TerminalIffNoExit(state: TradeState)
    ensures Allowed(state) == {} <==> state in {Closed, StoppedOut, Expired, Cancelled}
  {
    assert SignalFound in Allowed(Scanning) && Error in Allowed(SignalFound) && Error in Allowed(WaitingForEntry)
        && Error in Allowed(EntryReady) && Error in Allowed(OrderPending) && Error in Allowed(OrderFilled)
        && Error in Allowed(PositionOpen) && Error in Allowed(Tp1Hit) && Error in Allowed(BreakEven)
        && Error in Allowed(Closing) && Closed in Allowed(Error);
  }
}
