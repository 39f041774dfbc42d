/** Signals, orders and positions at the boundary between the engine and a broker. */
module Trading {
  import opened Domain

  datatype SignalAction = EnterLong | EnterShort | Wait | Exit

  datatype SignalData = SignalData(
    id: string,
    canonicalSymbol: string,
    strategyId: string,
    action: SignalAction,
    entryMin: Option<real>,
    entryMax: Option<real>,
    stopLoss: Option<real>,
    takeProfits: seq<real>,
    createdAt: Time,
    expiresAt: Option<Time>)
  {
    function Direction(): Option<Direction> {
      match action
      case EnterLong => Some(Long)
      case EnterShort => Some(Short)
      case _ => None
    }

    predicate IsExpired(now: Time) {
      expiresAt.Some? && now >= expiresAt.value
    }
  }

  /** The checks every signal passes on construction. */
  type Signal = s: SignalData |
      && (s.Direction().Some? ==>
            s.entryMin.Some? && s.entryMax.Some? && s.stopLoss.Some? && s.entryMin.value <= s.entryMax.value)
      && (s.expiresAt.Some? ==> s.createdAt < s.expiresAt.value)
    witness SignalData("", "", "", Wait, None, None, None, [], 0, None)

  datatype SpecData = SpecData(
    name: string,
    canonicalSymbol: string,
    baseCurrency: string,
    quoteCurrency: string,
    point: real,
    tickSize: real,
    tickValue: real,
    contractSize: real,
    volumeMin: real,
    volumeMax: real,
    volumeStep: real,
    stopsLevelPoints: int,
    tradeEnabled: bool)

  type Spec = s: SpecData |
      && s.point > 0.0 && s.tickSize > 0.0 && s.contractSize > 0.0
      && 0.0 < s.volumeMin <= s.volumeMax && s.volumeStep > 0.0 && s.tickValue >= 0.0
    witness SpecData("", "", "", "", 1.0, 1.0, 1.0, 1.0, 1.0, 1.0, 1.0, 0, true)

  datatype TickData = TickData(symbol: string, bid: real, ask: real, timestamp: Time)

  type Tick = t: TickData | 0.0 < t.bid <= t.ask witness TickData("", 1.0, 1.0, 0)

  datatype AccountType = Demo | Real | Unclassified

  datatype Account = Account(id: string, equity: real, freeMargin: real, leverage: nat, accountType: AccountType)

  datatype OrderType = Market | Limit | Stop

  datatype OrderData = OrderData(
    signalId: string,
    strategyId: string,
    symbol: string,
    direction: Direction,
    orderType: OrderType,
    volume: real,
    stopLoss: real,
    takeProfits: seq<real>,
    key: string,
    requestedPrice: Option<real>,
    entryMin: Option<real>,
    entryMax: Option<real>,
    expiresAt: Option<Time>,
    maximumSlippage: real)
  {
    function LastTarget(): real
      requires takeProfits != []
    {
      takeProfits[|takeProfits| - 1]
    }
  }

  /** The checks every order request passes on construction. */
  predicate ValidOrder(o: OrderData) {
    && o.volume > 0.0 && o.stopLoss > 0.0
    && o.takeProfits != [] && (forall i :: 0 <= i < |o.takeProfits| ==> o.takeProfits[i] > 0.0)
    && o.key != ""
  }

  type OrderRequest = o: OrderData | ValidOrder(o)
    witness OrderData("", "", "", Long, Market, 1.0, 1.0, [1.0], "k", None, None, None, None, 0.0)

  datatype Position = Position(
    ticket: string,
    symbol: string,
    direction: Direction,
    volume: real,
    openPrice: real,
    currentPrice: real,
    stopLoss: real,
    takeProfit: Option<real>,
    openedAt: Time,
    strategyId: string,
    signalId: Option<string>)

  datatype OrderStatus = Pending | Filled | PartiallyFilled | Cancelled | Rejected

  datatype Order = Order(
    ticket: string,
    symbol: string,
    direction: Direction,
    orderType: OrderType,
    volume: real,
    price: real,
    stopLoss: real,
    takeProfit: Option<real>,
    status: OrderStatus,
    createdAt: Time,
    key: string)

  datatype Report = Report(
    success: bool,
    key: string,
    ticket: Option<string>,
    requestedPrice: Option<real>,
    executedPrice: Option<real>,
    volume: real,
    code: string,
    message: string,
    submittedAt: Time)
  {
    function Slippage(): Option<real> {
      if requestedPrice.None? || executedPrice.None? then None
      else Some(Abs(executedPrice.value - requestedPrice.value))
    }
  }

  datatype Health = Health(healthy: bool, connected: bool, tradingAllowed: bool)

  datatype Check = Check(accepted: bool, reasons: seq<string>)

  /** The configured risk limits, and what a day and a week have used of them. */
  datatype LimitsData = LimitsData(
    riskPerTrade: real,
    maximumDailyLoss: real,
    maximumWeeklyLoss: real,
    maximumAccountDrawdown: real,
    maximumOpenPositions: int,
    maximumGoldPositions: int,
    minimumRiskReward: real,
    maximumSpread: real,
    maximumTickAge: Time)

  type Limits = l: LimitsData |
      && 0.0 < l.riskPerTrade <= 1.0 && 0.0 < l.maximumDailyLoss <= 1.0
      && 0.0 < l.maximumWeeklyLoss <= 1.0 && 0.0 < l.maximumAccountDrawdown <= 1.0
      && l.maximumOpenPositions > 0 && l.maximumGoldPositions > 0
      && l.minimumRiskReward > 0.0 && l.maximumSpread >= 0.0 && l.maximumTickAge > 0
    witness LimitsData(1.0, 1.0, 1.0, 1.0, 1, 1, 1.0, 0.0, 1)

  datatype UsageData = UsageData(dailyLoss: real, weeklyLoss: real, openRisk: real, peakEquity: Option<real>)

  type Usage = u: UsageData |
      && u.dailyLoss >= 0.0 && u.weeklyLoss >= 0.0 && u.openRisk >= 0.0
      && (u.peakEquity.Some? ==> u.peakEquity.value > 0.0)
    witness UsageData(0.0, 0.0, 0.0, None)

  /** The text names the pair of currencies that the symbol trades. */
  predicate NamesPair(spec: Spec, canonical: string) {
    if |canonical| >= 3 then Upper(spec.baseCurrency) == canonical[..3] && Upper(spec.quoteCurrency) == canonical[3..]
    else Upper(spec.baseCurrency) == canonical && spec.quoteCurrency == ""
  }
}
