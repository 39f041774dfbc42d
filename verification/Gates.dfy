/** The fail-closed pre-trade rules. */
module Gates {
  import opened Domain
  import opened Trading
  import opened MockBroker
  import opened Sizing

  datatype Snapshot = Snapshot(
    now: Time,
    account: Account,
    spec: Spec,
    tick: Tick,
    health: Health,
    marketOpen: bool,
    sessionAllowed: bool,
    equivalents: set<string>,
    positions: seq<Position>,
    orders: seq<Order>,
    usage: Usage,
    requiredMargin: real,
    killSwitch: bool,
    circuitLocked: bool)

  datatype Decision = Decision(
    accepted: bool,
    reasons: seq<string>,
    riskAmount: real,
    riskFraction: real,
    riskReward: Option<real>,
    requiredMargin: real)

  // ---------------------------------------------------------------------------
  // The rules, stated without reference to the order in which they are checked
  // ---------------------------------------------------------------------------

  predicate VenueReady(s: Snapshot, request: OrderRequest) {
    && !s.killSwitch && !s.circuitLocked
    && s.health.healthy && s.health.connected && s.health.tradingAllowed
    && s.marketOpen && s.sessionAllowed && s.spec.tradeEnabled
    && s.tick.symbol == s.spec.name == request.symbol
  }

  predicate PriceFresh(limits: Limits, s: Snapshot, request: OrderRequest) {
    var price := OrderPrice(request, s.tick);
    && -SECOND <= s.now - s.tick.timestamp <= limits.maximumTickAge
    && s.tick.ask - s.tick.bid <= limits.maximumSpread
    && (request.expiresAt.Some? ==> s.now < request.expiresAt.value)
    && (request.entryMin.Some? ==> request.entryMin.value <= price)
    && (request.entryMax.Some? ==> price <= request.entryMax.value)
    && request.maximumSlippage >= 0.0
  }

  function RiskDistance(request: OrderRequest, price: real): real {
    Abs(price - request.stopLoss)
  }

  /** The distance from the price to the nearest target. */
  function NearestReward(targets: seq<real>, price: real): real
    requires targets != []
  {
    var first := Abs(targets[0] - price);
    if |targets| == 1 then first else Min(first, NearestReward(targets[1..], price))
  }

  function RewardRatio(request: OrderRequest, price: real): real
    requires RiskDistance(request, price) > 0.0
  {
    NearestReward(request.takeProfits, price) / RiskDistance(request, price)
  }

  predicate ProtectionSound(limits: Limits, s: Snapshot, request: OrderRequest) {
    var price := OrderPrice(request, s.tick);
    && ProtectionOnSide(request, price)
    && RiskDistance(request, price) > 0.0
    && RiskDistance(request, price) >= MinimumDistance(s.spec)
    && RewardRatio(request, price) >= limits.minimumRiskReward
  }

  predicate Funded(s: Snapshot, request: OrderRequest, sized: Sized) {
    && s.account.equity > 0.0 && s.account.freeMargin > 0.0
    && 0.0 < s.requiredMargin <= s.account.freeMargin
    && request.volume == sized.volume && sized.cashRisk <= sized.allowedCashRisk
  }

  function Watched(s: Snapshot): set<string> {
    s.equivalents + {s.spec.name}
  }

  function CountOn(positions: seq<Position>, watched: set<string>): nat {
    if positions == [] then 0
    else (if positions[0].symbol in watched then 1 else 0) + CountOn(positions[1..], watched)
  }

  predicate NoExposure(limits: Limits, s: Snapshot, request: OrderRequest) {
    && |s.positions| < limits.maximumOpenPositions
    && (forall i :: 0 <= i < |s.positions| ==> s.positions[i].symbol !in Watched(s))
    && (forall i :: 0 <= i < |s.orders| ==> s.orders[i].symbol !in Watched(s) && s.orders[i].key != request.key)
  }

  function Capacity(equity: real, fraction: real): real {
    equity * fraction
  }

  function AccountDrawdown(peak: real, equity: real): real
    requires peak > 0.0
  {
    Max(0.0, (peak - equity) / peak)
  }

  predicate WithinLosses(limits: Limits, s: Snapshot, sized: Sized) {
    && s.usage.dailyLoss + s.usage.openRisk + sized.cashRisk < Capacity(s.account.equity, limits.maximumDailyLoss)
    && s.usage.weeklyLoss + s.usage.openRisk + sized.cashRisk < Capacity(s.account.equity, limits.maximumWeeklyLoss)
    && (s.usage.peakEquity.Some? ==>
          AccountDrawdown(s.usage.peakEquity.value, s.account.equity) < limits.maximumAccountDrawdown)
  }

  /** An order may be sent. */
  predicate Passes(limits: Limits, request: OrderRequest, sized: Sized, s: Snapshot) {
    && VenueReady(s, request) && PriceFresh(limits, s, request) && ProtectionSound(limits, s, request)
    && Funded(s, request, sized) && NoExposure(limits, s, request) && WithinLosses(limits, s, sized)
  }

  // ---------------------------------------------------------------------------
  // The reasons, in the order in which they are collected
  // ---------------------------------------------------------------------------

  function LockFaults(s: Snapshot): seq<string> {
    var r1 := AddIf([], s.killSwitch, "KILL_SWITCH_ACTIVE");
    var r2 := AddIf(r1, s.circuitLocked, "CIRCUIT_BREAKER_LOCKED");
    var r3 := AddIf(r2, !s.health.healthy || !s.health.connected, "BROKER_UNHEALTHY");
    AddIf(r3, !s.health.tradingAllowed, "BROKER_TRADING_DISABLED")
  }

  function VenueFaults(s: Snapshot, request: OrderRequest): seq<string> {
    var r1 := AddIf(LockFaults(s), !s.marketOpen, "MARKET_CLOSED");
    var r2 := AddIf(r1, !s.sessionAllowed, "TRADING_SESSION_NOT_ALLOWED");
    var r3 := AddIf(r2, !s.spec.tradeEnabled, "SYMBOL_TRADING_DISABLED");
    AddIf(r3, s.tick.symbol != s.spec.name || request.symbol != s.spec.name, "SYMBOL_MISMATCH")
  }

  function PriceFaults(limits: Limits, s: Snapshot, request: OrderRequest): seq<string> {
    var price := OrderPrice(request, s.tick);
    var age := s.now - s.tick.timestamp;
    var r1 := AddIf([], age < -SECOND, "TICK_FROM_FUTURE");
    var r2 := AddIf(r1, age >= -SECOND && age > limits.maximumTickAge, "STALE_TICK");
    var r3 := AddIf(r2, s.tick.ask - s.tick.bid > limits.maximumSpread, "TRADE_SKIPPED_HIGH_SPREAD");
    var r4 := AddIf(r3, request.expiresAt.Some? && s.now >= request.expiresAt.value, "SIGNAL_EXPIRED");
    var r5 := AddIf(r4, request.entryMin.Some? && price < request.entryMin.value, "PRICE_OUTSIDE_ENTRY_ZONE");
    var r6 := AddIf(r5, request.entryMax.Some? && price > request.entryMax.value, "PRICE_OUTSIDE_ENTRY_ZONE");
    AddIf(r6, request.maximumSlippage < 0.0, "INVALID_SLIPPAGE_TOLERANCE")
  }

  predicate StopWrong(request: OrderRequest, price: real) {
    if request.direction == Long then request.stopLoss >= price else request.stopLoss <= price
  }

  predicate TargetWrong(request: OrderRequest, price: real) {
    exists i :: 0 <= i < |request.takeProfits|
                && (if request.direction == Long then request.takeProfits[i] <= price
                    else request.takeProfits[i] >= price)
  }

  function ProtectionFaults(limits: Limits, s: Snapshot, request: OrderRequest): seq<string> {
    var price := OrderPrice(request, s.tick);
    var distance := RiskDistance(request, price);
    var long := request.direction == Long;
    var r1 := AddIf([], distance <= 0.0 || distance < MinimumDistance(s.spec), "INVALID_STOP_DISTANCE");
    var r2 := AddIf(r1, StopWrong(request, price), if long then "LONG_STOP_NOT_BELOW_ENTRY"
                    else "SHORT_STOP_NOT_ABOVE_ENTRY");
    var r3 := AddIf(r2, TargetWrong(request, price),
                    if long then "LONG_TAKE_PROFIT_NOT_ABOVE_ENTRY" else "SHORT_TAKE_PROFIT_NOT_BELOW_ENTRY");
    AddIf(r3, distance > 0.0 && RewardRatio(request, price) < limits.minimumRiskReward, "RISK_REWARD_BELOW_MINIMUM")
  }

  function FundingFaults(s: Snapshot, request: OrderRequest, sized: Sized): seq<string> {
    var r1 := AddIf([], s.account.equity <= 0.0 || s.account.freeMargin <= 0.0, "ACCOUNT_EQUITY_OR_MARGIN_INVALID");
    var r2 := AddIf(r1, s.requiredMargin <= 0.0
                    || s.requiredMargin > s.account.freeMargin, "INSUFFICIENT_OR_INVALID_MARGIN");
    var r3 := AddIf(r2, request.volume != sized.volume, "ORDER_VOLUME_DIFFERS_FROM_RISK_SIZE");
    AddIf(r3, sized.cashRisk > sized.allowedCashRisk, "TRADE_RISK_EXCEEDS_LIMIT")
  }

  predicate AnyPositionOn(positions: seq<Position>, watched: set<string>) {
    exists i :: 0 <= i < |positions| && positions[i].symbol in watched
  }

  predicate AnyOrderOn(orders: seq<Order>, watched: set<string>, key: string) {
    exists i :: 0 <= i < |orders| && (orders[i].symbol in watched || orders[i].key == key)
  }

  function ExposureFaults(limits: Limits, s: Snapshot, request: OrderRequest): seq<string> {
    var r1 := AddIf([], |s.positions| >= limits.maximumOpenPositions, "MAXIMUM_OPEN_POSITIONS_REACHED");
    var r2 := AddIf(r1, CountOn(s.positions, Watched(s)) >= limits.maximumGoldPositions,
                    "MAXIMUM_GOLD_POSITIONS_REACHED");
    var r3 := AddIf(r2, AnyPositionOn(s.positions, Watched(s)), "DUPLICATE_POSITION");
    AddIf(r3, AnyOrderOn(s.orders, Watched(s), request.key), "DUPLICATE_PENDING_ORDER")
  }

  function LossFaults(limits: Limits, s: Snapshot, sized: Sized): seq<string> {
    var daily := s.usage.dailyLoss + s.usage.openRisk + sized.cashRisk;
    var weekly := s.usage.weeklyLoss + s.usage.openRisk + sized.cashRisk;
    var r1 := AddIf([], daily >= Capacity(s.account.equity, limits.maximumDailyLoss), "DAILY_LOSS_LIMIT_REACHED");
    var r2 := AddIf(r1, weekly >= Capacity(s.account.equity, limits.maximumWeeklyLoss), "WEEKLY_LOSS_LIMIT_REACHED");
    AddIf(r2, s.usage.peakEquity.Some?
          && AccountDrawdown(s.usage.peakEquity.value, s.account.equity) >= limits.maximumAccountDrawdown,
          "ACCOUNT_DRAWDOWN_LIMIT_REACHED")
  }

  function Faults(limits: Limits, request: OrderRequest, sized: Sized, s: Snapshot): seq<string> {
    VenueFaults(s, request) + PriceFaults(limits, s, request) + ProtectionFaults(limits, s, request)
    + FundingFaults(s, request, sized) + ExposureFaults(limits, s, request) + LossFaults(limits, s, sized)
  }

  /** The first occurrence of each reason, in order. */
  function Unique(reasons: seq<string>): seq<string> {
    if reasons == [] then []
    else
      var last := |reasons| - 1;
      AddIf(Unique(reasons[..last]), reasons[last] !in reasons[..last], reasons[last])
  }

  function Decided(limits: Limits, request: OrderRequest, sized: Sized, s: Snapshot): Decision {
    var reasons := Unique(Faults(limits, request, sized, s));
    var price := OrderPrice(request, s.tick);
    Decision(reasons == [], reasons, sized.cashRisk, sized.riskFraction,
             if RiskDistance(request, price) > 0.0 then Some(RewardRatio(request, price)) else None, s.requiredMargin)
  }

  lemma {:induction false} UniqueExact(reasons: seq<string>)
    ensures forall x :: x in Unique(reasons) <==> x in reasons
    ensures forall i, j :: 0 <= i < j < |Unique(reasons)| ==> Unique(reasons)[i] != Unique(reasons)[j]
    ensures Unique(reasons) == [] <==> reasons == []
  {
    if reasons != [] {
      var last := |reasons| - 1;
      UniqueExact(reasons[..last]);
      assert reasons == reasons[..last] + [reasons[last]];
    }
  }

  // ---------------------------------------------------------------------------
  // Accepted means every rule holds
  // ---------------------------------------------------------------------------

  lemma {:induction false} CountOnExact(positions: seq<Position>, watched: set<string>)
    ensures CountOn(positions, watched) <= |positions|
    ensures CountOn(positions, watched) > 0 <==> AnyPositionOn(positions, watched)
  {
    if positions != [] {
      var rest := positions[1..];
      CountOnExact(rest, watched);
      if AnyPositionOn(rest, watched) {
        var i :| 0 <= i < |rest| && rest[i].symbol in watched;
        assert positions[i + 1].symbol in watched;
      }
      if AnyPositionOn(positions, watched) {
        var i :| 0 <= i < |positions| && positions[i].symbol in watched;
        assert i > 0 ==> rest[i - 1].symbol in watched;
      }
    }
  }

  lemma VenueExact(s: Snapshot, request: OrderRequest)
    ensures VenueFaults(s, request) == [] <==> VenueReady(s, request)
  {
  }

  lemma PriceExact(limits: Limits, s: Snapshot, request: OrderRequest)
    ensures PriceFaults(limits, s, request) == [] <==> PriceFresh(limits, s, request)
  {
    hide OrderPrice;
  }

  lemma ProtectionExact(limits: Limits, s: Snapshot, request: OrderRequest)
    ensures ProtectionFaults(limits, s, request) == [] <==> ProtectionSound(limits, s, request)
  {
    var price := OrderPrice(request, s.tick);
    assert ProtectionOnSide(request, price) <==> !StopWrong(request, price) && !TargetWrong(request, price);
    hide OrderPrice, RewardRatio, MinimumDistance, RiskDistance, ProtectionOnSide, StopWrong, TargetWrong;
  }

  lemma FundingExact(s: Snapshot, request: OrderRequest, sized: Sized)
    ensures FundingFaults(s, request, sized) == [] <==> Funded(s, request, sized)
  {
  }

  lemma ExposureExact(limits: Limits, s: Snapshot, request: OrderRequest)
    ensures ExposureFaults(limits, s, request) == [] <==> NoExposure(limits, s, request)
  {
    CountOnExact(s.positions, Watched(s));
    hide CountOn;
  }

  lemma LossExact(limits: Limits, s: Snapshot, sized: Sized)
    ensures LossFaults(limits, s, sized) == [] <==> WithinLosses(limits, s, sized)
  {
    hide Capacity, AccountDrawdown;
  }

  /** The gates accept exactly the orders that break no rule; otherwise they name each broken rule once. */
  lemma AcceptedIffPasses(limits: Limits, request: OrderRequest, sized: Sized, s: Snapshot)
    ensures Decided(limits, request, sized, s).accepted <==> Passes(limits, request, sized, s)
  {
    UniqueExact(Faults(limits, request, sized, s));
    VenueExact(s, request);
    PriceExact(limits, s, request);
    ProtectionExact(limits, s, request);
    FundingExact(s, request, sized);
    ExposureExact(limits, s, request);
    LossExact(limits, s, sized);
    hide VenueFaults, PriceFaults, ProtectionFaults, FundingFaults, ExposureFaults, LossFaults, Unique, RewardRatio,
         RiskDistance, VenueReady, PriceFresh, ProtectionSound, Funded, NoExposure, WithinLosses;
  }

  /** The configurable gold limit never decides anything: the duplicate rule fires whenever it does. */
  lemma GoldLimitImpliedByDuplicate(limits: Limits, request: OrderRequest, sized: Sized, s: Snapshot)
    requires CountOn(s.positions, Watched(s)) >= limits.maximumGoldPositions
    ensures "DUPLICATE_POSITION" in Decided(limits, request, sized, s).reasons
  {
    CountOnExact(s.positions, Watched(s));
    var faults := Faults(limits, request, sized, s);
    UniqueExact(faults);
    assert "DUPLICATE_POSITION" in ExposureFaults(limits, s, request);
    hide ExposureFaults, VenueFaults, PriceFaults, ProtectionFaults, FundingFaults, LossFaults, Unique, RewardRatio,
         RiskDistance;
    assert "DUPLICATE_POSITION" in faults;
  }

  // ---------------------------------------------------------------------------
  // The validator
  // ---------------------------------------------------------------------------

  /** Keeps the first occurrence of each reason. */
  method Dedupe(reasons: seq<string>) returns (unique: seq<string>)
    ensures unique == Unique(reasons)
  {
    unique := [];
    for n := 0 to |reasons|
      invariant unique == Unique(reasons[..n])
    {
      UniqueExact(reasons[..n]);
      assert reasons[..n + 1][..n] == reasons[..n];
      if reasons[n] !in unique {
        unique := unique + [reasons[n]];
      }
    }
    assert reasons[..|reasons|] == reasons;
  }

  method CheckLocks(s: Snapshot) returns (reasons: seq<string>)
    ensures reasons == LockFaults(s)
  {
    reasons := [];
    if s.killSwitch {
      reasons := reasons + ["KILL_SWITCH_ACTIVE"];
    }
    if s.circuitLocked {
      reasons := reasons + ["CIRCUIT_BREAKER_LOCKED"];
    }
    if !s.health.healthy || !s.health.connected {
      reasons := reasons + ["BROKER_UNHEALTHY"];
    }
    if !s.health.tradingAllowed {
      reasons := reasons + ["BROKER_TRADING_DISABLED"];
    }
  }

  method CheckVenue(s: Snapshot, request: OrderRequest) returns (reasons: seq<string>)
    ensures reasons == VenueFaults(s, request)
  {
    hide LockFaults;
    reasons := CheckLocks(s);
    if !s.marketOpen {
      reasons := reasons + ["MARKET_CLOSED"];
    }
    if !s.sessionAllowed {
      reasons := reasons + ["TRADING_SESSION_NOT_ALLOWED"];
    }
    if !s.spec.tradeEnabled {
      reasons := reasons + ["SYMBOL_TRADING_DISABLED"];
    }
    if s.tick.symbol != s.spec.name || request.symbol != s.spec.name {
      reasons := reasons + ["SYMBOL_MISMATCH"];
    }
  }

  method CheckPrice(limits: Limits, s: Snapshot, request: OrderRequest) returns (reasons: seq<string>)
    ensures reasons == PriceFaults(limits, s, request)
  {
    hide OrderPrice;
    reasons := [];
    var price := OrderPrice(request, s.tick);
    var age := s.now - s.tick.timestamp;
    if age < -SECOND {
      reasons := reasons + ["TICK_FROM_FUTURE"];
    } else if age > limits.maximumTickAge {
      reasons := reasons + ["STALE_TICK"];
    }
    if s.tick.ask - s.tick.bid > limits.maximumSpread {
      reasons := reasons + ["TRADE_SKIPPED_HIGH_SPREAD"];
    }
    if request.expiresAt.Some? && s.now >= request.expiresAt.value {
      reasons := reasons + ["SIGNAL_EXPIRED"];
    }
    if request.entryMin.Some? && price < request.entryMin.value {
      reasons := reasons + ["PRICE_OUTSIDE_ENTRY_ZONE"];
    }
    if request.entryMax.Some? && price > request.entryMax.value {
      reasons := reasons + ["PRICE_OUTSIDE_ENTRY_ZONE"];
    }
    if request.maximumSlippage < 0.0 {
      reasons := reasons + ["INVALID_SLIPPAGE_TOLERANCE"];
    }
  }

  method CheckProtection(limits: Limits, s: Snapshot, request: OrderRequest)
    returns (reasons: seq<string>, reward: Option<real>)
    ensures reasons == ProtectionFaults(limits, s, request)
    ensures var price := OrderPrice(request, s.tick);
            reward == if RiskDistance(request, price) > 0.0 then Some(RewardRatio(request, price)) else None
  {
    hide OrderPrice, MinimumDistance, NearestReward;
    reasons, reward := [], None;
    var price := OrderPrice(request, s.tick);
    var distance := RiskDistance(request, price);
    var targets := request.takeProfits;
    if distance <= 0.0 || distance < MinimumDistance(s.spec) {
      reasons := reasons + ["INVALID_STOP_DISTANCE"];
    }
    var stopWrong, targetWrong := WrongSides(request, price);
    if request.direction == Long {
      if stopWrong {
        reasons := reasons + ["LONG_STOP_NOT_BELOW_ENTRY"];
      }
      if targetWrong {
        reasons := reasons + ["LONG_TAKE_PROFIT_NOT_ABOVE_ENTRY"];
      }
    } else {
      if stopWrong {
        reasons := reasons + ["SHORT_STOP_NOT_ABOVE_ENTRY"];
      }
      if targetWrong {
        reasons := reasons + ["SHORT_TAKE_PROFIT_NOT_BELOW_ENTRY"];
      }
    }
    hide StopWrong, TargetWrong;
    if distance > 0.0 {
      reward := Some(RewardRatio(request, price));
      hide RewardRatio, RiskDistance;
      if reward.value < limits.minimumRiskReward {
        reasons := reasons + ["RISK_REWARD_BELOW_MINIMUM"];
      }
    }
  }

  method WrongSides(request: OrderRequest, price: real) returns (stopWrong: bool, targetWrong: bool)
    ensures stopWrong == StopWrong(request, price)
    ensures targetWrong == TargetWrong(request, price)
  {
    var targets := request.takeProfits;
    if request.direction == Long {
      stopWrong := request.stopLoss >= price;
      targetWrong := exists i :: 0 <= i < |targets| && targets[i] <= price;
    } else {
      stopWrong := request.stopLoss <= price;
      targetWrong := exists i :: 0 <= i < |targets| && targets[i] >= price;
    }
  }

  method CheckFunding(s: Snapshot, request: OrderRequest, sized: Sized) returns (reasons: seq<string>)
    ensures reasons == FundingFaults(s, request, sized)
  {
    reasons := [];
    if s.account.equity <= 0.0 || s.account.freeMargin <= 0.0 {
      reasons := reasons + ["ACCOUNT_EQUITY_OR_MARGIN_INVALID"];
    }
    if s.requiredMargin <= 0.0 || s.requiredMargin > s.account.freeMargin {
      reasons := reasons + ["INSUFFICIENT_OR_INVALID_MARGIN"];
    }
    if request.volume != sized.volume {
      reasons := reasons + ["ORDER_VOLUME_DIFFERS_FROM_RISK_SIZE"];
    }
    if sized.cashRisk > sized.allowedCashRisk {
      reasons := reasons + ["TRADE_RISK_EXCEEDS_LIMIT"];
    }
  }

  method CheckExposure(limits: Limits, s: Snapshot, request: OrderRequest) returns (reasons: seq<string>)
    ensures reasons == ExposureFaults(limits, s, request)
  {
    hide CountOn;
    reasons := [];
    if |s.positions| >= limits.maximumOpenPositions {
      reasons := reasons + ["MAXIMUM_OPEN_POSITIONS_REACHED"];
    }
    var watched := s.equivalents + {s.spec.name};
    if CountOn(s.positions, watched) >= limits.maximumGoldPositions {
      reasons := reasons + ["MAXIMUM_GOLD_POSITIONS_REACHED"];
    }
    if AnyPositionOn(s.positions, watched) {
      reasons := reasons + ["DUPLICATE_POSITION"];
    }
    if AnyOrderOn(s.orders, watched, request.key) {
      reasons := reasons + ["DUPLICATE_PENDING_ORDER"];
    }
  }

  method CheckLosses(limits: Limits, s: Snapshot, sized: Sized) returns (reasons: seq<string>)
    ensures reasons == LossFaults(limits, s, sized)
  {
    hide Capacity, AccountDrawdown;
    reasons := [];
    var daily := s.usage.dailyLoss + s.usage.openRisk + sized.cashRisk;
    var weekly := s.usage.weeklyLoss + s.usage.openRisk + sized.cashRisk;
    if daily >= Capacity(s.account.equity, limits.maximumDailyLoss) {
      reasons := reasons + ["DAILY_LOSS_LIMIT_REACHED"];
    }
    if weekly >= Capacity(s.account.equity, limits.maximumWeeklyLoss) {
      reasons := reasons + ["WEEKLY_LOSS_LIMIT_REACHED"];
    }
    if s.usage.peakEquity.Some? {
      if AccountDrawdown(s.usage.peakEquity.value, s.account.equity) >= limits.maximumAccountDrawdown {
        reasons := reasons + ["ACCOUNT_DRAWDOWN_LIMIT_REACHED"];
      }
    }
  }

  /** Collects every reason against an order and accepts it when there is none. */
  method Validate(limits: Limits, request: OrderRequest, sized: Sized, s: Snapshot) returns (d: Decision)
    ensures d == Decided(limits, request, sized, s)
    ensures d.accepted <==> Passes(limits, request, sized, s)
    ensures forall i, j :: 0 <= i < j < |d.reasons| ==> d.reasons[i] != d.reasons[j]
  {
    hide VenueFaults, PriceFaults, ProtectionFaults, FundingFaults, ExposureFaults, LossFaults, RewardRatio,
         RiskDistance, OrderPrice, Unique, Passes;
    var reasons := CheckVenue(s, request);
    var price := CheckPrice(limits, s, request);
    var protection, reward := CheckProtection(limits, s, request);
    var funding := CheckFunding(s, request, sized);
    var exposure := CheckExposure(limits, s, request);
    var losses := CheckLosses(limits, s, sized);
    reasons := reasons + price + protection + funding + exposure + losses;
    UniqueExact(reasons);
    AcceptedIffPasses(limits, request, sized, s);
    var unique := Dedupe(reasons);
    d := Decision(unique == [], unique, sized.cashRisk, sized.riskFraction, reward, s.requiredMargin);
  }
}
