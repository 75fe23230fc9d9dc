/**
 * The backtest driver of qstrader/trading/backtest.py: construction-time
 * validation, the choice of simulation engine and rebalance schedule, and the
 * event loop of `run`.
 *
 * The broker, the signals collection and the quant trading system are not part
 * of this model. The session records every call it makes on them, in order, in
 * `calls`; the equity the broker reports is a function of those calls.
 */
module Backtest {
  import opened Wrappers
  import opened Times
  import opened Event
  import BusinessDaySimulation
  import BusinessHourSimulation
  import HourlyRebalance
  import BuyAndHoldRebalance

  datatype SessionError =
    | UnknownRebalanceFrequency(rebalance: string)
    | InvalidRange(startDt: Timestamp, endDt: Timestamp)
    | MissingRebalanceWeekday
    | MissingCashBufferPercentage
    | MissingGrossLeverage

  // ---------------------------------------------------------------------------
  // Simulation engine

  datatype SimulationEngine =
    | Daily(daily: BusinessDaySimulation.BusinessDaysSimulationEngine)
    | Hourly(hourly: BusinessHourSimulation.BusinessHoursSimulationEngine)

  /** The events iterating `engine` yields. */
  function EventsOf(engine: SimulationEngine): seq<SimulationEvent>
  {
    match engine
    case Daily(d) => BusinessDaySimulation.EventsOf(d)
    case Hourly(h) => BusinessHourSimulation.EventsOf(h)
  }

  /** `for event in self.sim_engine`, with the yielded events collected in order. */
  method IterateEngine(engine: SimulationEngine) returns (events: seq<SimulationEvent>)
    ensures events == EventsOf(engine)
  {
    match engine
    case Daily(d) =>
      events := BusinessDaySimulation.Iterate(d);
    case Hourly(h) =>
      events := BusinessHourSimulation.Iterate(h);
  }

  /** The rebalance strings the session knows. */
  predicate IsKnownRebalance(rebalance: string)
  {
    || rebalance == "buy_and_hold"
    || rebalance == "daily"
    || rebalance == "hourly"
    || rebalance == "weekly"
    || rebalance == "end_of_month"
  }

  /** The engine built for a known rebalance string: business hours for "hourly", business days otherwise, no extra events. */
  function EngineFor(rebalance: string, startDt: Timestamp, endDt: Timestamp): SimulationEngine
    requires IsMidnight(startDt)
  {
    if rebalance == "hourly" then
      Hourly(BusinessHourSimulation.BusinessHoursSimulationEngine(
        startDt, endDt, false, false, BusinessHoursOf(startDt, endDt, false, false)))
    else
      Daily(BusinessDaySimulation.BusinessDaysSimulationEngine(
        startDt, endDt, false, false, BusinessDays(startDt, endDt, false, false)))
  }

  /** A business-days engine without pre- and post-market events, its range error passed on. */
  function DailyEngine(startDt: Timestamp, endDt: Timestamp): Result<SimulationEngine, SessionError>
    requires IsMidnight(startDt)
  {
    match BusinessDaySimulation.NewBusinessDaysSimulationEngine(startDt, endDt, preMarket := false, postMarket := false)
    case Success(engine) => Success(Daily(engine))
    case Failure(InvalidRange(s, e)) => Failure(InvalidRange(s, e))
  }

  /**
   * `_create_simulation_engine`: an unknown rebalance string is refused, and the
   * business-days engine refuses a range that ends before it starts; the
   * business-hours engine has no such check.
   */
  method CreateSimulationEngine(rebalance: string, startDt: Timestamp, endDt: Timestamp)
    returns (r: Result<SimulationEngine, SessionError>)
    requires IsMidnight(startDt)
    ensures !IsKnownRebalance(rebalance) ==> r == Failure(UnknownRebalanceFrequency(rebalance))
    ensures IsKnownRebalance(rebalance) && rebalance != "hourly" && endDt < startDt ==>
              r == Failure(InvalidRange(startDt, endDt))
    ensures r.Success? <==> IsKnownRebalance(rebalance) && (rebalance == "hourly" || startDt <= endDt)
    ensures r.Success? ==> r.value == EngineFor(rebalance, startDt, endDt)
  {
    if rebalance == "buy_and_hold" {
      r := DailyEngine(startDt, endDt);
    } else if rebalance == "daily" {
      r := DailyEngine(startDt, endDt);
    } else if rebalance == "hourly" {
      var engine := BusinessHourSimulation.NewBusinessHoursSimulationEngine(
        startDt, endDt, preMarket := false, postMarket := false);
      r := Success(Hourly(engine));
    } else if rebalance == "weekly" {
      r := DailyEngine(startDt, endDt);
    } else if rebalance == "end_of_month" {
      r := DailyEngine(startDt, endDt);
    } else {
      r := Failure(UnknownRebalanceFrequency(rebalance));
    }
  }

  // ---------------------------------------------------------------------------
  // Rebalance schedule

  /**
   * The schedule built for a known rebalance string. `external` stands for the
   * schedule of the daily, weekly and end-of-month rebalance classes.
   */
  function ScheduleFor(rebalance: string, startDt: Timestamp, endDt: Timestamp, external: seq<Timestamp>): seq<Timestamp>
    requires IsMidnight(startDt)
  {
    if rebalance == "buy_and_hold" then BuyAndHoldRebalance.GenerateRebalances(startDt)
    else if rebalance == "hourly" then BusinessHoursOf(startDt, endDt, false, false)
    else external
  }

  /** `_create_rebalance_event_times`: the hourly schedule is built with its default flags. */
  method CreateRebalanceEventTimes(rebalance: string, startDt: Timestamp, endDt: Timestamp, external: seq<Timestamp>)
    returns (r: Result<seq<Timestamp>, SessionError>)
    requires IsMidnight(startDt)
    ensures r.Success? <==> IsKnownRebalance(rebalance)
    ensures r.Failure? ==> r.error == UnknownRebalanceFrequency(rebalance)
    ensures r.Success? ==> r.value == ScheduleFor(rebalance, startDt, endDt, external)
  {
    if rebalance == "buy_and_hold" {
      r := Success(BuyAndHoldRebalance.GenerateRebalances(startDt));
    } else if rebalance == "daily" {
      r := Success(external);
    } else if rebalance == "hourly" {
      var rebalances := HourlyRebalance.GenerateRebalances(startDt, endDt);
      r := Success(rebalances);
    } else if rebalance == "weekly" {
      r := Success(external);
    } else if rebalance == "end_of_month" {
      r := Success(external);
    } else {
      r := Failure(UnknownRebalanceFrequency(rebalance));
    }
  }

  // ---------------------------------------------------------------------------
  // Construction

  /**
   * `_create_quant_trading_system`'s parameter check: a long-only portfolio needs
   * a cash buffer percentage, a long/short one a gross leverage. `kwargs` is the
   * set of keyword arguments supplied.
   */
  function QuantTradingSystemError(longOnly: bool, kwargs: set<string>): (r: Option<SessionError>)
    ensures r.None? <==> (if longOnly then "cash_buffer_percentage" in kwargs else "gross_leverage" in kwargs)
    ensures r.Some? ==> r.value == (if longOnly then MissingCashBufferPercentage else MissingGrossLeverage)
  {
    if longOnly then
      if "cash_buffer_percentage" !in kwargs then Some(MissingCashBufferPercentage) else None
    else
      if "gross_leverage" !in kwargs then Some(MissingGrossLeverage) else None
  }

  /**
   * The error `BacktestTradingSession.__init__` raises, if any: the engine's checks
   * come first, then the weekly weekday, then the trading system's parameters.
   */
  function ConstructionError(rebalance: string, startDt: Timestamp, endDt: Timestamp,
                             longOnly: bool, kwargs: set<string>): (r: Option<SessionError>)
    ensures !IsKnownRebalance(rebalance) ==> r == Some(UnknownRebalanceFrequency(rebalance))
    ensures IsKnownRebalance(rebalance) && rebalance != "hourly" && endDt < startDt ==>
              r == Some(InvalidRange(startDt, endDt))
    ensures IsKnownRebalance(rebalance) && (rebalance == "hourly" || startDt <= endDt) &&
            rebalance == "weekly" && "rebalance_weekday" !in kwargs ==>
              r == Some(MissingRebalanceWeekday)
    ensures IsKnownRebalance(rebalance) && (rebalance == "hourly" || startDt <= endDt) &&
            (rebalance == "weekly" ==> "rebalance_weekday" in kwargs) ==>
              r == QuantTradingSystemError(longOnly, kwargs)
    ensures r.None? <==>
              && IsKnownRebalance(rebalance)
              && (rebalance == "hourly" || startDt <= endDt)
              && (rebalance == "weekly" ==> "rebalance_weekday" in kwargs)
              && (if longOnly then "cash_buffer_percentage" in kwargs else "gross_leverage" in kwargs)
  {
    if !IsKnownRebalance(rebalance) then Some(UnknownRebalanceFrequency(rebalance))
    else if rebalance != "hourly" && endDt < startDt then Some(InvalidRange(startDt, endDt))
    else if rebalance == "weekly" && "rebalance_weekday" !in kwargs then Some(MissingRebalanceWeekday)
    else QuantTradingSystemError(longOnly, kwargs)
  }

  /** What the session decides at construction and consults on every event. */
  datatype RebalancePolicy = RebalancePolicy(
    rebalance: string,
    schedule: seq<Timestamp>,
    hasSignals: bool,
    burnInDt: Option<Timestamp>)

  // ---------------------------------------------------------------------------
  // The per-event rules of `run`

  /** `_is_rebalance_event`: every timestamp under "hourly", otherwise the scheduled ones. */
  function IsRebalanceEvent(p: RebalancePolicy, dt: Timestamp): (r: bool)
    ensures p.rebalance == "hourly" ==> r
    ensures p.rebalance != "hourly" ==> (r <==> dt in p.schedule)
  {
    if p.rebalance == "hourly" then true else dt in p.schedule
  }

  /** No burn-in date, or `dt` is not before it. */
  predicate PastBurnIn(p: RebalancePolicy, dt: Timestamp)
  {
    p.burnInDt.None? || dt >= p.burnInDt.value
  }

  datatype Collaborator = Broker | Signals | TradingSystem

  /** `broker.update(dt)`, `signals.update(dt)` or `qts(dt, stats)`. */
  datatype Call = Call(target: Collaborator, dt: Timestamp)

  /** One `(dt, equity)` entry of the equity curve. */
  datatype EquityPoint = EquityPoint(dt: Timestamp, equity: real)

  /**
   * The calls `run` makes for one event: the broker first, then the signals on
   * a market close, then the trading system on a rebalance event past the burn-in.
   */
  function StepCalls(p: RebalancePolicy, e: SimulationEvent): seq<Call>
  {
    [Call(Broker, e.ts)]
    + (if p.hasSignals && e.eventType == MarketClose then [Call(Signals, e.ts)] else [])
    + (if PastBurnIn(p, e.ts) && IsRebalanceEvent(p, e.ts) then [Call(TradingSystem, e.ts)] else [])
  }

  /**
   * For one event the broker is updated once and first; the signals are updated iff
   * they exist and the event is a market close; the trading system runs iff the event
   * is a rebalance event past the burn-in. Every call carries the event's timestamp.
   */
  lemma StepCallsShape(p: RebalancePolicy, e: SimulationEvent)
    ensures var calls := StepCalls(p, e);
            && |calls| >= 1 && calls[0] == Call(Broker, e.ts)
            && (forall c :: c in calls ==> c.dt == e.ts)
            && (forall k :: 1 <= k < |calls| ==> calls[k].target != Broker)
            && (Call(Signals, e.ts) in calls <==> p.hasSignals && e.eventType == MarketClose)
            && (Call(TradingSystem, e.ts) in calls <==> PastBurnIn(p, e.ts) && IsRebalanceEvent(p, e.ts))
  {
  }

  /** The calls one event makes on `target`. */
  lemma StepCallsTo(p: RebalancePolicy, e: SimulationEvent, target: Collaborator)
    ensures target == Broker ==> CallsTo(StepCalls(p, e), target) == [e.ts]
    ensures target == Signals ==>
              CallsTo(StepCalls(p, e), target) == if p.hasSignals && e.eventType == MarketClose then [e.ts] else []
    ensures target == TradingSystem ==>
              CallsTo(StepCalls(p, e), target)
              == if PastBurnIn(p, e.ts) && IsRebalanceEvent(p, e.ts) then [e.ts] else []
  {
    var a := [Call(Broker, e.ts)];
    var b := if p.hasSignals && e.eventType == MarketClose then [Call(Signals, e.ts)] else [];
    var c := if PastBurnIn(p, e.ts) && IsRebalanceEvent(p, e.ts) then [Call(TradingSystem, e.ts)] else [];
    CallsToConcat(a + b, c, target);
    CallsToConcat(a, b, target);
  }

  /** The calls of a whole run over `events`. */
  function RunCalls(p: RebalancePolicy, events: seq<SimulationEvent>): seq<Call>
  {
    if events == [] then []
    else RunCalls(p, events[..|events| - 1]) + StepCalls(p, events[|events| - 1])
  }

  /**
   * The equity-curve entries of a run over `events` that starts after the calls
   * `before`: one per event past the burn-in, holding the equity the broker reports
   * once that event's calls are made.
   */
  function EquityPoints(p: RebalancePolicy, events: seq<SimulationEvent>, before: seq<Call>,
                        equityOf: seq<Call> -> real): seq<EquityPoint>
  {
    if events == [] then []
    else
      var e := events[|events| - 1];
      EquityPoints(p, events[..|events| - 1], before, equityOf)
      + (if PastBurnIn(p, e.ts) then [EquityPoint(e.ts, equityOf(before + RunCalls(p, events)))] else [])
  }

  /** Extending a run by event `i` appends that event's calls and equity entry. */
  lemma RunUnfold(p: RebalancePolicy, events: seq<SimulationEvent>, i: nat, before: seq<Call>, equityOf: seq<Call> -> real)
    requires i < |events|
    ensures RunCalls(p, events[..i + 1]) == RunCalls(p, events[..i]) + StepCalls(p, events[i])
    ensures before + RunCalls(p, events[..i + 1]) == before + RunCalls(p, events[..i]) + StepCalls(p, events[i])
    ensures EquityPoints(p, events[..i + 1], before, equityOf)
         == EquityPoints(p, events[..i], before, equityOf)
            + (if PastBurnIn(p, events[i].ts)
               then [EquityPoint(events[i].ts, equityOf(before + RunCalls(p, events[..i]) + StepCalls(p, events[i])))]
               else [])
  {
    RunCallsStep(p, events, i);
    var prefix := events[..i + 1];
    assert prefix[..i] == events[..i] && prefix[i] == events[i];
  }

  lemma RunCallsStep(p: RebalancePolicy, events: seq<SimulationEvent>, i: nat)
    requires i < |events|
    ensures RunCalls(p, events[..i + 1]) == RunCalls(p, events[..i]) + StepCalls(p, events[i])
  {
    var prefix := events[..i + 1];
    assert prefix[..i] == events[..i] && prefix[i] == events[i];
  }

  // ---------------------------------------------------------------------------
  // The session

  class BacktestTradingSession {
    const startDt: Timestamp
    const endDt: Timestamp
    const policy: RebalancePolicy
    const simEngine: SimulationEngine
    /** Every call made on the broker, the signals collection and the trading system, in order. */
    var calls: seq<Call>
    var equityCurve: seq<EquityPoint>

    constructor (startDt: Timestamp, endDt: Timestamp, policy: RebalancePolicy, simEngine: SimulationEngine)
      ensures this.startDt == startDt && this.endDt == endDt
      ensures this.policy == policy && this.simEngine == simEngine
      ensures calls == [] && equityCurve == []
    {
      this.startDt := startDt;
      this.endDt := endDt;
      this.policy := policy;
      this.simEngine := simEngine;
      calls := [];
      equityCurve := [];
    }

    /** `_update_equity_curve`: append `dt` with the equity the broker reports now. */
    method UpdateEquityCurve(dt: Timestamp, equityOf: seq<Call> -> real)
      modifies this`equityCurve
      ensures equityCurve == old(equityCurve) + [EquityPoint(dt, equityOf(calls))]
    {
      equityCurve := equityCurve + [EquityPoint(dt, equityOf(calls))];
    }

    /**
     * The body of `run`'s loop for one event: update the broker, the signals on a
     * market close, the trading system on a rebalance event past the burn-in, then
     * the equity curve past the burn-in.
     */
    method ProcessEvent(event: SimulationEvent, equityOf: seq<Call> -> real)
      modifies this
      ensures calls == old(calls) + StepCalls(policy, event)
      ensures equityCurve == old(equityCurve) +
                (if PastBurnIn(policy, event.ts)
                 then [EquityPoint(event.ts, equityOf(old(calls) + StepCalls(policy, event)))]
                 else [])
    {
      var dt := event.ts;

      calls := calls + [Call(Broker, dt)];

      if policy.hasSignals && event.eventType == MarketClose {
        calls := calls + [Call(Signals, dt)];
      }

      if policy.burnInDt.Some? {
        if dt >= policy.burnInDt.value {
          if IsRebalanceEvent(policy, dt) {
            calls := calls + [Call(TradingSystem, dt)];
          }
        }
      } else {
        if IsRebalanceEvent(policy, dt) {
          calls := calls + [Call(TradingSystem, dt)];
        }
      }

      if policy.burnInDt.Some? {
        if dt >= policy.burnInDt.value {
          UpdateEquityCurve(dt, equityOf);
        }
      } else {
        UpdateEquityCurve(dt, equityOf);
      }
    }

    /** `run`: process every event the engine yields, in order. */
    method Run(equityOf: seq<Call> -> real)
      modifies this
      ensures calls == old(calls) + RunCalls(policy, EventsOf(simEngine))
      ensures equityCurve == old(equityCurve) + EquityPoints(policy, EventsOf(simEngine), old(calls), equityOf)
    {
      var events := IterateEngine(simEngine);
      ghost var calls0, curve0 := calls, equityCurve;
      for i := 0 to |events|
        invariant calls == calls0 + RunCalls(policy, events[..i])
        invariant equityCurve == curve0 + EquityPoints(policy, events[..i], calls0, equityOf)
      {
        RunUnfold(policy, events, i, calls0, equityOf);
        ProcessEvent(events[i], equityOf);
      }
      assert events[..|events|] == events;
    }
  }

  /**
   * `BacktestTradingSession(...)`: validate in the order `__init__` does, then build
   * the engine and the schedule. `kwargs` is the set of keyword arguments supplied;
   * `externalSchedule` stands for the daily, weekly and end-of-month schedules.
   */
  method NewBacktestTradingSession(
    startDt: Timestamp, endDt: Timestamp,
    rebalance: string := "weekly", hasSignals: bool := false, longOnly: bool := false,
    burnInDt: Option<Timestamp> := None, kwargs: set<string> := {},
    externalSchedule: seq<Timestamp> := [])
    returns (r: Result<BacktestTradingSession, SessionError>)
    requires IsMidnight(startDt)
    ensures r.Failure? <==> ConstructionError(rebalance, startDt, endDt, longOnly, kwargs).Some?
    ensures r.Failure? ==> ConstructionError(rebalance, startDt, endDt, longOnly, kwargs) == Some(r.error)
    ensures r.Success? ==>
              && fresh(r.value)
              && r.value.startDt == startDt && r.value.endDt == endDt
              && r.value.policy == RebalancePolicy(rebalance, ScheduleFor(rebalance, startDt, endDt, externalSchedule),
                                                   hasSignals, burnInDt)
              && r.value.simEngine == EngineFor(rebalance, startDt, endDt)
              && r.value.calls == [] && r.value.equityCurve == []
  {
    var engine := CreateSimulationEngine(rebalance, startDt, endDt);
    if engine.Failure? {
      return Failure(engine.error);
    }
    if rebalance == "weekly" && "rebalance_weekday" !in kwargs {
      return Failure(MissingRebalanceWeekday);
    }
    var schedule := CreateRebalanceEventTimes(rebalance, startDt, endDt, externalSchedule);
    var qtsError := QuantTradingSystemError(longOnly, kwargs);
    if qtsError.Some? {
      return Failure(qtsError.value);
    }
    var session := new BacktestTradingSession(
      startDt, endDt, RebalancePolicy(rebalance, schedule.value, hasSignals, burnInDt), engine.value);
    r := Success(session);
  }

  // ---------------------------------------------------------------------------
  // Properties of a run

  /** The timestamps of the calls made on `target`, in order. */
  function CallsTo(calls: seq<Call>, target: Collaborator): seq<Timestamp>
  {
    if calls == [] then []
    else
      var c := calls[|calls| - 1];
      CallsTo(calls[..|calls| - 1], target) + (if c.target == target then [c.dt] else [])
  }

  lemma {:induction false} CallsToConcat(a: seq<Call>, b: seq<Call>, target: Collaborator)
    ensures CallsTo(a + b, target) == CallsTo(a, target) + CallsTo(b, target)
  {
    if b != [] {
      assert (a + b)[..|a + b| - 1] == a + b[..|b| - 1];
      CallsToConcat(a, b[..|b| - 1], target);
    } else {
      assert a + b == a;
    }
  }

  /** The timestamps of the market-close events. */
  function CloseTimes(events: seq<SimulationEvent>): seq<Timestamp>
  {
    if events == [] then []
    else
      var e := events[|events| - 1];
      CloseTimes(events[..|events| - 1]) + (if e.eventType == MarketClose then [e.ts] else [])
  }

  /** The timestamps of the rebalance events past the burn-in. */
  function RebalanceTimes(p: RebalancePolicy, events: seq<SimulationEvent>): seq<Timestamp>
  {
    if events == [] then []
    else
      var e := events[|events| - 1];
      RebalanceTimes(p, events[..|events| - 1])
      + (if PastBurnIn(p, e.ts) && IsRebalanceEvent(p, e.ts) then [e.ts] else [])
  }

  /** The timestamps of the events past the burn-in. */
  function RecordedTimes(p: RebalancePolicy, events: seq<SimulationEvent>): seq<Timestamp>
  {
    if events == [] then []
    else
      var e := events[|events| - 1];
      RecordedTimes(p, events[..|events| - 1]) + (if PastBurnIn(p, e.ts) then [e.ts] else [])
  }

  /** The dates of an equity curve. */
  function CurveTimes(points: seq<EquityPoint>): seq<Timestamp>
  {
    seq(|points|, i requires 0 <= i < |points| => points[i].dt)
  }

  /** `broker.update(dt)` is called exactly once per event, in event order. */
  lemma {:induction false} BrokerUpdatedOncePerEvent(p: RebalancePolicy, events: seq<SimulationEvent>)
    ensures CallsTo(RunCalls(p, events), Broker) == Timestamps(events)
  {
    if events != [] {
      var init, e := events[..|events| - 1], events[|events| - 1];
      BrokerUpdatedOncePerEvent(p, init);
      CallsToConcat(RunCalls(p, init), StepCalls(p, e), Broker);
      StepCallsTo(p, e, Broker);
      TimestampsSnoc(events);
    }
  }

  /** `signals.update(dt)` is called exactly on the market-close events, and only when there are signals. */
  lemma {:induction false} SignalsUpdatedOnMarketClose(p: RebalancePolicy, events: seq<SimulationEvent>)
    ensures CallsTo(RunCalls(p, events), Signals) == if p.hasSignals then CloseTimes(events) else []
  {
    if events != [] {
      var init, e := events[..|events| - 1], events[|events| - 1];
      SignalsUpdatedOnMarketClose(p, init);
      CallsToConcat(RunCalls(p, init), StepCalls(p, e), Signals);
      StepCallsTo(p, e, Signals);
      if p.hasSignals {
        assert CloseTimes(events) == CloseTimes(init) + (if e.eventType == MarketClose then [e.ts] else []);
      } else {
        assert CallsTo(RunCalls(p, events), Signals) == [] + [];
      }
    }
  }

  /** The trading system runs exactly on the rebalance events past the burn-in, in event order. */
  lemma {:induction false} TradingSystemOnRebalanceEvents(p: RebalancePolicy, events: seq<SimulationEvent>)
    ensures CallsTo(RunCalls(p, events), TradingSystem) == RebalanceTimes(p, events)
  {
    if events != [] {
      var init, e := events[..|events| - 1], events[|events| - 1];
      TradingSystemOnRebalanceEvents(p, init);
      CallsToConcat(RunCalls(p, init), StepCalls(p, e), TradingSystem);
      StepCallsTo(p, e, TradingSystem);
    }
  }

  /**
   * The equity curve has one entry per event past the burn-in, in event order;
   * without a burn-in date, one entry per event.
   */
  lemma {:induction false} EquityCurveTimes(p: RebalancePolicy, events: seq<SimulationEvent>,
                                            before: seq<Call>, equityOf: seq<Call> -> real)
    ensures CurveTimes(EquityPoints(p, events, before, equityOf)) == RecordedTimes(p, events)
    ensures p.burnInDt.None? ==> RecordedTimes(p, events) == Timestamps(events)
  {
    if events != [] {
      var init, e := events[..|events| - 1], events[|events| - 1];
      EquityCurveTimes(p, init, before, equityOf);
      var a := EquityPoints(p, init, before, equityOf);
      var points := EquityPoints(p, events, before, equityOf);
      assert CurveTimes(points) == CurveTimes(a) + (if PastBurnIn(p, e.ts) then [e.ts] else []);
    }
    if p.burnInDt.None? {
      RecordedTimesWithoutBurnIn(p, events);
    }
  }

  /** Without a burn-in date every event is recorded. */
  lemma {:induction false} RecordedTimesWithoutBurnIn(p: RebalancePolicy, events: seq<SimulationEvent>)
    requires p.burnInDt.None?
    ensures RecordedTimes(p, events) == Timestamps(events)
  {
    if events != [] {
      RecordedTimesWithoutBurnIn(p, events[..|events| - 1]);
      TimestampsSnoc(events);
    }
  }

  /** The calls for the first `n` events are a prefix of the calls for all of them. */
  lemma {:induction false} RunCallsPrefix(p: RebalancePolicy, events: seq<SimulationEvent>, n: nat)
    requires n <= |events|
    ensures RunCalls(p, events[..n]) <= RunCalls(p, events)
  {
    if n < |events| {
      var init := events[..|events| - 1];
      assert init[..n] == events[..n];
      RunCallsPrefix(p, init, n);
    } else {
      assert events[..n] == events;
    }
  }

  /**
   * The calls for event `i` form one contiguous block, after the calls for the
   * events before it, and that block is `StepCalls` with the broker update first.
   */
  lemma RunCallsSegment(p: RebalancePolicy, events: seq<SimulationEvent>, i: nat)
    requires i < |events|
    ensures var lo, step := |RunCalls(p, events[..i])|, StepCalls(p, events[i]);
            && lo + |step| <= |RunCalls(p, events)|
            && RunCalls(p, events)[lo .. lo + |step|] == step
            && RunCalls(p, events)[lo] == Call(Broker, events[i].ts)
  {
    RunCallsPrefix(p, events, i + 1);
    RunCallsStep(p, events, i);
    StepCallsShape(p, events[i]);
    PrefixSlice(RunCalls(p, events), RunCalls(p, events[..i]), StepCalls(p, events[i]));
  }

  lemma PrefixSlice(whole: seq<Call>, a: seq<Call>, b: seq<Call>)
    requires a + b <= whole
    ensures |a| + |b| <= |whole| && whole[|a| .. |a| + |b|] == b
  {
    assert whole[..|a| + |b|] == a + b;
  }

  lemma {:induction false} CloseTimesEmpty(events: seq<SimulationEvent>)
    requires forall e :: e in events ==> e.eventType != MarketClose
    ensures CloseTimes(events) == []
  {
    if events != [] {
      CloseTimesEmpty(events[..|events| - 1]);
      assert events[|events| - 1] in events;
    }
  }

  lemma {:induction false} HourlyRebalanceTimes(p: RebalancePolicy, events: seq<SimulationEvent>)
    requires p.rebalance == "hourly"
    ensures RebalanceTimes(p, events) == RecordedTimes(p, events)
  {
    if events != [] {
      HourlyRebalanceTimes(p, events[..|events| - 1]);
    }
  }

  lemma {:induction false} UnscheduledRebalanceTimes(p: RebalancePolicy, events: seq<SimulationEvent>)
    requires p.rebalance != "hourly"
    requires forall e :: e in events ==> e.ts !in p.schedule
    ensures RebalanceTimes(p, events) == []
  {
    if events != [] {
      UnscheduledRebalanceTimes(p, events[..|events| - 1]);
      assert events[|events| - 1] in events;
    }
  }

  /** The business-hours engine yields only market-open events, so the signals are never updated. */
  lemma HourlyEngineNeverUpdatesSignals(p: RebalancePolicy, engine: BusinessHourSimulation.BusinessHoursSimulationEngine)
    ensures CallsTo(RunCalls(p, BusinessHourSimulation.EventsOf(engine)), Signals) == []
  {
    var events := BusinessHourSimulation.EventsOf(engine);
    BusinessHourSimulation.HourEventsShape(engine.businessEvents);
    forall e | e in events ensures e.eventType != MarketClose {
      var i :| 0 <= i < |events| && events[i] == e;
    }
    CloseTimesEmpty(events);
    SignalsUpdatedOnMarketClose(p, events);
  }

  /**
   * An hourly session built by `NewBacktestTradingSession` with no burn-in runs the
   * trading system on every generated business hour, in order, and never updates the signals.
   */
  lemma HourlySessionRun(startDt: Timestamp, endDt: Timestamp, hasSignals: bool, external: seq<Timestamp>)
    requires IsMidnight(startDt)
    ensures var p := RebalancePolicy("hourly", ScheduleFor("hourly", startDt, endDt, external), hasSignals, None);
            var events := EventsOf(EngineFor("hourly", startDt, endDt));
            && CallsTo(RunCalls(p, events), TradingSystem) == BusinessHoursOf(startDt, endDt, false, false)
            && CallsTo(RunCalls(p, events), Signals) == []
            && CallsTo(RunCalls(p, events), Broker) == BusinessHoursOf(startDt, endDt, false, false)
  {
    var p := RebalancePolicy("hourly", ScheduleFor("hourly", startDt, endDt, external), hasSignals, None);
    var engine := BusinessHourSimulation.BusinessHoursSimulationEngine(
      startDt, endDt, false, false, BusinessHoursOf(startDt, endDt, false, false));
    var events := BusinessHourSimulation.EventsOf(engine);
    BusinessHourSimulation.EngineEvents(engine);
    TradingSystemOnRebalanceEvents(p, events);
    HourlyRebalanceTimes(p, events);
    RecordedTimesWithoutBurnIn(p, events);
    BrokerUpdatedOncePerEvent(p, events);
    HourlyEngineNeverUpdatesSignals(p, engine);
    assert Timestamps(events) == engine.businessEvents;
  }

  /**
   * A buy-and-hold session built by `NewBacktestTradingSession` never runs the trading
   * system: its one scheduled timestamp is the midnight start, and the business-days
   * engine, built without pre-market events, yields only 14:30 and 21:00 events.
   */
  lemma BuyAndHoldSessionNeverTrades(startDt: Timestamp, endDt: Timestamp, hasSignals: bool,
                                     burnInDt: Option<Timestamp>, external: seq<Timestamp>)
    requires IsMidnight(startDt) && startDt <= endDt
    ensures var p := RebalancePolicy("buy_and_hold", ScheduleFor("buy_and_hold", startDt, endDt, external), hasSignals, burnInDt);
            CallsTo(RunCalls(p, EventsOf(EngineFor("buy_and_hold", startDt, endDt))), TradingSystem) == []
  {
    var p := RebalancePolicy("buy_and_hold", ScheduleFor("buy_and_hold", startDt, endDt, external), hasSignals, burnInDt);
    var engine := BusinessDaySimulation.BusinessDaysSimulationEngine(
      startDt, endDt, false, false, BusinessDays(startDt, endDt, false, false));
    var events := BusinessDaySimulation.EventsOf(engine);
    BusinessDaySimulation.EngineEvents(engine);
    forall e | e in events ensures e.ts !in p.schedule {
      assert TimeOfDay(e.ts) != 0;
    }
    UnscheduledRebalanceTimes(p, events);
    TradingSystemOnRebalanceEvents(p, events);
  }
}
