/** The business-hour simulation engine of qstrader/simulation/bhour.py. */
module BusinessHourSimulation {
  import opened Times
  import opened Event

  /** The fields `BusinessHoursSimulationEngine.__init__` stores; none changes afterwards. */
  datatype BusinessHoursSimulationEngine = BusinessHoursSimulationEngine(
    startDt: Timestamp,
    endDt: Timestamp,
    preMarket: bool,
    postMarket: bool,
    businessEvents: seq<Timestamp>)
  {
    /** The state the constructor leaves. */
    predicate Valid()
    {
      IsMidnight(startDt) && businessEvents == BusinessHoursOf(startDt, endDt, preMarket, postMarket)
    }
  }

  /**
   * `BusinessHoursSimulationEngine(start_dt, end_dt, pre_market, post_market)`: there is
   * no range check; the flags are handed unchanged to the business-hours generator.
   */
  method NewBusinessHoursSimulationEngine(startDt: Timestamp, endDt: Timestamp,
                                          preMarket: bool := false, postMarket: bool := false)
    returns (engine: BusinessHoursSimulationEngine)
    requires IsMidnight(startDt)
    ensures engine.Valid()
    ensures engine.startDt == startDt && engine.endDt == endDt
    ensures engine.preMarket == preMarket && engine.postMarket == postMarket
  {
    var hours := GenerateBusinessHours(startDt, endDt, preMarket, postMarket);
    engine := BusinessHoursSimulationEngine(startDt, endDt, preMarket, postMarket, hours);
  }

  /** `datetime(year, month, day, hour, minute=0, second=0)` for the date and hour of `t`. */
  function TruncateToHour(t: Timestamp): (r: Timestamp)
    ensures IsWholeHour(r) && r <= t < r + MinutesPerHour
    ensures IsWholeHour(t) ==> r == t
  {
    var q, h, m := t / MinutesPerDay, TimeOfDay(t) / MinutesPerHour, TimeOfDay(t) % MinutesPerHour;
    var k := 24 * q + h;
    assert DateOf(t) + h * MinutesPerHour == MinutesPerHour * k;
    assert t == MinutesPerHour * k + m && m < MinutesPerHour;
    assert t % MinutesPerHour == m;
    DateOf(t) + h * MinutesPerHour
  }

  /** One market-open event per timestamp, in the same order. */
  function HourEvents(times: seq<Timestamp>): seq<SimulationEvent>
  {
    if times == [] then []
    else HourEvents(times[..|times| - 1]) + [SimulationEvent(TruncateToHour(times[|times| - 1]), MarketOpen)]
  }

  /** The events iterating an engine yields. */
  function EventsOf(engine: BusinessHoursSimulationEngine): seq<SimulationEvent>
  {
    HourEvents(engine.businessEvents)
  }

  /** `BusinessHoursSimulationEngine.__iter__`, with the yielded events collected in order. */
  method Iterate(engine: BusinessHoursSimulationEngine) returns (events: seq<SimulationEvent>)
    ensures events == EventsOf(engine)
  {
    events := [];
    for index := 0 to |engine.businessEvents|
      invariant events == HourEvents(engine.businessEvents[..index])
    {
      var eventTime := engine.businessEvents[index];
      assert engine.businessEvents[..index + 1][..index] == engine.businessEvents[..index];
      events := events + [SimulationEvent(TruncateToHour(eventTime), MarketOpen)];
    }
    assert engine.businessEvents[..|engine.businessEvents|] == engine.businessEvents;
  }

  // ---------------------------------------------------------------------------
  // Properties of the hourly event sequence

  /** Exactly one event per timestamp, in order, at that timestamp's whole hour, always of type market open. */
  lemma {:induction false} HourEventsShape(times: seq<Timestamp>)
    ensures |HourEvents(times)| == |times|
    ensures forall i :: 0 <= i < |times| ==>
              HourEvents(times)[i] == SimulationEvent(TruncateToHour(times[i]), MarketOpen)
  {
    if times != [] {
      HourEventsShape(times[..|times| - 1]);
    }
  }

  /**
   * What iterating a constructed engine yields: one market-open event per generated
   * business hour, at exactly that hour, strictly increasing in time.
   */
  lemma EngineEvents(engine: BusinessHoursSimulationEngine)
    requires engine.Valid()
    ensures |EventsOf(engine)| == |engine.businessEvents|
    ensures forall i :: 0 <= i < |engine.businessEvents| ==>
              EventsOf(engine)[i] == SimulationEvent(engine.businessEvents[i], MarketOpen)
    ensures forall e :: e in EventsOf(engine) ==> e.eventType == MarketOpen
    ensures TimestampsIncreasing(EventsOf(engine))
  {
    var times := engine.businessEvents;
    HourEventsShape(times);
    forall i | 0 <= i < |times| ensures IsWholeHour(times[i]) {
      assert times[i] in times;
      BusinessHoursMembership(engine.startDt, engine.endDt, engine.preMarket, engine.postMarket, times[i]);
    }
    BusinessHoursIncreasing(engine.startDt, engine.endDt, engine.preMarket, engine.postMarket);
  }

  /** A range that ends before it starts yields no events at all. */
  lemma ReversedRangeYieldsNothing(engine: BusinessHoursSimulationEngine)
    requires engine.Valid() && engine.endDt < engine.startDt
    ensures EventsOf(engine) == []
  {
    HourEventsShape(engine.businessEvents);
    BusinessHoursLength(engine.startDt, engine.endDt, engine.preMarket, engine.postMarket);
    BusinessDaysEmptyRange(engine.startDt, engine.endDt);
  }
}
