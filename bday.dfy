/** The business-day simulation engine of qstrader/simulation/bday.py. */
module BusinessDaySimulation {
  import opened Wrappers
  import opened Times
  import opened Event

  datatype EngineError = InvalidRange(startDt: Timestamp, endDt: Timestamp)

  /** The fields `BusinessDaysSimulationEngine.__init__` stores; none changes afterwards. */
  datatype BusinessDaysSimulationEngine = BusinessDaysSimulationEngine(
    startDt: Timestamp,
    endDt: Timestamp,
    preMarket: bool,
    postMarket: bool,
    businessDays: seq<Timestamp>)
  {
    /** The state the constructor leaves. */
    predicate Valid()
    {
      IsMidnight(startDt) && startDt <= endDt && businessDays == BusinessDays(startDt, endDt, preMarket, postMarket)
    }
  }

  /**
   * `BusinessDaysSimulationEngine(start_dt, end_dt, pre_market, post_market)`:
   * refuses a range that ends before it starts, otherwise stores the business days of the range.
   */
  function NewBusinessDaysSimulationEngine(startDt: Timestamp, endDt: Timestamp,
                                           preMarket: bool := true, postMarket: bool := true)
    : (r: Result<BusinessDaysSimulationEngine, EngineError>)
    requires IsMidnight(startDt)
    ensures r.Failure? <==> endDt < startDt
    ensures r.Failure? ==> r.error == InvalidRange(startDt, endDt)
    ensures r.Success? ==> r.value.Valid()
    ensures r.Success? ==>
              r.value.startDt == startDt && r.value.endDt == endDt &&
              r.value.preMarket == preMarket && r.value.postMarket == postMarket
  {
    if endDt < startDt then Failure(InvalidRange(startDt, endDt))
    else Success(BusinessDaysSimulationEngine(startDt, endDt, preMarket, postMarket,
                                              BusinessDays(startDt, endDt, preMarket, postMarket)))
  }

  /** Times of day of the daily events other than the market open (14:30, `MarketOpenTime`). */
  const PreMarketTime: nat := 0
  const MarketCloseTime: nat := 21 * MinutesPerHour
  const PostMarketTime: nat := 23 * MinutesPerHour + 59

  /** The event of type `t` on the date of `bday`. */
  function EventOn(bday: Timestamp, t: EventType): SimulationEvent
  {
    SimulationEvent(DateOf(bday) + EventTime(t), t)
  }

  /** The events one business day yields, in order. */
  function DayEvents(bday: Timestamp, preMarket: bool, postMarket: bool): seq<SimulationEvent>
  {
    (if preMarket then [EventOn(bday, PreMarket)] else [])
    + [EventOn(bday, MarketOpen), EventOn(bday, MarketClose)]
    + (if postMarket then [EventOn(bday, PostMarket)] else [])
  }

  /** The events of `days`, day after day. */
  function DailyEvents(days: seq<Timestamp>, preMarket: bool, postMarket: bool): seq<SimulationEvent>
  {
    if days == [] then []
    else DailyEvents(days[..|days| - 1], preMarket, postMarket) + DayEvents(days[|days| - 1], preMarket, postMarket)
  }

  /** The events iterating an engine yields. */
  function EventsOf(engine: BusinessDaysSimulationEngine): seq<SimulationEvent>
  {
    DailyEvents(engine.businessDays, engine.preMarket, engine.postMarket)
  }

  lemma DailyEventsStep(days: seq<Timestamp>, i: nat, preMarket: bool, postMarket: bool)
    requires i < |days|
    ensures DailyEvents(days[..i + 1], preMarket, postMarket)
         == DailyEvents(days[..i], preMarket, postMarket) + DayEvents(days[i], preMarket, postMarket)
  {
    assert days[..i + 1][..i] == days[..i];
  }

  /** One iteration of `__iter__`'s loop: the events yielded for business day `bday`, in order. */
  method YieldDay(bday: Timestamp, preMarket: bool, postMarket: bool) returns (yielded: seq<SimulationEvent>)
    ensures yielded == DayEvents(bday, preMarket, postMarket)
  {
    yielded := [];
    if preMarket {
      yielded := yielded + [SimulationEvent(DateOf(bday) + PreMarketTime, PreMarket)];
    }
    yielded := yielded + [SimulationEvent(DateOf(bday) + MarketOpenTime, MarketOpen)];
    yielded := yielded + [SimulationEvent(DateOf(bday) + MarketCloseTime, MarketClose)];
    if postMarket {
      yielded := yielded + [SimulationEvent(DateOf(bday) + PostMarketTime, PostMarket)];
    }
  }

  /**
   * `BusinessDaysSimulationEngine.__iter__`, with the yielded events collected in order.
   * The result depends only on the stored fields, so iterating twice yields the same events.
   */
  method Iterate(engine: BusinessDaysSimulationEngine) returns (events: seq<SimulationEvent>)
    ensures events == EventsOf(engine)
  {
    events := [];
    for index := 0 to |engine.businessDays|
      invariant events == DailyEvents(engine.businessDays[..index], engine.preMarket, engine.postMarket)
    {
      var bday := engine.businessDays[index];
      DailyEventsStep(engine.businessDays, index, engine.preMarket, engine.postMarket);
      var yielded := YieldDay(bday, engine.preMarket, engine.postMarket);
      events := events + yielded;
    }
    assert engine.businessDays[..|engine.businessDays|] == engine.businessDays;
  }

  // ---------------------------------------------------------------------------
  // Properties of the daily event sequence

  /** Two events a day, plus one for each flag that is set. */
  function EventsPerDay(preMarket: bool, postMarket: bool): nat
  {
    2 + (if preMarket then 1 else 0) + (if postMarket then 1 else 0)
  }

  lemma {:induction false} DailyEventsLength(days: seq<Timestamp>, preMarket: bool, postMarket: bool)
    ensures |DailyEvents(days, preMarket, postMarket)| == |days| * EventsPerDay(preMarket, postMarket)
  {
    if days != [] {
      var init, k := days[..|days| - 1], EventsPerDay(preMarket, postMarket);
      DailyEventsLength(init, preMarket, postMarket);
      assert |DayEvents(days[|days| - 1], preMarket, postMarket)| == k;
      MulSucc(|init|, k);
    }
  }

  /** The events of the `i`-th business day form the `i`-th block of the sequence, in the order of `DayEvents`. */
  lemma MulMonotonic(a: nat, b: nat, k: nat)
    requires a <= b
    ensures a * k <= b * k
  {
    assert b * k == a * k + (b - a) * k;
  }

  lemma {:induction false} DailyEventsBlock(days: seq<Timestamp>, preMarket: bool, postMarket: bool, i: nat)
    requires i < |days|
    ensures |DailyEvents(days, preMarket, postMarket)| == |days| * EventsPerDay(preMarket, postMarket)
    ensures var k := EventsPerDay(preMarket, postMarket);
            DailyEvents(days, preMarket, postMarket)[i * k .. i * k + k] == DayEvents(days[i], preMarket, postMarket)
  {
    var k := EventsPerDay(preMarket, postMarket);
    var init := days[..|days| - 1];
    DailyEventsLength(days, preMarket, postMarket);
    DailyEventsLength(init, preMarket, postMarket);
    var a := DailyEvents(init, preMarket, postMarket);
    var b := DayEvents(days[|days| - 1], preMarket, postMarket);
    var lo := i * k;
    if i == |days| - 1 {
      assert lo == |a|;
      SliceOfConcat(a, b, lo, k);
    } else {
      DailyEventsBlock(init, preMarket, postMarket, i);
      MulMonotonic(i + 1, |init|, k);
      MulSucc(i, k);
      SliceOfConcat(a, b, lo, k);
      assert init[i] == days[i];
    }
  }

  /** A slice of `a + b` lies wholly in `a`, or is exactly `b`. */
  lemma SliceOfConcat(a: seq<SimulationEvent>, b: seq<SimulationEvent>, lo: nat, k: nat)
    requires lo + k <= |a| || (lo == |a| && k == |b|)
    ensures lo + k <= |a| ==> (a + b)[lo .. lo + k] == a[lo .. lo + k]
    ensures lo == |a| && k == |b| ==> (a + b)[lo .. lo + k] == b
  {
  }

  /** The time of day at which each type of event happens. */
  function EventTime(t: EventType): nat
  {
    match t
    case PreMarket => PreMarketTime
    case MarketOpen => MarketOpenTime
    case MarketClose => MarketCloseTime
    case PostMarket => PostMarketTime
  }

  /**
   * Every event of a business day falls on that day at its type's time of day, the
   * pre- and post-market events only when their flags are set.
   */
  lemma DayEventsOnDay(bday: Timestamp, preMarket: bool, postMarket: bool)
    requires IsMidnight(bday)
    ensures forall e :: e in DayEvents(bday, preMarket, postMarket) ==>
              && DateOf(e.ts) == bday && TimeOfDay(e.ts) == EventTime(e.eventType)
              && (e.eventType == PreMarket ==> preMarket) && (e.eventType == PostMarket ==> postMarket)
    ensures TimestampsIncreasing(DayEvents(bday, preMarket, postMarket))
  {
    assert DateOf(bday) == bday;
    var e0 := SimulationEvent(bday + PreMarketTime, PreMarket);
    var e1 := SimulationEvent(bday + MarketOpenTime, MarketOpen);
    var e2 := SimulationEvent(bday + MarketCloseTime, MarketClose);
    var e3 := SimulationEvent(bday + PostMarketTime, PostMarket);
    var all := (if preMarket then [e0] else []) + [e1, e2] + (if postMarket then [e3] else []);
    assert DayEvents(bday, preMarket, postMarket) == all;
    OnDay(bday, e0);
    OnDay(bday, e1);
    OnDay(bday, e2);
    OnDay(bday, e3);
    assert forall e :: e in all ==> (e == e0 && preMarket) || e == e1 || e == e2 || (e == e3 && postMarket);
  }

  lemma OnDay(bday: Timestamp, e: SimulationEvent)
    requires IsMidnight(bday) && e.ts == bday + EventTime(e.eventType)
    ensures DateOf(e.ts) == bday && TimeOfDay(e.ts) == EventTime(e.eventType)
  {
    WithinDay(bday, EventTime(e.eventType));
  }

  /** Every event falls on one of the business days. */
  lemma {:induction false} DailyEventsDates(days: seq<Timestamp>, preMarket: bool, postMarket: bool)
    requires forall i :: 0 <= i < |days| ==> IsMidnight(days[i])
    ensures forall e :: e in DailyEvents(days, preMarket, postMarket) ==> DateOf(e.ts) in days
  {
    if days != [] {
      var init, last := days[..|days| - 1], days[|days| - 1];
      DailyEventsDates(init, preMarket, postMarket);
      DayEventsOnDay(last, preMarket, postMarket);
      var a, b := DailyEvents(init, preMarket, postMarket), DayEvents(last, preMarket, postMarket);
      assert forall e :: e in a + b ==> e in a || e in b;
      assert forall d :: d in init ==> d in days;
    }
  }

  /** An event on the date of midnight `d` precedes any later midnight. */
  lemma BeforeLaterMidnight(ts: Timestamp, d: Timestamp, later: Timestamp)
    requires IsMidnight(d) && IsMidnight(later) && d < later && DateOf(ts) == d
    ensures ts < later
  {
    MidnightGap(d, later);
  }

  /** Over ascending business days, each day's events precede the next day's. */
  lemma {:induction false} DailyEventsOrdered(days: seq<Timestamp>, preMarket: bool, postMarket: bool)
    requires StrictlyIncreasing(days)
    requires forall i :: 0 <= i < |days| ==> IsMidnight(days[i])
    ensures TimestampsIncreasing(DailyEvents(days, preMarket, postMarket))
  {
    if days != [] {
      var init, last := days[..|days| - 1], days[|days| - 1];
      DailyEventsOrdered(init, preMarket, postMarket);
      DailyEventsDates(init, preMarket, postMarket);
      DayEventsOnDay(last, preMarket, postMarket);
      var a, b := DailyEvents(init, preMarket, postMarket), DayEvents(last, preMarket, postMarket);
      forall i, j | 0 <= i < |a| && 0 <= j < |b| ensures a[i].ts < b[j].ts {
        assert a[i] in a && b[j] in b;
        var m :| 0 <= m < |init| && init[m] == DateOf(a[i].ts);
        BeforeLaterMidnight(a[i].ts, init[m], last);
      }
    }
  }

  /** Every event happens at its type's time of day, the pre- and post-market events only when enabled. */
  lemma {:induction false} DailyEventsTimes(days: seq<Timestamp>, preMarket: bool, postMarket: bool)
    requires forall i :: 0 <= i < |days| ==> IsMidnight(days[i])
    ensures forall e :: e in DailyEvents(days, preMarket, postMarket) ==>
              && TimeOfDay(e.ts) == EventTime(e.eventType)
              && (e.eventType == PreMarket ==> preMarket) && (e.eventType == PostMarket ==> postMarket)
  {
    if days != [] {
      var init, last := days[..|days| - 1], days[|days| - 1];
      DailyEventsTimes(init, preMarket, postMarket);
      DayEventsOnDay(last, preMarket, postMarket);
      var a, b := DailyEvents(init, preMarket, postMarket), DayEvents(last, preMarket, postMarket);
      assert forall e :: e in a + b ==> e in a || e in b;
    }
  }

  /**
   * What iterating a constructed engine yields: `EventsPerDay` events per business day,
   * strictly increasing in time, each on a Monday-to-Friday date of the range.
   */
  lemma EngineEvents(engine: BusinessDaysSimulationEngine)
    requires engine.Valid()
    ensures |EventsOf(engine)| == |engine.businessDays| * EventsPerDay(engine.preMarket, engine.postMarket)
    ensures TimestampsIncreasing(EventsOf(engine))
    ensures forall e :: e in EventsOf(engine) ==> IsBusinessDayIn(DateOf(e.ts), engine.startDt, engine.endDt)
    ensures forall e :: e in EventsOf(engine) ==>
              && TimeOfDay(e.ts) == EventTime(e.eventType)
              && (e.eventType == PreMarket ==> engine.preMarket) && (e.eventType == PostMarket ==> engine.postMarket)
  {
    var days := engine.businessDays;
    assert forall i :: 0 <= i < |days| ==> days[i] in days;
    DailyEventsLength(days, engine.preMarket, engine.postMarket);
    DailyEventsOrdered(days, engine.preMarket, engine.postMarket);
    DailyEventsDates(days, engine.preMarket, engine.postMarket);
    DailyEventsTimes(days, engine.preMarket, engine.postMarket);
  }

  /** With the default flags every business day yields all four events. */
  lemma DefaultEngineEvents(startDt: Timestamp, endDt: Timestamp)
    requires IsMidnight(startDt) && startDt <= endDt
    ensures NewBusinessDaysSimulationEngine(startDt, endDt).Success?
    ensures var engine := NewBusinessDaysSimulationEngine(startDt, endDt).value;
            |EventsOf(engine)| == 4 * |BusinessDays(startDt, endDt)|
  {
    var engine := NewBusinessDaysSimulationEngine(startDt, endDt).value;
    DailyEventsLength(engine.businessDays, true, true);
  }
}
