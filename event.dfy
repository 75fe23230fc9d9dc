/** The simulation event value of qstrader/simulation/event.py. */
module Event {
  import opened Times

  /** The event type strings "pre_market", "market_open", "market_close" and "post_market". */
  datatype EventType = PreMarket | MarketOpen | MarketClose | PostMarket

  /** A timestamp together with the kind of market event that happens at it. */
  datatype SimulationEvent = SimulationEvent(ts: Timestamp, eventType: EventType)

  /** `SimulationEvent.__eq__`: compare the timestamps, then the event types. */
  function Equals(lhs: SimulationEvent, rhs: SimulationEvent): (r: bool)
    ensures r <==> lhs == rhs
    ensures lhs.ts != rhs.ts ==> !r
  {
    if lhs.ts != rhs.ts then false
    else if lhs.eventType != rhs.eventType then false
    else true
  }

  /** The comparison is reflexive and symmetric. */
  lemma EqualsReflexiveSymmetric(a: SimulationEvent, b: SimulationEvent)
    ensures Equals(a, a)
    ensures Equals(a, b) == Equals(b, a)
  {
  }

  /** The timestamps of a sequence of events strictly increase. */
  predicate TimestampsIncreasing(events: seq<SimulationEvent>)
  {
    forall i, j :: 0 <= i < j < |events| ==> events[i].ts < events[j].ts
  }

  /** The timestamps of `events`, in order. */
  function Timestamps(events: seq<SimulationEvent>): (r: seq<Timestamp>)
    ensures |r| == |events| && forall i :: 0 <= i < |events| ==> r[i] == events[i].ts
  {
    seq(|events|, i requires 0 <= i < |events| => events[i].ts)
  }

  lemma TimestampsSnoc(events: seq<SimulationEvent>)
    requires events != []
    ensures Timestamps(events) == Timestamps(events[..|events| - 1]) + [events[|events| - 1].ts]
  {
  }
}
