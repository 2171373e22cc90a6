/** The application's own availability flags, the start-up step that raises
    them, and the health verdict computed from them. Publishing an
    availability change is modelled by appending it to a ghost event log. */
module Health {
  import opened Common

  /** The availability changes the indicator publishes. */
  datatype AvailabilityEvent = AcceptingTraffic | RefusingTraffic | Correct | Broken
  {
    predicate IsReadiness() {
      AcceptingTraffic? || RefusingTraffic?
    }
  }

  function ReadinessEvent(ready: bool): (e: AvailabilityEvent)
    ensures e.IsReadiness()
    ensures e == AcceptingTraffic <==> ready
  {
    if ready then AcceptingTraffic else RefusingTraffic
  }

  function LivenessEvent(live: bool): (e: AvailabilityEvent)
    ensures !e.IsReadiness()
    ensures e == Correct <==> live
  {
    if live then Correct else Broken
  }

  /** The readiness the most recent readiness event announced, if any. */
  function LastReadiness(events: seq<AvailabilityEvent>): (r: Option<bool>)
    ensures r.Some? <==> exists i :: 0 <= i < |events| && events[i].IsReadiness()
    ensures r.Some? ==> ReadinessEvent(r.value) in events
  {
    if events == [] then None
    else if events[|events| - 1].IsReadiness() then Some(events[|events| - 1] == AcceptingTraffic)
    else LastReadiness(events[..|events| - 1])
  }

  /** The liveness the most recent liveness event announced, if any. */
  function LastLiveness(events: seq<AvailabilityEvent>): (r: Option<bool>)
    ensures r.Some? <==> exists i :: 0 <= i < |events| && !events[i].IsReadiness()
    ensures r.Some? ==> LivenessEvent(r.value) in events
  {
    if events == [] then None
    else if !events[|events| - 1].IsReadiness() then Some(events[|events| - 1] == Correct)
    else LastLiveness(events[..|events| - 1])
  }

  /** A liveness event leaves the announced readiness as it was, and the
      other way round. */
  lemma {:induction false} LastEventsAreIndependent(events: seq<AvailabilityEvent>, e: AvailabilityEvent)
    ensures e.IsReadiness() ==> LastLiveness(events + [e]) == LastLiveness(events)
    ensures !e.IsReadiness() ==> LastReadiness(events + [e]) == LastReadiness(events)
  {
    assert (events + [e])[..|events|] == events;
  }

  class AppHealthIndicator {
    var isReady: bool
    var isLive: bool
    /** Every availability change published, oldest first. */
    ghost var events: seq<AvailabilityEvent>

    /** The flags agree with what was last announced for each of them. */
    ghost predicate Valid()
      reads this
    {
      && (LastReadiness(events).Some? ==> LastReadiness(events).value == isReady)
      && (LastLiveness(events).Some? ==> LastLiveness(events).value == isLive)
    }

    /** Not ready, live, nothing published yet. */
    constructor ()
      ensures Valid()
      ensures !isReady && isLive && events == []
    {
      isReady := false;
      isLive := true;
      events := [];
    }

    /** Sets readiness and publishes exactly one readiness event, even when
        the value does not change. */
    method SetReady(ready: bool)
      modifies this
      ensures isReady == ready && isLive == old(isLive)
      ensures events == old(events) + [ReadinessEvent(ready)]
      ensures LastReadiness(events) == Some(ready)
      ensures LastLiveness(events) == old(LastLiveness(events))
      ensures old(Valid()) ==> Valid()
    {
      isReady := ready;
      events := events + [ReadinessEvent(ready)];
      LastEventsAreIndependent(old(events), ReadinessEvent(ready));
    }

    /** Sets liveness and publishes exactly one liveness event, even when the
        value does not change. */
    method SetLive(live: bool)
      modifies this
      ensures isLive == live && isReady == old(isReady)
      ensures events == old(events) + [LivenessEvent(live)]
      ensures LastLiveness(events) == Some(live)
      ensures LastReadiness(events) == old(LastReadiness(events))
      ensures old(Valid()) ==> Valid()
    {
      isLive := live;
      events := events + [LivenessEvent(live)];
      LastEventsAreIndependent(old(events), LivenessEvent(live));
    }
  }

  class HealthInitializer {
    const healthIndicator: AppHealthIndicator

    constructor (healthIndicator: AppHealthIndicator)
      ensures this.healthIndicator == healthIndicator
    {
      this.healthIndicator := healthIndicator;
    }

    /** At start-up: ready, then live. The arguments are ignored, and the
        flags end the same whatever they were, so a second run leaves them
        as the first did. */
    method Run(args: seq<string>)
      modifies healthIndicator
      ensures healthIndicator.isReady && healthIndicator.isLive
      ensures healthIndicator.events == old(healthIndicator.events) + [AcceptingTraffic, Correct]
      ensures healthIndicator.Valid()
      ensures CustomHealth(healthIndicator.isLive, healthIndicator.isReady).status == Up
    {
      healthIndicator.SetReady(true);
      healthIndicator.SetLive(true);
    }
  }

  datatype Status = Up | OutOfService | Down

  datatype HealthReport = HealthReport(status: Status, details: map<string, string>)

  /** The custom health indicator: liveness decides first, then readiness. */
  function CustomHealth(isLive: bool, isReady: bool): (h: HealthReport)
    ensures h.status == Down <==> !isLive
    ensures h.status == OutOfService <==> isLive && !isReady
    ensures h.status == Up <==> isLive && isReady
    ensures h.status == Down ==> h.details == map["error" := "Application is not live"]
    ensures h.status == OutOfService ==> h.details == map["info" := "Application is not ready to accept traffic"]
    ensures h.status == Up ==> h.details == map[]
  {
    if !isLive then HealthReport(Down, map["error" := "Application is not live"])
    else if !isReady then HealthReport(OutOfService, map["info" := "Application is not ready to accept traffic"])
    else HealthReport(Up, map[])
  }
}
