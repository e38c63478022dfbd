/**
 What the dwell, headway and travel time processors send for two events that meet in the store, in the events' own
 fields, with keys, seconds and nanoseconds written out.
 */
module StoredPairs {
  import opened Events
  import opened Keys
  import opened StateStore
  import opened DwellEvents
  import opened HeadwayEvents
  import opened TravelTimeEvents
  import opened Engine

  /** None of the calls uses the key, and no sweep among them is later than t. */
  ghost predicate Undisturbed(calls: seq<Call>, key: string, t: int) {
    forall c :: c in calls ==> !(Keyed(c) && Key(c) == key) && (c.task == Expire ==> c.now <= t)
  }

  lemma {:induction false} EntryStays(s: States, calls: seq<Call>, key: string, t: int)
    requires Undisturbed(calls, key, t)
    ensures Lookup(Final(s, calls), key, t) == Lookup(s, key, t)
  {
    if calls != [] {
      var before, c := calls[..|calls| - 1], calls[|calls| - 1];
      EntryStays(s, before, key, t);
      assert c in calls;
    }
  }

  /** What a call sends after a first call and others that leave its key alone. */
  function SentAfter(s: States, first: Call, between: seq<Call>, second: Call): seq<Event> {
    Serve(Final(After(s, first), between), second).emitted
  }

  /** Neither in the store nor expired in it, or not a stop event. */
  predicate NothingUsable(s: States, key: string, t: int) {
    key !in s || s[key].expiration < t || !s[key].msg.StopMsg?
  }

  /** The attributes that a metric takes over from the event it is sent for. */
  function MetricAttributes(a: Attributes): Attributes {
    a.(stopStatus := Unknown, originStopId := "", destinationStopId := "", direction := "",
       directionDestination := "", parentStation := "")
  }

  /** A departure within 3600 seconds of the clock ends the dwell that the arrival began, if its timestamp is not earlier. */
  lemma StaySendsDwell(s: States, t: int, arrival: StopEvent, between: seq<Call>, t': int, departure: StopEvent)
    requires arrival.eventType == Arrival && departure.eventType == Departure
    requires var a, b := arrival.attr, departure.attr;
             && a.agencyId == b.agencyId && a.routeId == b.routeId && a.stopId == b.stopId
             && a.directionId == b.directionId && a.vehicleId == b.vehicleId
             && Undisturbed(between, a.agencyId + "-" + a.routeId + "-" + a.stopId + "-" + a.directionId + "-" + a.vehicleId, t')
    ensures var d := AsTime(departure.attr.timestamp) - AsTime(arrival.attr.timestamp);
            SentAfter(s, Call(t, Dwell(Some(arrival))), between, Call(t', Dwell(Some(departure)))) ==
              if t' <= t + 3_600_000_000_000 && 0 <= d <= 2_147_483_647 then
                [OfDwell(DwellTime(MetricAttributes(departure.attr), Some(AsTime(arrival.attr.timestamp)),
                                   Some(AsTime(departure.attr.timestamp)), d))]
              else []
  {
    var a := arrival.attr;
    JoinFive(a.agencyId, a.routeId, a.stopId, a.directionId, a.vehicleId);
    var first := Call(t, Dwell(Some(arrival)));
    EntryStays(After(s, first), between, Key(first), t');
    assert Key(first) == Key(Call(t', Dwell(Some(departure))));
  }

  /** The next departure of another vehicle within 3600 seconds of the clock, at a later second, sends the headway. */
  lemma FollowerSendsHeadway(s: States, t: int, last: StopEvent, between: seq<Call>, t': int, next: StopEvent)
    requires last.eventType == Departure && next.eventType == Departure
    requires var a, b := last.attr, next.attr;
             && a.routeId == b.routeId && a.directionId == b.directionId && a.stopId == b.stopId
             && NothingUsable(s, a.routeId + "-" + a.directionId + "-" + a.stopId, t)
             && Undisturbed(between, a.routeId + "-" + a.directionId + "-" + a.stopId, t')
    ensures var d := AsTime(next.attr.timestamp) - AsTime(last.attr.timestamp);
            SentAfter(s, Call(t, Headway(Some(last))), between, Call(t', Headway(Some(next)))) ==
              if t' <= t + 3_600_000_000_000 && last.attr.vehicleId != next.attr.vehicleId && 0 < d <= 2_147_483_647 then
                [OfHeadway(HeadwayTime(MetricAttributes(next.attr), last.attr.vehicleId, next.attr.vehicleId, d))]
              else []
  {
    var a := last.attr;
    JoinThree(a.routeId, a.directionId, a.stopId);
    var first := Call(t, Headway(Some(last)));
    EntryStays(After(s, first), between, Key(first), t');
    assert Key(first) == Key(Call(t', Headway(Some(next))));
  }

  /** The next arrival of a trip at another stop, within 3600 seconds of the clock and at a later second, sends the travel time. */
  lemma NextStopSendsTravelTime(s: States, t: int, last: StopEvent, between: seq<Call>, t': int, next: StopEvent)
    requires last.eventType == Arrival && next.eventType == Arrival
    requires var a, b := last.attr, next.attr;
             && a.routeId == b.routeId && a.directionId == b.directionId
             && a.vehicleId == b.vehicleId && a.tripId == b.tripId
             && NothingUsable(s, a.routeId + "-" + a.directionId + "-" + a.vehicleId + "-" + a.tripId, t)
             && Undisturbed(between, a.routeId + "-" + a.directionId + "-" + a.vehicleId + "-" + a.tripId, t')
    ensures var d := AsTime(next.attr.timestamp) - AsTime(last.attr.timestamp);
            SentAfter(s, Call(t, Travel(Some(last))), between, Call(t', Travel(Some(next)))) ==
              if t' <= t + 3_600_000_000_000 && last.attr.stopId != next.attr.stopId && 0 < d <= 2_147_483_647 then
                [OfTravel(TravelTime(MetricAttributes(next.attr).(stopId := "", originStopId := last.attr.stopId,
                                                                  destinationStopId := next.attr.stopId),
                                     Some(AsTime(last.attr.timestamp)), Some(AsTime(next.attr.timestamp)), d))]
              else []
  {
    var a := last.attr;
    JoinFour(a.routeId, a.directionId, a.vehicleId, a.tripId);
    var first := Call(t, Travel(Some(last)));
    EntryStays(After(s, first), between, Key(first), t');
    assert Key(first) == Key(Call(t', Travel(Some(next))));
  }
}
