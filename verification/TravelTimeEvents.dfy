/** The travel time processor: chains a trip's arrivals at successive stops. */
module TravelTimeEvents {
  import opened Events
  import opened Keys
  import opened StateStore
  import opened Processing

  function TripFields(e: StopEvent): seq<string> {
    [e.attr.routeId, e.attr.directionId, e.attr.vehicleId, e.attr.tripId]
  }

  /** Arrivals with hyphen-free ids share a key exactly if they are of one route, direction, vehicle and trip. */
  lemma TripKeysTell(e: StopEvent, f: StopEvent)
    requires HyphenFree(e.attr.routeId) && HyphenFree(e.attr.directionId)
    requires HyphenFree(e.attr.vehicleId) && HyphenFree(e.attr.tripId)
    requires HyphenFree(f.attr.routeId) && HyphenFree(f.attr.directionId)
    requires HyphenFree(f.attr.vehicleId) && HyphenFree(f.attr.tripId)
    ensures Join(TripFields(e)) == Join(TripFields(f)) <==>
            && e.attr.routeId == f.attr.routeId && e.attr.directionId == f.attr.directionId
            && e.attr.vehicleId == f.attr.vehicleId && e.attr.tripId == f.attr.tripId
  {
    if Join(TripFields(e)) == Join(TripFields(f)) {
      JoinIsInjective(TripFields(e), TripFields(f));
      assert TripFields(e)[0] == TripFields(f)[0] && TripFields(e)[1] == TripFields(f)[1]
             && TripFields(e)[2] == TripFields(f)[2] && TripFields(e)[3] == TripFields(f)[3];
    }
  }

  function MakeTravel(prev: StopEvent, event: StopEvent): TravelTime {
    TravelTime(
      NO_ATTRIBUTES.(
        agencyId := event.attr.agencyId,
        routeId := event.attr.routeId,
        tripId := event.attr.tripId,
        directionId := event.attr.directionId,
        vehicleId := event.attr.vehicleId,
        serviceDate := event.attr.serviceDate,
        originStopId := prev.attr.stopId,
        destinationStopId := event.attr.stopId,
        timestamp := event.attr.timestamp,
        stopSequence := event.attr.stopSequence),
      Some(AsTime(prev.attr.timestamp)),
      Some(AsTime(event.attr.timestamp)),
      ElapsedSeconds(prev.attr.timestamp, event.attr.timestamp))
  }

  /** A travel time leads from the stop and time of one arrival to those of the next, and is otherwise the next one's. */
  lemma TravelSpansTheHop(prev: StopEvent, event: StopEvent)
    requires Bare(event.attr)
    ensures var travel := MakeTravel(prev, event);
            && travel.attr == event.attr.(stopStatus := Unknown, stopId := "", originStopId := prev.attr.stopId,
                                          destinationStopId := event.attr.stopId)
            && travel.startTime == Some(AsTime(prev.attr.timestamp))
            && (travel.seconds > 0 ==> travel.endTime == Some(travel.startTime.value + travel.seconds))
  {
  }

  function TravelDecide(seen: Option<Message>, event: StopEvent): Decision {
    match seen
    case Some(StopMsg(prev)) =>
      if prev.attr.stopId == event.attr.stopId then Decision(Keep, [])
      else
        var travel := MakeTravel(prev, event);
        Decision(Put(StopMsg(event)), if travel.seconds <= 0 then [] else [OfTravel(travel)])
    case _ => Decision(Put(StopMsg(event)), [])
  }

  class TravelTimeEventProcessor {
    const tripStates: InMemoryStateStore
    var out: seq<Event>

    constructor (store: InMemoryStateStore)
      ensures tripStates == store && out == []
    {
      tripStates := store;
      out := [];
    }

    method Process(event: Option<StopEvent>, now: int)
      modifies this`out, tripStates`states
      ensures event.None? || event.value.eventType != Arrival ==>
                tripStates.states == old(tripStates.states) && out == old(out)
      ensures event.Some? && event.value.eventType == Arrival ==>
                var key := Join(TripFields(event.value));
                var d := TravelDecide(old(Lookup(tripStates.states, key, now)), event.value);
                && tripStates.states == Act(old(tripStates.states), key, now, d.action)
                && out == old(out) + d.emitted
      ensures event.Some? && event.value.eventType == Arrival ==>
                var a, s := event.value.attr, old(tripStates.states);
                var key := a.routeId + "-" + a.directionId + "-" + a.vehicleId + "-" + a.tripId;
                var stored := s[key := Entry(StopMsg(event.value), now + 3_600_000_000_000)];
                if key !in s || s[key].expiration < now || !s[key].msg.StopMsg? then
                  tripStates.states == stored && out == old(out)
                else
                  var prev := s[key].msg.stop.attr;
                  var t, t' := AsTime(prev.timestamp), AsTime(a.timestamp);
                  if prev.stopId == a.stopId then tripStates.states == s && out == old(out)
                  else
                    && tripStates.states == stored
                    && out == old(out) +
                         if 0 < t' - t <= 2_147_483_647 then
                           [OfTravel(TravelTime(a.(stopStatus := Unknown, stopId := "", originStopId := prev.stopId,
                                                   destinationStopId := a.stopId, direction := "",
                                                   directionDestination := "", parentStation := ""),
                                                Some(t), Some(t'), t' - t))]
                         else []
    {
      if event.None? || event.value.eventType != Arrival {
        return;
      }
      var e := event.value;
      var key := Join(TripFields(e));
      JoinFour(e.attr.routeId, e.attr.directionId, e.attr.vehicleId, e.attr.tripId);
      var previousArrival, found := tripStates.Get(key, StopMsg(StopEvent(NO_ATTRIBUTES, UnknownType)), now);
      if found {
        if !previousArrival.StopMsg? {
          tripStates.Set(key, StopMsg(e), HOUR, now);
          return;
        }
        var prev := previousArrival.stop;
        if prev.attr.stopId != e.attr.stopId {
          var travelSeconds := ElapsedSeconds(prev.attr.timestamp, e.attr.timestamp);
          if travelSeconds <= 0 {
            tripStates.Set(key, StopMsg(e), HOUR, now);
            return;
          }
          out := out + [OfTravel(MakeTravel(prev, e))];
          tripStates.Set(key, StopMsg(e), HOUR, now);
        }
      } else {
        tripStates.Set(key, StopMsg(e), HOUR, now);
      }
    }
  }
}
