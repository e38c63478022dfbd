/** The dwell processor: pairs a vehicle's departure from a stop with its stored arrival there. */
module DwellEvents {
  import opened Events
  import opened Keys
  import opened StateStore
  import opened Processing

  function DwellFields(e: StopEvent): seq<string> {
    [e.attr.agencyId, e.attr.routeId, e.attr.stopId, e.attr.directionId, e.attr.vehicleId]
  }

  /** Events with hyphen-free ids share a key exactly if they are of one agency, route, stop, direction and vehicle. */
  lemma DwellKeysTell(e: StopEvent, f: StopEvent)
    requires HyphenFree(e.attr.agencyId) && HyphenFree(e.attr.routeId) && HyphenFree(e.attr.stopId)
    requires HyphenFree(e.attr.directionId) && HyphenFree(e.attr.vehicleId)
    requires HyphenFree(f.attr.agencyId) && HyphenFree(f.attr.routeId) && HyphenFree(f.attr.stopId)
    requires HyphenFree(f.attr.directionId) && HyphenFree(f.attr.vehicleId)
    ensures Join(DwellFields(e)) == Join(DwellFields(f)) <==>
            && e.attr.agencyId == f.attr.agencyId && e.attr.routeId == f.attr.routeId && e.attr.stopId == f.attr.stopId
            && e.attr.directionId == f.attr.directionId && e.attr.vehicleId == f.attr.vehicleId
  {
    if Join(DwellFields(e)) == Join(DwellFields(f)) {
      JoinIsInjective(DwellFields(e), DwellFields(f));
      assert DwellFields(e)[0] == DwellFields(f)[0] && DwellFields(e)[1] == DwellFields(f)[1]
             && DwellFields(e)[2] == DwellFields(f)[2] && DwellFields(e)[3] == DwellFields(f)[3]
             && DwellFields(e)[4] == DwellFields(f)[4];
    }
  }

  function MakeDwell(arrival: StopEvent, departure: StopEvent): DwellTime {
    DwellTime(
      NO_ATTRIBUTES.(
        agencyId := departure.attr.agencyId,
        routeId := departure.attr.routeId,
        stopId := departure.attr.stopId,
        directionId := departure.attr.directionId,
        vehicleId := departure.attr.vehicleId,
        timestamp := departure.attr.timestamp,
        tripId := departure.attr.tripId,
        serviceDate := departure.attr.serviceDate,
        stopSequence := departure.attr.stopSequence),
      Some(AsTime(arrival.attr.timestamp)),
      Some(AsTime(departure.attr.timestamp)),
      ElapsedSeconds(arrival.attr.timestamp, departure.attr.timestamp))
  }

  /** A dwell event is the departure's in everything but the status, and spans arrival to departure. */
  lemma DwellSpansTheStay(arrival: StopEvent, departure: StopEvent)
    requires Bare(departure.attr)
    ensures var dwell := MakeDwell(arrival, departure);
            && dwell.attr == departure.attr.(stopStatus := Unknown)
            && dwell.seconds == ElapsedSeconds(arrival.attr.timestamp, departure.attr.timestamp)
            && dwell.arrivalTime == Some(AsTime(arrival.attr.timestamp))
            && (dwell.seconds >= 0 ==> dwell.departureTime == Some(dwell.arrivalTime.value + dwell.seconds))
  {
  }

  function DwellDecide(seen: Option<Message>, event: StopEvent): Decision {
    if seen.Some? && event.eventType == Departure then
      match seen.value
      case PositionMsg(_) => Decision(Erase, [])
      case StopMsg(arrival) =>
        var dwell := MakeDwell(arrival, event);
        Decision(Erase, if dwell.seconds < 0 then [] else [OfDwell(dwell)])
    else if event.eventType == Arrival then Decision(Put(StopMsg(event)), [])
    else Decision(Keep, [])
  }

  class DwellEventProcessor {
    const stateStore: InMemoryStateStore
    var out: seq<Event>

    constructor (store: InMemoryStateStore)
      ensures stateStore == store && out == []
    {
      stateStore := store;
      out := [];
    }

    method Process(event: Option<StopEvent>, now: int)
      modifies this`out, stateStore`states
      ensures event.None? ==> stateStore.states == old(stateStore.states) && out == old(out)
      ensures event.Some? ==>
                var key := Join(DwellFields(event.value));
                var d := DwellDecide(old(Lookup(stateStore.states, key, now)), event.value);
                && stateStore.states == Act(old(stateStore.states), key, now, d.action)
                && out == old(out) + d.emitted
      ensures event.Some? ==>
                var a, s := event.value.attr, old(stateStore.states);
                var key := a.agencyId + "-" + a.routeId + "-" + a.stopId + "-" + a.directionId + "-" + a.vehicleId;
                match event.value.eventType
                case Arrival =>
                  stateStore.states == s[key := Entry(StopMsg(event.value), now + 3_600_000_000_000)] && out == old(out)
                case Departure =>
                  if key !in s || s[key].expiration < now then stateStore.states == s && out == old(out)
                  else
                    && stateStore.states == s - {key}
                    && (match s[key].msg
                       case PositionMsg(_) => out == old(out)
                       case StopMsg(arrival) =>
                         var t, t' := AsTime(arrival.attr.timestamp), AsTime(a.timestamp);
                         out == old(out) +
                           if 0 <= t' - t <= 2_147_483_647 then
                             [OfDwell(DwellTime(a.(stopStatus := Unknown, originStopId := "", destinationStopId := "",
                                                   direction := "", directionDestination := "", parentStation := ""),
                                                Some(t), Some(t'), t' - t))]
                           else [])
                case UnknownType => stateStore.states == s && out == old(out)
    {
      if event.None? {
        return;
      }
      var e := event.value;
      var key := Join(DwellFields(e));
      JoinFive(e.attr.agencyId, e.attr.routeId, e.attr.stopId, e.attr.directionId, e.attr.vehicleId);
      var currentState, found := stateStore.Get(key, StopMsg(StopEvent(NO_ATTRIBUTES, UnknownType)), now);
      if found && e.eventType == Departure {
        if !currentState.StopMsg? {
          stateStore.Delete(key);
          return;
        }
        var arrival := currentState.stop;
        var dwellSeconds := ElapsedSeconds(arrival.attr.timestamp, e.attr.timestamp);
        if dwellSeconds < 0 {
          stateStore.Delete(key);
          return;
        }
        stateStore.Delete(key);
        out := out + [OfDwell(MakeDwell(arrival, e))];
      } else if e.eventType == Arrival {
        stateStore.Set(key, StopMsg(e), HOUR, now);
      }
    }
  }
}
