/** The headway processor: chains departures of different vehicles from one directional stop. */
module HeadwayEvents {
  import opened Events
  import opened Keys
  import opened StateStore
  import opened Processing

  function HeadwayFields(e: StopEvent): seq<string> {
    [e.attr.routeId, e.attr.directionId, e.attr.stopId]
  }

  /** Departures with hyphen-free ids share a key exactly if they are of one route, direction and stop. */
  lemma HeadwayKeysTell(e: StopEvent, f: StopEvent)
    requires HyphenFree(e.attr.routeId) && HyphenFree(e.attr.directionId) && HyphenFree(e.attr.stopId)
    requires HyphenFree(f.attr.routeId) && HyphenFree(f.attr.directionId) && HyphenFree(f.attr.stopId)
    ensures Join(HeadwayFields(e)) == Join(HeadwayFields(f)) <==>
            e.attr.routeId == f.attr.routeId && e.attr.directionId == f.attr.directionId && e.attr.stopId == f.attr.stopId
  {
    if Join(HeadwayFields(e)) == Join(HeadwayFields(f)) {
      JoinIsInjective(HeadwayFields(e), HeadwayFields(f));
      assert HeadwayFields(e)[0] == HeadwayFields(f)[0] && HeadwayFields(e)[1] == HeadwayFields(f)[1]
             && HeadwayFields(e)[2] == HeadwayFields(f)[2];
    }
  }

  function MakeHeadway(last: StopEvent, event: StopEvent): HeadwayTime {
    HeadwayTime(
      NO_ATTRIBUTES.(
        agencyId := event.attr.agencyId,
        routeId := event.attr.routeId,
        stopId := event.attr.stopId,
        directionId := event.attr.directionId,
        serviceDate := event.attr.serviceDate,
        timestamp := event.attr.timestamp,
        vehicleId := event.attr.vehicleId,
        tripId := event.attr.tripId,
        stopSequence := event.attr.stopSequence),
      last.attr.vehicleId,
      event.attr.vehicleId,
      ElapsedSeconds(last.attr.timestamp, event.attr.timestamp))
  }

  /** A headway event is the following departure's in everything but the status. */
  lemma HeadwayCopiesDeparture(last: StopEvent, event: StopEvent)
    requires Bare(event.attr)
    ensures MakeHeadway(last, event).attr == event.attr.(stopStatus := Unknown)
  {
  }

  /** The event may follow the last stored departure: another vehicle, a strictly later second. */
  predicate Follows(last: StopEvent, event: StopEvent) {
    && last.attr.vehicleId != event.attr.vehicleId
    && ElapsedSeconds(last.attr.timestamp, event.attr.timestamp) > 0
  }

  function HeadwayDecide(seen: Option<Message>, event: StopEvent): Decision {
    match seen
    case Some(StopMsg(last)) =>
      if Follows(last, event) then Decision(Put(StopMsg(event)), [OfHeadway(MakeHeadway(last, event))])
      else Decision(Keep, [])
    case _ => Decision(Put(StopMsg(event)), [])
  }

  class HeadwayEventProcessor {
    const headwayStates: InMemoryStateStore
    var out: seq<Event>

    constructor (store: InMemoryStateStore)
      ensures headwayStates == store && out == []
    {
      headwayStates := store;
      out := [];
    }

    method Process(event: Option<StopEvent>, now: int)
      modifies this`out, headwayStates`states
      ensures event.None? || event.value.eventType != Departure ==>
                headwayStates.states == old(headwayStates.states) && out == old(out)
      ensures event.Some? && event.value.eventType == Departure ==>
                var key := Join(HeadwayFields(event.value));
                var d := HeadwayDecide(old(Lookup(headwayStates.states, key, now)), event.value);
                && headwayStates.states == Act(old(headwayStates.states), key, now, d.action)
                && out == old(out) + d.emitted
      ensures event.Some? && event.value.eventType == Departure ==>
                var a, s := event.value.attr, old(headwayStates.states);
                var key := a.routeId + "-" + a.directionId + "-" + a.stopId;
                var stored := s[key := Entry(StopMsg(event.value), now + 3_600_000_000_000)];
                if key !in s || s[key].expiration < now || !s[key].msg.StopMsg? then
                  headwayStates.states == stored && out == old(out)
                else
                  var last := s[key].msg.stop.attr;
                  var d := AsTime(a.timestamp) - AsTime(last.timestamp);
                  if last.vehicleId != a.vehicleId && 0 < d <= 2_147_483_647 then
                    && headwayStates.states == stored
                    && out == old(out) +
                         [OfHeadway(HeadwayTime(a.(stopStatus := Unknown, originStopId := "", destinationStopId := "",
                                                   direction := "", directionDestination := "", parentStation := ""),
                                                last.vehicleId, a.vehicleId, d))]
                  else headwayStates.states == s && out == old(out)
    {
      if event.None? || event.value.eventType != Departure {
        return;
      }
      var e := event.value;
      var key := Join(HeadwayFields(e));
      JoinThree(e.attr.routeId, e.attr.directionId, e.attr.stopId);
      var state, found := headwayStates.Get(key, StopMsg(StopEvent(NO_ATTRIBUTES, UnknownType)), now);
      if !state.StopMsg? {
        headwayStates.Set(key, StopMsg(e), HOUR, now);
        return;
      }
      if !found {
        headwayStates.Set(key, StopMsg(e), HOUR, now);
        return;
      }
      var last := state.stop;
      if last.attr.vehicleId == e.attr.vehicleId {
        return;
      }
      var headwaySeconds := ElapsedSeconds(last.attr.timestamp, e.attr.timestamp);
      if headwaySeconds <= 0 {
        return;
      }
      headwayStates.Set(key, StopMsg(e), HOUR, now);
      out := out + [OfHeadway(MakeHeadway(last, e))];
    }
  }
}
