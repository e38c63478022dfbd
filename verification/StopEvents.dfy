/** The stop event processor: a state machine over each vehicle's consecutive positions. */
module StopEvents {
  import opened Events
  import opened StateStore
  import opened Processing

  function MakeStopEvent(vp: Position, stopId: string, eventType: StopEventType): Event {
    if vp.attr.vehicleId == "" || stopId == "" then NilStop
    else OfStop(StopEvent(
                  NO_ATTRIBUTES.(
                    agencyId := vp.attr.agencyId,
                    routeId := vp.attr.routeId,
                    stopId := stopId,
                    directionId := vp.attr.directionId,
                    stopSequence := vp.attr.stopSequence,
                    tripId := vp.attr.tripId,
                    serviceDate := vp.attr.serviceDate,
                    timestamp := vp.attr.timestamp,
                    vehicleId := vp.attr.vehicleId,
                    stopStatus := vp.attr.stopStatus),
                  eventType))
  }

  /** Nil without a vehicle or a stop; otherwise the position's in everything but the stop, as far as positions are filled. */
  lemma StopEventCopiesPosition(vp: Position, stopId: string, eventType: StopEventType)
    ensures MakeStopEvent(vp, stopId, eventType) ==
            if vp.attr.vehicleId == "" || stopId == "" then NilStop
            else OfStop(StopEvent(
                          vp.attr.(stopId := stopId, originStopId := "", destinationStopId := "", direction := "",
                                   directionDestination := "", parentStation := ""),
                          eventType))
    ensures Bare(vp.attr) && vp.attr.vehicleId != "" && stopId != "" ==>
              MakeStopEvent(vp, stopId, eventType) == OfStop(StopEvent(vp.attr.(stopId := stopId), eventType))
  {
  }

  predicate Moving(status: StopStatus) {
    status == InTransitTo || status == IncomingAt
  }

  /** The events inferred from two consecutive positions of one vehicle. */
  function Transition(prev: Position, cur: Position): seq<Event> {
    var before, after := prev.attr.stopStatus, cur.attr.stopStatus;
    var left, reached := prev.attr.stopId, cur.attr.stopId;
    if before == after && left == reached then []
    else match after
      case StoppedAt =>
        if Moving(before) then [MakeStopEvent(cur, reached, Arrival)]
        else if before == StoppedAt then [MakeStopEvent(cur, left, Departure), MakeStopEvent(cur, reached, Arrival)]
        else []
      case InTransitTo =>
        if before == StoppedAt then [MakeStopEvent(cur, left, Departure)]
        else if Moving(before) && left != reached then
          [MakeStopEvent(cur, left, Arrival), MakeStopEvent(cur, left, Departure)]
        else []
      case _ => []
  }

  function StopDecide(seen: Option<Message>, event: Position): Decision {
    Decision(Put(PositionMsg(event)),
             match seen
             case Some(PositionMsg(previous)) => Transition(previous, event)
             case _ => [])
  }

  /** The values doStream may receive; a payload that does not unmarshal is Bytes(None). */
  datatype Incoming = Decoded(position: Position) | Bytes(payload: Option<Position>) | Foreign

  class StopEventProcessor {
    const vehiclesState: InMemoryStateStore
    var out: seq<Event>

    constructor (store: InMemoryStateStore)
      ensures vehiclesState == store && out == []
    {
      vehiclesState := store;
      out := [];
    }

    method Process(event: Position, now: int)
      modifies this`out, vehiclesState`states
      ensures event.attr.vehicleId == "" ==>
                vehiclesState.states == old(vehiclesState.states) && out == old(out)
      ensures event.attr.vehicleId != "" ==>
                var key := event.attr.vehicleId;
                var d := StopDecide(old(Lookup(vehiclesState.states, key, now)), event);
                && vehiclesState.states == Act(old(vehiclesState.states), key, now, d.action)
                && out == old(out) + d.emitted
      ensures event.attr.vehicleId != "" ==>
                vehiclesState.states ==
                old(vehiclesState.states)[event.attr.vehicleId := Entry(PositionMsg(event), now + 3_600_000_000_000)]
      ensures event.attr.vehicleId != "" ==>
                var seen := old(Lookup(vehiclesState.states, event.attr.vehicleId, now));
                if seen.None? || !seen.value.PositionMsg? then out == old(out)
                else
                  var prev, cur := seen.value.position.attr, event.attr;
                  out == old(out) +
                    if cur.stopStatus == StoppedAt && (prev.stopStatus == InTransitTo || prev.stopStatus == IncomingAt) then
                      [MakeStopEvent(event, cur.stopId, Arrival)]
                    else if cur.stopStatus == InTransitTo && prev.stopStatus == StoppedAt then
                      [MakeStopEvent(event, prev.stopId, Departure)]
                    else if prev.stopId == cur.stopId || prev.stopStatus == Unknown then []
                    else if cur.stopStatus == StoppedAt then
                      [MakeStopEvent(event, prev.stopId, Departure), MakeStopEvent(event, cur.stopId, Arrival)]
                    else if cur.stopStatus == InTransitTo then
                      [MakeStopEvent(event, prev.stopId, Arrival), MakeStopEvent(event, prev.stopId, Departure)]
                    else []
    {
      var vehicleId := event.attr.vehicleId;
      if vehicleId == "" {
        return;
      }
      var previousState, found := vehiclesState.Get(vehicleId, PositionMsg(Position(NO_ATTRIBUTES)), now);
      vehiclesState.Set(vehicleId, PositionMsg(event), HOUR, now);
      if !found || !previousState.PositionMsg? {
        return;
      }
      var prev := previousState.position.attr;
      var cur := event.attr;
      if prev.stopStatus == cur.stopStatus && prev.stopId == cur.stopId {
        return;
      }
      match cur.stopStatus {
        case StoppedAt =>
          if prev.stopStatus == InTransitTo || prev.stopStatus == IncomingAt {
            out := out + [MakeStopEvent(event, cur.stopId, Arrival)];
          } else if prev.stopStatus == StoppedAt && prev.stopId != cur.stopId {
            out := out + [MakeStopEvent(event, prev.stopId, Departure)];
            out := out + [MakeStopEvent(event, cur.stopId, Arrival)];
          }
        case InTransitTo =>
          if prev.stopStatus == StoppedAt {
            out := out + [MakeStopEvent(event, prev.stopId, Departure)];
          } else if (prev.stopStatus == InTransitTo || prev.stopStatus == IncomingAt) && prev.stopId != cur.stopId {
            out := out + [MakeStopEvent(event, prev.stopId, Arrival)];
            out := out + [MakeStopEvent(event, prev.stopId, Departure)];
          }
        case _ =>
      }
    }

    /** One round of doStream: anything that is not a position, or does not decode to one, is skipped. */
    method Receive(incoming: Incoming, now: int)
      modifies this`out, vehiclesState`states
      ensures forall position ::
                (incoming == Decoded(position) || incoming == Bytes(Some(position))) && position.attr.vehicleId != "" ==>
                  var key := position.attr.vehicleId;
                  var d := StopDecide(old(Lookup(vehiclesState.states, key, now)), position);
                  && vehiclesState.states == Act(old(vehiclesState.states), key, now, d.action)
                  && out == old(out) + d.emitted
      ensures incoming == Foreign || incoming == Bytes(None)
              || (exists position ::
                    && (incoming == Decoded(position) || incoming == Bytes(Some(position)))
                    && position.attr.vehicleId == "") ==>
                vehiclesState.states == old(vehiclesState.states) && out == old(out)
    {
      match incoming {
        case Decoded(position) => Process(position, now);
        case Bytes(Some(position)) => Process(position, now);
        case _ =>
      }
    }
  }
}
