/**
 The event records that flow between the processors, and the messages the state store holds.
 Only what the processors, the store and the database sink read or write is kept.
 */
module Events {

  datatype Option<+T> = None | Some(value: T)

  datatype StopStatus = Unknown | IncomingAt | StoppedAt | InTransitTo

  datatype StopEventType = UnknownType | Arrival | Departure

  /** Times are whole seconds since the Unix epoch; None is an absent protobuf timestamp. */
  datatype Attributes = Attributes(
    agencyId: string,
    vehicleId: string,
    routeId: string,
    stopId: string,
    originStopId: string,
    destinationStopId: string,
    directionId: string,
    direction: string,
    directionDestination: string,
    parentStation: string,
    stopSequence: int,
    stopStatus: StopStatus,
    tripId: string,
    serviceDate: string,
    timestamp: Option<int>)

  const NO_ATTRIBUTES :=
    Attributes("", "", "", "", "", "", "", "", "", "", 0, Unknown, "", "", None)

  /** Only the fields that the vehicle position processor fills in are set. */
  predicate Bare(a: Attributes) {
    a.originStopId == a.destinationStopId == a.direction == a.directionDestination == a.parentStation == ""
  }

  datatype Position = Position(attr: Attributes)

  datatype StopEvent = StopEvent(attr: Attributes, eventType: StopEventType)

  datatype DwellTime = DwellTime(attr: Attributes, arrivalTime: Option<int>, departureTime: Option<int>, seconds: int)

  datatype TravelTime = TravelTime(attr: Attributes, startTime: Option<int>, endTime: Option<int>, seconds: int)

  datatype HeadwayTime = HeadwayTime(attr: Attributes, leadingVehicleId: string, followingVehicleId: string, seconds: int)

  /** What a processor sends on its out channel. NilStop is the nil *StopEvent that makeStopEvent may return. */
  datatype Event =
    | OfPosition(position: Position)
    | OfStop(stop: StopEvent)
    | NilStop
    | OfDwell(dwell: DwellTime)
    | OfTravel(travel: TravelTime)
    | OfHeadway(headway: HeadwayTime)

  /** What the state store holds. */
  datatype Message = PositionMsg(position: Position) | StopMsg(stop: StopEvent)

  /** An absent timestamp reads as the epoch. */
  function AsTime(t: Option<int>): int {
    if t.Some? then t.value else 0
  }

  const INT32_LIMIT := 0x8000_0000

  /**
   int32(end.Sub(start).Seconds()). Go leaves the conversion of an out-of-range value to the
   implementation; this is the value that amd64 gives.
   */
  function ElapsedSeconds(start: Option<int>, end: Option<int>): int {
    var d := AsTime(end) - AsTime(start);
    if -INT32_LIMIT <= d < INT32_LIMIT then d else -INT32_LIMIT
  }

  /** Within 32 bits the seconds are end minus start, an absent timestamp being second 0. */
  lemma ElapsedIsTheDifference(start: Option<int>, end: Option<int>)
    ensures AsTime(start) == match start case None => 0 case Some(t) => t
    ensures var d := AsTime(end) - AsTime(start);
            ElapsedSeconds(start, end) == if -2_147_483_648 <= d <= 2_147_483_647 then d else -2_147_483_648
  {
  }

  /** One hour of the nanosecond clock. */
  const HOUR := 3_600_000_000_000
}
