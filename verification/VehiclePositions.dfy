/** The vehicle position processor: one position for each vehicle of a feed that names a stop. */
module VehiclePositions {
  import opened Events
  import opened Keys
  import Decimal
  import opened StateStore
  import opened Engine
  import opened VisitLaws

  /** The numbers of VehicleStopStatus in the GTFS Realtime Reference. */
  const GTFS_INCOMING_AT := 0
  const GTFS_STOPPED_AT := 1
  const GTFS_IN_TRANSIT_TO := 2

  type uint32 = n: nat | n < 0x1_0000_0000
  type uint64 = n: nat | n < 0x1_0000_0000_0000_0000

  /** What the protobuf getters return for a vehicle. */
  datatype FeedVehicle = FeedVehicle(
    currentStatus: int,
    stopId: string,
    vehicleId: string,
    tripId: string,
    routeId: string,
    startDate: string,
    directionId: uint32,
    stopSequence: uint32,
    timestamp: uint64)

  datatype Entity = Entity(vehicle: Option<FeedVehicle>)

  function ToInt32(n: uint32): int {
    if n < 0x8000_0000 then n else n - 0x1_0000_0000
  }

  function ToInt64(n: uint64): int {
    if n < 0x8000_0000_0000_0000 then n else n - 0x1_0000_0000_0000_0000
  }

  function StatusOf(number: int): StopStatus {
    if number == GTFS_IN_TRANSIT_TO then InTransitTo
    else if number == GTFS_STOPPED_AT then StoppedAt
    else if number == GTFS_INCOMING_AT then IncomingAt
    else Unknown
  }

  /** The vehicle's own id, or that of its trip. */
  function ResolvedId(v: FeedVehicle): string {
    if v.vehicleId == "" then v.tripId else v.vehicleId
  }

  function PositionOf(agencyId: string, v: FeedVehicle): Position {
    Position(NO_ATTRIBUTES.(
               agencyId := agencyId,
               vehicleId := ResolvedId(v),
               routeId := v.routeId,
               stopId := v.stopId,
               tripId := v.tripId,
               serviceDate := v.startDate,
               directionId := Decimal.Format(v.directionId),
               stopSequence := ToInt32(v.stopSequence),
               stopStatus := StatusOf(v.currentStatus),
               timestamp := Some(ToInt64(v.timestamp))))
  }

  /** The vehicles of a feed that name a stop. */
  function Located(feed: seq<Entity>): seq<FeedVehicle> {
    if feed == [] then []
    else
      var entity := feed[|feed| - 1];
      Located(feed[..|feed| - 1]) +
      if entity.vehicle.Some? && entity.vehicle.value.stopId != "" then [entity.vehicle.value] else []
  }

  function Positions(agencyId: string, feed: seq<Entity>): (ps: seq<Position>)
    ensures |ps| == |Located(feed)|
  {
    var vs := Located(feed);
    seq(|vs|, i requires 0 <= i < |vs| => PositionOf(agencyId, vs[i]))
  }

  class VehiclePositionEventProcessor {
    var out: seq<Position>

    constructor ()
      ensures out == []
    {
      out := [];
    }

    /** One feed message; None is a feed message event without a message. */
    method Process(agencyId: string, feedMessage: Option<seq<Entity>>)
      modifies this
      ensures out == old(out) + if feedMessage.Some? then Positions(agencyId, feedMessage.value) else []
    {
      if feedMessage.None? {
        return;
      }
      var feed := feedMessage.value;
      for i := 0 to |feed|
        invariant out == old(out) + Positions(agencyId, feed[..i])
      {
        assert feed[..i + 1][..i] == feed[..i];
        if feed[i].vehicle.None? {
          continue;
        }
        var vehicle := feed[i].vehicle.value;
        var status := Unknown;
        if vehicle.currentStatus == GTFS_IN_TRANSIT_TO {
          status := InTransitTo;
        } else if vehicle.currentStatus == GTFS_STOPPED_AT {
          status := StoppedAt;
        } else if vehicle.currentStatus == GTFS_INCOMING_AT {
          status := IncomingAt;
        }
        if vehicle.stopId == "" {
          continue;
        }
        var vehicleId := vehicle.vehicleId;
        if vehicleId == "" {
          vehicleId := vehicle.tripId;
        }
        out := out + [Position(NO_ATTRIBUTES.(
                                 agencyId := agencyId,
                                 vehicleId := vehicleId,
                                 routeId := vehicle.routeId,
                                 stopId := vehicle.stopId,
                                 tripId := vehicle.tripId,
                                 serviceDate := vehicle.startDate,
                                 directionId := Decimal.Format(vehicle.directionId),
                                 stopSequence := ToInt32(vehicle.stopSequence),
                                 stopStatus := status,
                                 timestamp := Some(ToInt64(vehicle.timestamp))))];
      }
      assert feed[..|feed|] == feed;
    }
  }

  /** The position that a vehicle gives, field by field. */
  lemma PositionCopiesVehicle(agencyId: string, v: FeedVehicle)
    ensures var a := PositionOf(agencyId, v).attr;
            && a.agencyId == agencyId && a.stopId == v.stopId && a.routeId == v.routeId
            && a.tripId == v.tripId && a.serviceDate == v.startDate
            && a.vehicleId == (if v.vehicleId != "" then v.vehicleId else v.tripId)
            && (forall c :: c in a.directionId ==> '0' <= c <= '9')
            && Decimal.Parse(a.directionId) == v.directionId
            && (a.directionId == "0" || (a.directionId != "" && a.directionId[0] != '0'))
            && -2_147_483_648 <= a.stopSequence <= 2_147_483_647 && (v.stopSequence - a.stopSequence) % 4_294_967_296 == 0
            && a.timestamp.Some?
            && -9_223_372_036_854_775_808 <= a.timestamp.value <= 9_223_372_036_854_775_807
            && (v.timestamp - a.timestamp.value) % 18_446_744_073_709_551_616 == 0
            && a.stopStatus == (if v.currentStatus == 0 then IncomingAt
                                else if v.currentStatus == 1 then StoppedAt
                                else if v.currentStatus == 2 then InTransitTo
                                else Unknown)
            && a.originStopId == a.destinationStopId == a.direction == a.directionDestination == a.parentStation == ""
  {
    Decimal.ParseUndoesFormat(v.directionId);
    Decimal.NoLeadingZero(v.directionId);
  }

  /** Each entity adds one position or none to those of the entities before it, and none is taken away later. */
  lemma {:induction false} EntityGivesItsPosition(agencyId: string, feed: seq<Entity>, i: nat)
    requires i < |feed|
    ensures Positions(agencyId, []) == []
    ensures match feed[i].vehicle
            case None => Positions(agencyId, feed[..i + 1]) == Positions(agencyId, feed[..i])
            case Some(v) =>
              Positions(agencyId, feed[..i + 1]) ==
              Positions(agencyId, feed[..i]) + if v.stopId == "" then [] else [PositionOf(agencyId, v)]
    ensures Positions(agencyId, feed[..i + 1]) <= Positions(agencyId, feed)
  {
    assert feed[..i + 1][..i] == feed[..i];
    if i + 1 < |feed| {
      var n := |feed| - 1;
      EntityGivesItsPosition(agencyId, feed[..n], i);
      assert feed[..n][..i + 1] == feed[..i + 1] && feed[..n][..i] == feed[..i];
      assert Positions(agencyId, feed[..n]) <= Positions(agencyId, feed);
    } else {
      assert feed[..i + 1] == feed;
    }
  }

  lemma {:induction false} LocatedAreTheNamedStops(feed: seq<Entity>, v: FeedVehicle)
    ensures v in Located(feed) <==> Entity(Some(v)) in feed && v.stopId != ""
  {
    if feed != [] {
      var before, last := feed[..|feed| - 1], feed[|feed| - 1];
      assert feed == before + [last];
      LocatedAreTheNamedStops(before, v);
    }
  }

  /** A position comes from a vehicle with a stop id; its status is UNKNOWN only for an undeclared number. */
  lemma PositionsAreNamed(agencyId: string, feed: seq<Entity>, p: Position)
    requires p in Positions(agencyId, feed)
    ensures p.attr.stopId != "" && p.attr.agencyId == agencyId && HyphenFree(p.attr.directionId) && Bare(p.attr)
    ensures exists v :: Entity(Some(v)) in feed && p == PositionOf(agencyId, v)
    ensures (forall v :: Entity(Some(v)) in feed ==> 0 <= v.currentStatus <= 2) ==> p.attr.stopStatus != Unknown
  {
    var i :| 0 <= i < |Positions(agencyId, feed)| && Positions(agencyId, feed)[i] == p;
    var v := Located(feed)[i];
    LocatedAreTheNamedStops(feed, v);
    assert p == PositionOf(agencyId, v);
  }

  // ---- Feed to positions to stop events ----

  /** Every position observed in the run came out of some feed. */
  ghost predicate FromFeeds(calls: seq<Call>) {
    forall c :: c in calls && c.task.Observe? ==>
      exists agencyId, feed :: c.task.position in Positions(agencyId, feed)
  }

  /** On every run fed by feeds, each event made on a position is a stop event with vehicle and stop id, never nil. */
  lemma NoNilFromFeeds(calls: seq<Call>, step: Step, e: Event)
    requires FromFeeds(calls)
    requires step in Trace(map[], calls) && step.call.task.Observe? && e in step.emitted
    ensures Proper(e, step.call.task.position)
  {
    forall c | c in calls && c.task.Observe? ensures c.task.position.attr.stopId != "" {
      var agencyId, feed :| c.task.position in Positions(agencyId, feed);
      PositionsAreNamed(agencyId, feed, c.task.position);
    }
    NoNilStopEvents(calls);
  }

  // ---- Polling the same feed twice ----

  /** Each resolved vehicle id is listed at most once. */
  predicate ListedOnce(ps: seq<Position>) {
    forall i, j :: 0 <= i < j < |ps| && ps[i].attr.vehicleId != "" ==> ps[i].attr.vehicleId != ps[j].attr.vehicleId
  }

  /** The positions of one poll, each observed at some clock reading. */
  function Poll(ps: seq<Position>, clock: seq<int>): seq<Call>
    requires |clock| == |ps|
  {
    seq(|ps|, i requires 0 <= i < |ps| => Call(clock[i], Observe(ps[i])))
  }

  /** The store holds each of the positions as its vehicle's latest. */
  ghost predicate Settled(s: States, ps: seq<Position>) {
    forall p :: p in ps && p.attr.vehicleId != "" ==>
      p.attr.vehicleId in s && s[p.attr.vehicleId].msg == PositionMsg(p)
  }

  lemma SettlesNext(s: States, ps: seq<Position>, c: Call)
    requires Settled(s, ps) && c.task.Observe?
    requires forall p :: p in ps && p.attr.vehicleId != "" ==> p.attr.vehicleId != c.task.position.attr.vehicleId
    ensures Settled(After(s, c), ps + [c.task.position])
  {
  }

  lemma {:induction false} PollSettles(s: States, ps: seq<Position>, clock: seq<int>)
    requires |clock| == |ps| && ListedOnce(ps)
    ensures Settled(Final(s, Poll(ps, clock)), ps)
  {
    if ps != [] {
      var n := |ps| - 1;
      var before, calls, c := ps[..n], Poll(ps[..n], clock[..n]), Call(clock[n], Observe(ps[n]));
      assert ps == before + [ps[n]] && Poll(ps, clock) == calls + [c];
      PollSettles(s, before, clock[..n]);
      ServeNext(s, calls, c);
      forall p | p in before && p.attr.vehicleId != "" ensures p.attr.vehicleId != ps[n].attr.vehicleId {
        var i :| 0 <= i < n && ps[i] == p;
      }
      SettlesNext(Final(s, calls), before, c);
    }
  }

  lemma {:induction false} SettledPollSendsNothing(s: States, all: seq<Position>, ps: seq<Position>, clock: seq<int>)
    requires |clock| == |ps| && Settled(s, all) && forall p :: p in ps ==> p in all
    requires ListedOnce(all)
    ensures Settled(Final(s, Poll(ps, clock)), all)
    ensures Emitted(Trace(s, Poll(ps, clock))) == []
  {
    if ps != [] {
      var n := |ps| - 1;
      var c := Call(clock[n], Observe(ps[n]));
      assert Poll(ps, clock) == Poll(ps[..n], clock[..n]) + [c];
      SettledPollSendsNothing(s, all, ps[..n], clock[..n]);
      EmittedServed(s, Poll(ps[..n], clock[..n]), c);
      SettledStays(Final(s, Poll(ps[..n], clock[..n])), all, c);
    }
  }

  lemma SettledStays(s: States, all: seq<Position>, c: Call)
    requires Settled(s, all) && ListedOnce(all)
    requires c.task.Observe? && c.task.position in all
    ensures Settled(After(s, c), all) && Serve(s, c).emitted == []
  {
    forall p | p in all && p.attr.vehicleId == c.task.position.attr.vehicleId != "" ensures p == c.task.position {
      var i, j :| 0 <= i < |all| && all[i] == p && 0 <= j < |all| && all[j] == c.task.position;
    }
  }

  /** Polling an unchanged feed again sends no stop event, whatever the store held and whatever the clock says. */
  lemma SecondPollSendsNothing(s: States, agencyId: string, feed: seq<Entity>, clock: seq<int>, clock': seq<int>)
    requires ListedOnce(Positions(agencyId, feed))
    requires |clock| == |clock'| == |Positions(agencyId, feed)|
    ensures var ps := Positions(agencyId, feed);
            Emitted(Trace(Final(s, Poll(ps, clock)), Poll(ps, clock'))) == []
  {
    var ps := Positions(agencyId, feed);
    PollSettles(s, ps, clock);
    SettledPollSendsNothing(Final(s, Poll(ps, clock)), ps, ps, clock');
  }
}
