/** Feeds that list one vehicle, and what its sightings send: the makings of example runs. */
module OneVehicle {
  import opened Events
  import Decimal
  import opened StopLaws
  import opened VisitLaws
  import opened DwellLaws
  import opened VehiclePositions
  import opened DwellPipeline

  const SECOND := 1_000_000_000

  /** What the feed says at second k of the only vehicle, which is v. */
  function Vehicle(v: string, stopId: string, status: int, k: uint64): FeedVehicle {
    FeedVehicle(status, stopId, v, "", "", "", 0, 0, k)
  }

  function FeedOf(v: FeedVehicle): seq<Entity> {
    [Entity(Some(v))]
  }

  function Seen(v: string, stopId: string, status: int, k: uint64): Sighting {
    Sighting(PositionOf("", Vehicle(v, stopId, status, k)), k * SECOND)
  }

  lemma SeenInFeed(v: string, stopId: string, status: int, k: uint64)
    requires stopId != ""
    ensures Seen(v, stopId, status, k).position in Positions("", FeedOf(Vehicle(v, stopId, status, k)))
  {
    var vehicle := Vehicle(v, stopId, status, k);
    assert Located(FeedOf(vehicle)) == [vehicle] by {
      assert FeedOf(vehicle)[..0] == [];
    }
    assert Positions("", FeedOf(vehicle))[0] == PositionOf("", vehicle);
  }

  /** The sightings end with last and have sent es. */
  predicate Reaches(ss: seq<Sighting>, last: Sighting, es: seq<TimedStop>) {
    ss != [] && Last(ss) == last && Watched(ss) == es
  }

  lemma WatchStep(ss: seq<Sighting>, last: Sighting, es: seq<TimedStop>, s: Sighting, sent: seq<TimedStop>)
    requires Reaches(ss, last, es) && Sent(last, s) == sent
    ensures Reaches(ss + [s], s, es + sent)
  {
    WatchNext(ss, s);
  }

  /** A sighting of v, of the one service there is. */
  predicate InService(x: Sighting, v: string) {
    var a := x.position.attr;
    a.vehicleId == v && a.agencyId == "" && a.routeId == "" && a.directionId == Decimal.Format(0)
  }

  lemma {:induction false} AllAmong(xs: seq<Sighting>, v: string)
    requires forall x :: x in xs ==> InService(x, v)
    ensures SightingsAmong(xs, v) == xs
  {
    if xs != [] {
      var before, x := xs[..|xs| - 1], xs[|xs| - 1];
      assert xs == before + [x] && InService(x, v);
      AllAmong(before, v);
    }
  }

  lemma InOneService(xs: seq<Sighting>, v: string)
    requires forall x :: x in xs ==> InService(x, v)
    ensures OneService(xs)
  {
  }
}
