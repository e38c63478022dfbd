/** What a late repeat does: a run out of feeds that sends a travel time from an arrival that collapsing would drop. */
module LateRepeats {
  import opened Events
  import opened Keys
  import Decimal
  import opened TravelTimeEvents
  import opened Engine
  import opened StopLaws
  import opened VisitLaws
  import DwellLaws
  import opened ChainLaws
  import opened VehiclePositions
  import opened DwellPipeline
  import opened ChainPipeline
  import opened OneVehicle

  function LateFeeds(v: string, s: string, t: string): seq<seq<Entity>> {
    [FeedOf(Vehicle(v, s, GTFS_IN_TRANSIT_TO, 0)), FeedOf(Vehicle(v, s, GTFS_STOPPED_AT, 1)),
     FeedOf(Vehicle(v, s, GTFS_INCOMING_AT, 2)), FeedOf(Vehicle(v, s, GTFS_INCOMING_AT, 3000)),
     FeedOf(Vehicle(v, s, GTFS_STOPPED_AT, 3602)), FeedOf(Vehicle(v, t, GTFS_STOPPED_AT, 3700))]
  }

  /** The vehicle stands at s, is approaching s for the next hour, stands at s again, and then at t. */
  function LateRun(v: string, s: string, t: string): seq<Sighting> {
    [Seen(v, s, GTFS_IN_TRANSIT_TO, 0), Seen(v, s, GTFS_STOPPED_AT, 1),
     Seen(v, s, GTFS_INCOMING_AT, 2), Seen(v, s, GTFS_INCOMING_AT, 3000),
     Seen(v, s, GTFS_STOPPED_AT, 3602), Seen(v, t, GTFS_STOPPED_AT, 3700)]
  }

  /** Two arrivals at s, a departure from s and an arrival at t. */
  function LateEvents(v: string, s: string, t: string): seq<TimedStop>
    requires v != "" && s != "" && t != ""
  {
    [Announced(Seen(v, s, GTFS_STOPPED_AT, 1), s, Arrival), Announced(Seen(v, s, GTFS_STOPPED_AT, 3602), s, Arrival),
     Announced(Seen(v, t, GTFS_STOPPED_AT, 3700), s, Departure), Announced(Seen(v, t, GTFS_STOPPED_AT, 3700), t, Arrival)]
  }

  /** The vehicle's only trip. */
  function TripOf(v: string): seq<string> {
    ["", Decimal.Format(0), v, ""]
  }

  lemma LateRunStart(v: string, s: string, t: string)
    requires v != "" && s != "" && t != "" && s != t
    ensures Reaches(LateRun(v, s, t)[..4], LateRun(v, s, t)[3], LateEvents(v, s, t)[..1])
  {
    var xs, es := LateRun(v, s, t), LateEvents(v, s, t);
    assert xs[..4] == [xs[0]] + [xs[1]] + [xs[2]] + [xs[3]];
    assert [] + [es[0]] == es[..1] && es[..1] + [] == es[..1];
    SentTable(xs[0], xs[1], v);
    SentTable(xs[1], xs[2], v);
    SentTable(xs[2], xs[3], v);
    WatchStep([xs[0]], xs[0], [], xs[1], [es[0]]);
    WatchStep([xs[0]] + [xs[1]], xs[1], es[..1], xs[2], []);
    WatchStep([xs[0]] + [xs[1]] + [xs[2]], xs[2], es[..1], xs[3], []);
  }

  lemma LateRunEvents(v: string, s: string, t: string)
    requires v != "" && s != "" && t != "" && s != t
    ensures Watched(LateRun(v, s, t)) == LateEvents(v, s, t)
  {
    var xs, es := LateRun(v, s, t), LateEvents(v, s, t);
    assert xs == xs[..4] + [xs[4]] + [xs[5]];
    assert es[..1] + [es[1]] == es[..2] && es[..2] + [es[2], es[3]] == es;
    LateRunStart(v, s, t);
    SentTable(xs[3], xs[4], v);
    SentTable(xs[4], xs[5], v);
    WatchStep(xs[..4], xs[3], es[..1], xs[4], [es[1]]);
    WatchStep(xs[..4] + [xs[4]], xs[4], es[..2], xs[5], [es[2], es[3]]);
  }

  lemma LinksOfFour(a: TimedStop, b: TimedStop, c: TimedStop, d: TimedStop, key: string)
    requires LinksAt(TravelKind, key, a) && LinksAt(TravelKind, key, b) && LinksAt(TravelKind, key, d)
    requires !LinksAt(TravelKind, key, c)
    ensures LinksOf([a, b, c, d], TravelKind, key)
         == [LinkCall(TravelKind, a), LinkCall(TravelKind, b), LinkCall(TravelKind, d)]
  {
    assert [a, b, c, d] == [a, b, c] + [d] && [a, b, c] == [a, b] + [c] && [a, b] == [a] + [b] && [a][..0] == [];
    LinksConcat([a, b, c], [d], TravelKind, key);
    LinksConcat([a, b], [c], TravelKind, key);
    LinksConcat([a], [b], TravelKind, key);
    assert forall e: TimedStop :: [e][..0] == [];
  }

  lemma LateLinks(v: string, s: string, t: string)
    requires v != "" && s != "" && t != "" && s != t
    ensures var es, key := LateEvents(v, s, t), Join(TripOf(v));
            var a, b, c := LinkCall(TravelKind, es[0]), LinkCall(TravelKind, es[1]), LinkCall(TravelKind, es[3]);
            LinksOf(es, TravelKind, key) == [a, b, c] && LateRepeat(a, b, c)
  {
    var es := LateEvents(v, s, t);
    assert TripFields(es[0].event) == TripFields(es[1].event) == TripFields(es[3].event) == TripOf(v);
    LinksOfFour(es[0], es[1], es[2], es[3], Join(TripOf(v)));
  }

  lemma LateRunIsFed(v: string, s: string, t: string)
    requires s != "" && t != ""
    ensures SightedInFeeds(LateRun(v, s, t), "", LateFeeds(v, s, t))
  {
    var xs, feeds := LateRun(v, s, t), LateFeeds(v, s, t);
    SeenInFeed(v, s, GTFS_IN_TRANSIT_TO, 0);
    SeenInFeed(v, s, GTFS_STOPPED_AT, 1);
    SeenInFeed(v, s, GTFS_INCOMING_AT, 2);
    SeenInFeed(v, s, GTFS_INCOMING_AT, 3000);
    SeenInFeed(v, s, GTFS_STOPPED_AT, 3602);
    SeenInFeed(v, t, GTFS_STOPPED_AT, 3700);
    assert forall i :: 0 <= i < 6 ==> feeds[i] in feeds && xs[i].position in Positions("", feeds[i]);
  }

  lemma LateFeedsArePlain(v: string, s: string, t: string)
    requires HyphenFree(v) && HyphenFree(s) && HyphenFree(t)
    ensures PlainFeeds(LateFeeds(v, s, t)) && DeclaredFeeds(LateFeeds(v, s, t))
  {
    var feeds := LateFeeds(v, s, t);
    forall feed: seq<Entity>, vehicle | feed in feeds && Entity(Some(vehicle)) in feed
      ensures PlainVehicle(vehicle) && 0 <= vehicle.currentStatus <= 2
    {
      assert |feed| == 1 && feed[0] == Entity(Some(vehicle));
    }
  }

  lemma LateRunIsInService(v: string, s: string, t: string)
    requires v != ""
    ensures forall x :: x in LateRun(v, s, t) ==> InService(x, v)
    ensures DwellLaws.SightedInOrder(LateRun(v, s, t)) && Continuous(LateRun(v, s, t))
  {
  }

  /** After the slip from s, the second arrival at s directly follows the first: the vehicle's events do not alternate. */
  lemma LateEventsDoNotAlternate(v: string, s: string, t: string)
    requires v != "" && s != "" && t != "" && s != t
    ensures !ArrivalsFollowDepartures(Watched(LateRun(v, s, t))) && !SilentOnceSlipped(LateRun(v, s, t))
  {
    var xs, es := LateRun(v, s, t), LateEvents(v, s, t);
    LateRunEvents(v, s, t);
    assert es[1].event.eventType == Arrival && es[0].event.eventType == Arrival;
    LateRunIsInService(v, s, t);
    VisitsAreBracketed(xs, v);
  }

  lemma LateCallsAreLost(es: seq<TimedStop>, a: TimedStop, b: TimedStop, c: TimedStop, key: string)
    requires LinksOf(es, TravelKind, key) == [LinkCall(TravelKind, a), LinkCall(TravelKind, b), LinkCall(TravelKind, c)]
    requires LateRepeat(LinkCall(TravelKind, a), LinkCall(TravelKind, b), LinkCall(TravelKind, c))
    ensures Hops(Chain(LinksOf(es, TravelKind, key))) == [OfTravel(MakeTravel(b.event, c.event))]
    ensures Emitted(Trace(map[], Collapse(LinksOf(es, TravelKind, key)))) == []
  {
    LinksAreAtOneKey(es, TravelKind, key);
    LateRepeatIsLost(LinkCall(TravelKind, a), LinkCall(TravelKind, b), LinkCall(TravelKind, c), key);
    SentAreHops(LinksOf(es, TravelKind, key), key);
  }

  lemma LateHops(v: string, s: string, t: string)
    requires v != "" && s != "" && t != "" && s != t
    ensures var es, key := LateEvents(v, s, t), Join(TripOf(v));
            && Hops(Chain(LinksOf(es, TravelKind, key))) == [OfTravel(MakeTravel(es[1].event, es[3].event))]
            && Emitted(Trace(map[], Collapse(LinksOf(es, TravelKind, key)))) == []
  {
    var es := LateEvents(v, s, t);
    LateLinks(v, s, t);
    LateCallsAreLost(es, es[0], es[1], es[3], Join(TripOf(v)));
  }

  lemma TripIsPlain(v: string)
    requires HyphenFree(v)
    ensures FieldsOf(TravelKind, TripOf(v))
  {
    assert HyphenFree(Decimal.Format(0));
  }

  lemma LateRunIsWatched(v: string, s: string, t: string)
    requires v != "" && s != "" && t != "" && s != t
    ensures Watched(SightingsAmong(LateRun(v, s, t), v)) == LateEvents(v, s, t)
  {
    LateRunIsInService(v, s, t);
    AllAmong(LateRun(v, s, t), v);
    LateRunEvents(v, s, t);
  }

  lemma LateRunTravels(v: string, s: string, t: string)
    requires v != "" && s != "" && t != "" && s != t
    requires HyphenFree(v) && HyphenFree(s) && HyphenFree(t)
    ensures var calls, key := Pipeline(LateRun(v, s, t)), Join(TripOf(v));
            var ds := LinksOf(LateEvents(v, s, t), TravelKind, key);
            Chosen(calls, OfKey(key)) == ds && Emitted(ChosenSteps(Trace(map[], calls), OfKey(key))) == Hops(Chain(ds))
  {
    LateRunIsFed(v, s, t);
    LateFeedsArePlain(v, s, t);
    LateRunIsWatched(v, s, t);
    TripIsPlain(v);
    FeedsToTravelTimes(LateRun(v, s, t), "", LateFeeds(v, s, t), TripOf(v));
  }

  /**
   A run out of feeds, all statuses declared and never an hour out of sight, in which the vehicle's trip sends the
   travel time from the second arrival at s to the one at t; with repeated arrivals collapsed it would send nothing.
   */
  lemma LateRepeatIsSent(v: string, s: string, t: string)
    requires v != "" && s != "" && t != "" && s != t
    requires HyphenFree(v) && HyphenFree(s) && HyphenFree(t)
    ensures SightedInFeeds(LateRun(v, s, t), "", LateFeeds(v, s, t))
    ensures PlainFeeds(LateFeeds(v, s, t)) && DeclaredFeeds(LateFeeds(v, s, t))
    ensures DwellLaws.SightedInOrder(LateRun(v, s, t)) && Continuous(LateRun(v, s, t))
    ensures var calls, es, trip := Pipeline(LateRun(v, s, t)), LateEvents(v, s, t), OfKey(Join(TripOf(v)));
            && Emitted(ChosenSteps(Trace(map[], calls), trip)) == [OfTravel(MakeTravel(es[1].event, es[3].event))]
            && Emitted(Trace(map[], Collapse(Chosen(calls, trip)))) == []
  {
    LateRunIsFed(v, s, t);
    LateFeedsArePlain(v, s, t);
    LateRunIsInService(v, s, t);
    LateRunTravels(v, s, t);
    LateHops(v, s, t);
  }
}
