/** What a stale stop does: a run out of feeds, with an undeclared status, that sends a dwell for the wrong arrival. */
module StaleStops {
  import opened Events
  import opened Keys
  import opened DwellEvents
  import opened Engine
  import opened StopLaws
  import opened VisitLaws
  import opened DwellLaws
  import opened VehiclePositions
  import opened DwellPipeline
  import opened OneVehicle

  /** No status number of the GTFS Realtime Reference. */
  const UNDECLARED := 3

  function UnknownFeeds(v: string, s: string, t: string): seq<seq<Entity>> {
    [FeedOf(Vehicle(v, s, GTFS_IN_TRANSIT_TO, 0)), FeedOf(Vehicle(v, s, GTFS_STOPPED_AT, 1)),
     FeedOf(Vehicle(v, t, GTFS_INCOMING_AT, 2)), FeedOf(Vehicle(v, t, GTFS_STOPPED_AT, 3)),
     FeedOf(Vehicle(v, t, UNDECLARED, 4)), FeedOf(Vehicle(v, s, GTFS_STOPPED_AT, 5)),
     FeedOf(Vehicle(v, s, GTFS_IN_TRANSIT_TO, 6))]
  }

  /** The vehicle stands at s, then at t, and after an undeclared status at s again, and leaves. */
  function UnknownRun(v: string, s: string, t: string): seq<Sighting> {
    [Seen(v, s, GTFS_IN_TRANSIT_TO, 0), Seen(v, s, GTFS_STOPPED_AT, 1),
     Seen(v, t, GTFS_INCOMING_AT, 2), Seen(v, t, GTFS_STOPPED_AT, 3),
     Seen(v, t, UNDECLARED, 4), Seen(v, s, GTFS_STOPPED_AT, 5),
     Seen(v, s, GTFS_IN_TRANSIT_TO, 6)]
  }

  /** An arrival at s, an arrival at t and a departure from s. */
  function UnknownEvents(v: string, s: string, t: string): seq<TimedStop>
    requires v != "" && s != "" && t != ""
  {
    [Announced(Seen(v, s, GTFS_STOPPED_AT, 1), s, Arrival), Announced(Seen(v, t, GTFS_STOPPED_AT, 3), t, Arrival),
     Announced(Seen(v, s, GTFS_IN_TRANSIT_TO, 6), s, Departure)]
  }

  lemma UnknownRunStart(v: string, s: string, t: string)
    requires v != "" && s != "" && t != "" && s != t
    ensures Reaches(UnknownRun(v, s, t)[..4], UnknownRun(v, s, t)[3], UnknownEvents(v, s, t)[..2])
  {
    var xs, es := UnknownRun(v, s, t), UnknownEvents(v, s, t);
    assert xs[..4] == [xs[0]] + [xs[1]] + [xs[2]] + [xs[3]];
    assert [] + [es[0]] == [es[0]] && [es[0]] + [] == [es[0]] && [es[0]] + [es[1]] == es[..2];
    SentTable(xs[0], xs[1], v);
    SentTable(xs[1], xs[2], v);
    SentTable(xs[2], xs[3], v);
    WatchStep([xs[0]], xs[0], [], xs[1], [es[0]]);
    WatchStep([xs[0]] + [xs[1]], xs[1], [es[0]], xs[2], []);
    WatchStep([xs[0]] + [xs[1]] + [xs[2]], xs[2], [es[0]], xs[3], [es[1]]);
  }

  lemma UnknownRunEvents(v: string, s: string, t: string)
    requires v != "" && s != "" && t != "" && s != t
    ensures Watched(UnknownRun(v, s, t)) == UnknownEvents(v, s, t)
  {
    var xs, es := UnknownRun(v, s, t), UnknownEvents(v, s, t);
    assert xs == xs[..4] + [xs[4]] + [xs[5]] + [xs[6]];
    assert es[..2] + [] == es[..2] && es[..2] + [es[2]] == es;
    UnknownRunStart(v, s, t);
    SentTable(xs[3], xs[4], v);
    SentTable(xs[4], xs[5], v);
    SentTable(xs[5], xs[6], v);
    WatchStep(xs[..4], xs[3], es[..2], xs[4], []);
    WatchStep(xs[..4] + [xs[4]], xs[4], es[..2], xs[5], []);
    WatchStep(xs[..4] + [xs[4]] + [xs[5]], xs[5], es[..2], xs[6], [es[2]]);
  }

  lemma SkippingPair(a: TimedStop, b: TimedStop, d: TimedStop)
    requires a.event.eventType == Arrival && d.event.eventType == Departure && a.now <= b.now <= d.now <= a.now + HOUR
    requires DwellKey(a.event) == DwellKey(d.event) != DwellKey(b.event)
    requires ElapsedSeconds(a.event.attr.timestamp, d.event.attr.timestamp) >= 0
    ensures Pairs([a, b, d], 0, 2)
    ensures Trace(map[], DwellCalls([a, b, d]))[2].emitted == [OfDwell(MakeDwell(a.event, d.event))]
  {
    assert [a, b, d][..2] == [a, b];
    assert IsLatest([a, b], 0, DwellKey(d.event));
    assert InOrder([a, b, d]);
    DwellPairsOffline([a, b, d], 2);
  }

  lemma UnknownEventsMispair(v: string, s: string, t: string)
    requires v != "" && s != "" && t != "" && s != t
    ensures var es := UnknownEvents(v, s, t);
            Trace(map[], DwellCalls(es))[2].emitted == [OfDwell(MakeDwell(es[0].event, es[2].event))]
  {
    var es, first := UnknownEvents(v, s, t), Seen(v, s, GTFS_STOPPED_AT, 1);
    VisitKeyTellsStops(first, s, t);
    assert DwellKey(es[0].event) == DwellKey(es[2].event) == VisitKey(first, s);
    assert DwellKey(es[1].event) == VisitKey(first, t);
    SkippingPair(es[0], es[1], es[2]);
  }

  lemma UnknownRunIsFed(v: string, s: string, t: string)
    requires s != "" && t != ""
    ensures SightedInFeeds(UnknownRun(v, s, t), "", UnknownFeeds(v, s, t))
  {
    var xs, feeds := UnknownRun(v, s, t), UnknownFeeds(v, s, t);
    SeenInFeed(v, s, GTFS_IN_TRANSIT_TO, 0);
    SeenInFeed(v, s, GTFS_STOPPED_AT, 1);
    SeenInFeed(v, t, GTFS_INCOMING_AT, 2);
    SeenInFeed(v, t, GTFS_STOPPED_AT, 3);
    SeenInFeed(v, t, UNDECLARED, 4);
    SeenInFeed(v, s, GTFS_STOPPED_AT, 5);
    SeenInFeed(v, s, GTFS_IN_TRANSIT_TO, 6);
    assert forall i :: 0 <= i < 7 ==> feeds[i] in feeds && xs[i].position in Positions("", feeds[i]);
  }

  lemma UnknownFeedsArePlain(v: string, s: string, t: string)
    requires HyphenFree(v) && HyphenFree(s) && HyphenFree(t)
    ensures PlainFeeds(UnknownFeeds(v, s, t))
  {
    var feeds := UnknownFeeds(v, s, t);
    forall feed: seq<Entity>, vehicle | feed in feeds && Entity(Some(vehicle)) in feed ensures PlainVehicle(vehicle) {
      assert |feed| == 1 && feed[0].vehicle.Some? && PlainVehicle(feed[0].vehicle.value);
    }
  }

  lemma UnknownRunIsInService(v: string, s: string, t: string)
    requires v != ""
    ensures forall x :: x in UnknownRun(v, s, t) ==> InService(x, v)
    ensures SightedInOrder(UnknownRun(v, s, t)) && TimestampsRise(UnknownRun(v, s, t))
  {
  }

  lemma UnknownRunConnects(v: string, s: string, t: string)
    requires v != "" && s != "" && t != ""
    requires HyphenFree(v) && HyphenFree(s) && HyphenFree(t)
    ensures Pipelined(Pipeline(UnknownRun(v, s, t)), v)
    ensures SightingsOf(Pipeline(UnknownRun(v, s, t)), v) == UnknownRun(v, s, t)
  {
    var xs := UnknownRun(v, s, t);
    UnknownRunIsFed(v, s, t);
    UnknownFeedsArePlain(v, s, t);
    UnknownRunIsInService(v, s, t);
    AllAmong(xs, v);
    InOneService(xs, v);
    FeedSightings(xs, "", UnknownFeeds(v, s, t));
    AmongAreSighted(xs, v);
    PlainPipelineConnects(xs, v);
  }

  /** A run out of feeds in which the dwell sent for a departure reaches back past another arrival of the vehicle. */
  lemma UnknownStatusMispairs(v: string, s: string, t: string)
    requires v != "" && s != "" && t != "" && s != t
    requires HyphenFree(v) && HyphenFree(s) && HyphenFree(t)
    ensures SightedInFeeds(UnknownRun(v, s, t), "", UnknownFeeds(v, s, t)) && PlainFeeds(UnknownFeeds(v, s, t))
    ensures var calls, es := Pipeline(UnknownRun(v, s, t)), UnknownEvents(v, s, t);
            && Pipelined(calls, v) && StopsOf(Trace(map[], calls), v) == es
            && var steps := ChosenSteps(Trace(map[], calls), OfDwellOf(v));
               |steps| == 3 && steps[2].emitted == [OfDwell(MakeDwell(es[0].event, es[2].event))]
  {
    UnknownRunIsFed(v, s, t);
    UnknownFeedsArePlain(v, s, t);
    UnknownRunConnects(v, s, t);
    PipelineProjects(Pipeline(UnknownRun(v, s, t)), v);
    UnknownRunEvents(v, s, t);
    UnknownEventsMispair(v, s, t);
  }
}
