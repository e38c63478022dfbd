/**
 Sightings run through the stop event processor and on into the other three, each event handed over at once.
 Such a run is connected as DwellLaws asks, so that its results hold of positions out of feeds.
 */
module DwellPipeline {
  import opened Events
  import opened Keys
  import opened StateStore
  import opened StopEvents
  import opened Engine
  import opened StopLaws
  import opened VisitLaws
  import opened DwellLaws
  import opened VehiclePositions

  function Received(e: Event): Option<StopEvent> {
    if e.OfStop? then Some(e.stop) else None
  }

  /** An event reaches the dwell, the headway and the travel time processor. */
  function FannedOut(e: Event, now: int): seq<Call> {
    [Call(now, Dwell(Received(e))), Call(now, Headway(Received(e))), Call(now, Travel(Received(e)))]
  }

  function HandedOn(events: seq<Event>, now: int): seq<Call> {
    if events == [] then [] else FannedOut(events[0], now) + HandedOn(events[1..], now)
  }

  function Observed(x: Sighting): Call {
    Call(x.now, Observe(x.position))
  }

  /** The sightings in order, what each gives rise to handed on before the next. */
  function Pipeline(xs: seq<Sighting>): seq<Call> {
    if xs == [] then []
    else
      var before, c := Pipeline(xs[..|xs| - 1]), Observed(xs[|xs| - 1]);
      before + [c] + HandedOn(Serve(Final(map[], before), c).emitted, c.now)
  }

  /** The sightings of v among others. */
  function SightingsAmong(xs: seq<Sighting>, v: string): seq<Sighting> {
    if xs == [] then []
    else
      var x := xs[|xs| - 1];
      SightingsAmong(xs[..|xs| - 1], v) + if x.position.attr.vehicleId == v then [x] else []
  }

  // ---- What is handed on is what was sent ----

  /** The event, if it is a stop event, was made for the position. */
  predicate MadeFor(e: Event, p: Position) {
    e.OfStop? ==> e == MakeStopEvent(p, e.stop.attr.stopId, e.stop.eventType)
  }

  lemma SentAreMadeFor(s: States, c: Call)
    requires c.task.Observe?
    ensures forall e :: e in Serve(s, c).emitted ==> MadeFor(e, c.task.position)
  {
  }

  lemma {:induction false} HandedOverConcat(a: seq<Call>, b: seq<Call>, v: string)
    ensures HandedOver(a + b, v) == HandedOver(a, v) + HandedOver(b, v)
  {
    if b == [] {
      assert a + b == a;
    } else {
      var n := |b| - 1;
      assert (a + b)[..|a + b| - 1] == a + b[..n];
      HandedOverConcat(a, b[..n], v);
    }
  }

  lemma {:induction false} StopsConcat(a: seq<Step>, b: seq<Step>, v: string)
    ensures StopsOf(a + b, v) == StopsOf(a, v) + StopsOf(b, v)
  {
    if b == [] {
      assert a + b == a;
    } else {
      var n := |b| - 1;
      assert (a + b)[..|a + b| - 1] == a + b[..n];
      StopsConcat(a, b[..n], v);
    }
  }

  lemma FannedOutIsHandedOver(e: Event, now: int, v: string)
    ensures HandedOver(FannedOut(e, now), v) ==
            if e.OfStop? && e.stop.attr.vehicleId == v then [TimedStop(e.stop, now)] else []
  {
    var calls := FannedOut(e, now);
    assert calls[..2][..1] == calls[..1] && calls[..1][..0] == [];
    assert HandedOver(calls[..2], v) == HandedOver(calls[..1], v);
  }

  /** The calls come at one clock reading, and none is a sighting. */
  predicate OnlyHands(calls: seq<Call>, now: int) {
    forall c :: c in calls ==> c.now == now && (c.task.Dwell? || c.task.Headway? || c.task.Travel?)
  }

  lemma {:induction false} HandsAreHands(events: seq<Event>, now: int)
    ensures OnlyHands(HandedOn(events, now), now)
  {
    if events != [] {
      HandsAreHands(events[1..], now);
    }
  }

  /** The dwell processor gets the stop events of the position's vehicle. */
  lemma {:induction false} EventsAreHandedOver(events: seq<Event>, p: Position, now: int, v: string)
    requires forall e :: e in events ==> MadeFor(e, p)
    ensures HandedOver(HandedOn(events, now), v) == if p.attr.vehicleId == v then Stamped(events, now) else []
  {
    if events != [] {
      var e, more := events[0], events[1..];
      assert MadeFor(e, p);
      FannedOutIsHandedOver(e, now, v);
      EventsAreHandedOver(more, p, now, v);
      HandedOverConcat(FannedOut(e, now), HandedOn(more, now), v);
      assert HandedOver(HandedOn(events, now), v)
          == HandedOver(FannedOut(e, now), v) + HandedOver(HandedOn(more, now), v);
    }
  }

  lemma {:induction false} HandsSendNoStops(s: States, calls: seq<Call>, now: int, v: string)
    requires OnlyHands(calls, now)
    ensures StopsOf(Trace(s, calls), v) == [] && SightingsOf(calls, v) == []
  {
    if calls != [] {
      HandsSendNoStops(s, calls[..|calls| - 1], now, v);
      assert calls[|calls| - 1] in calls;
    }
  }

  /** So far, v was seen as in xs, and its stop events were handed over. */
  ghost predicate Relays(calls: seq<Call>, xs: seq<Sighting>, v: string) {
    && SightingsOf(calls, v) == SightingsAmong(xs, v)
    && HandedOver(calls, v) == StopsOf(Trace(map[], calls), v)
  }

  /** What a sighting gives rise to when it comes after the calls. */
  function Round(calls: seq<Call>, x: Sighting): seq<Call> {
    HandedOn(Serve(Final(map[], calls), Observed(x)).emitted, x.now)
  }

  lemma RoundHandsOver(calls: seq<Call>, x: Sighting, v: string)
    ensures HandedOver(calls + [Observed(x)] + Round(calls, x), v) == HandedOver(calls, v) +
            if x.position.attr.vehicleId == v then Stamped(Serve(Final(map[], calls), Observed(x)).emitted, x.now) else []
  {
    var c := Observed(x);
    var events := Serve(Final(map[], calls), c).emitted;
    SentAreMadeFor(Final(map[], calls), c);
    EventsAreHandedOver(events, x.position, x.now, v);
    HandedOverConcat(calls + [c], HandedOn(events, x.now), v);
    HandedOverNext(calls, c, v);
  }

  lemma HandedOverNext(calls: seq<Call>, c: Call, v: string)
    requires c.task.Observe?
    ensures HandedOver(calls + [c], v) == HandedOver(calls, v)
  {
    assert (calls + [c])[..|calls|] == calls;
  }

  lemma RoundSends(calls: seq<Call>, x: Sighting, v: string)
    ensures SightingsOf(calls + [Observed(x)] + Round(calls, x), v) == SightingsOf(calls, v) +
            if x.position.attr.vehicleId == v then [x] else []
    ensures StopsOf(Trace(map[], calls + [Observed(x)] + Round(calls, x)), v) == StopsOf(Trace(map[], calls), v) +
            if x.position.attr.vehicleId == v then Stamped(Serve(Final(map[], calls), Observed(x)).emitted, x.now) else []
  {
    var c, round := Observed(x), Round(calls, x);
    HandsAreHands(Serve(Final(map[], calls), c).emitted, x.now);
    HandsSendNoStops(Final(map[], calls + [c]), round, x.now, v);
    SightingsConcat(calls + [c], round, v);
    assert (calls + [c])[..|calls|] == calls;
    AppendAll(map[], calls + [c], round);
    StopsConcat(Trace(map[], calls + [c]), Trace(Final(map[], calls + [c]), round), v);
    ServeNext(map[], calls, c);
    StopsNext(Trace(map[], calls), Serve(Final(map[], calls), c), v);
  }

  lemma {:induction false} PipelineRelays(xs: seq<Sighting>, v: string)
    ensures Relays(Pipeline(xs), xs, v)
  {
    if xs != [] {
      var n := |xs| - 1;
      PipelineRelays(xs[..n], v);
      RoundHandsOver(Pipeline(xs[..n]), xs[n], v);
      RoundSends(Pipeline(xs[..n]), xs[n], v);
    }
  }

  lemma RoundIsClocked(calls: seq<Call>, c: Call, round: seq<Call>)
    requires Clocked(calls) && OnlyHands(round, c.now)
    requires forall d :: d in calls ==> d.now <= c.now
    ensures Clocked(calls + [c] + round)
    ensures forall d :: d in calls + [c] + round ==> d.now <= c.now
  {
    var all := calls + [c] + round;
    forall i, j | 0 <= i < j < |all| ensures all[i].now <= all[j].now {
      assert all[i] in calls || all[i] == c || all[i] in round;
      if j < |calls| {
        assert all[i] == calls[i] && all[j] == calls[j];
      } else {
        assert all[j] == c || all[j] in round;
      }
    }
  }

  lemma {:induction false} PipelineIsClocked(xs: seq<Sighting>, now: int)
    requires SightedInOrder(xs) && forall x :: x in xs ==> x.now <= now
    ensures Clocked(Pipeline(xs)) && forall c :: c in Pipeline(xs) ==> c.now <= now
  {
    if xs != [] {
      var n := |xs| - 1;
      PipelineIsClocked(xs[..n], xs[n].now);
      var before, c := Pipeline(xs[..n]), Observed(xs[n]);
      HandsAreHands(Serve(Final(map[], before), c).emitted, c.now);
      RoundIsClocked(before, c, Round(before, xs[n]));
    }
  }

  /** Handing each event on at once connects the processors, if no other key is that of v or of a dwell of v. */
  lemma PipelineConnects(xs: seq<Sighting>, v: string)
    requires SightedInOrder(xs)
    requires OwnKey(Pipeline(xs), v) && Isolated(Pipeline(xs), OfDwellOf(v))
    ensures Connected(Pipeline(xs), v) && SightingsOf(Pipeline(xs), v) == SightingsAmong(xs, v)
  {
    PipelineRelays(xs, v);
    if xs != [] {
      PipelineIsClocked(xs, Last(xs).now);
    }
  }

  // ---- Hyphen-free ids ----

  predicate PlainAttributes(a: Attributes) {
    AllHyphenFree([a.agencyId, a.routeId, a.directionId, a.stopId, a.vehicleId, a.tripId])
  }

  predicate PlainCall(c: Call) {
    match c.task
    case Observe(p) => PlainAttributes(p.attr)
    case Dwell(Some(e)) => PlainAttributes(e.attr)
    case Headway(Some(e)) => PlainAttributes(e.attr)
    case Travel(Some(e)) => PlainAttributes(e.attr)
    case _ => true
  }

  ghost predicate PlainStore(s: States) {
    forall key :: key in s && s[key].msg.PositionMsg? ==> HyphenFree(s[key].msg.position.attr.stopId)
  }

  lemma PlainCallsHaveFaithfulKeys(calls: seq<Call>)
    requires forall c :: c in calls ==> PlainCall(c)
    ensures FaithfulKeys(calls)
  {
    forall c | c in calls ensures HyphenFreeIds(c) {
      PlainIds(c);
    }
    HyphenFreeIdsAreFaithful(calls);
  }

  lemma PlainFields(a: Attributes)
    ensures PlainAttributes(a) <==>
            && HyphenFree(a.agencyId) && HyphenFree(a.routeId) && HyphenFree(a.directionId)
            && HyphenFree(a.stopId) && HyphenFree(a.vehicleId) && HyphenFree(a.tripId)
  {
    var ids := [a.agencyId, a.routeId, a.directionId, a.stopId, a.vehicleId, a.tripId];
    assert AllHyphenFree(ids) ==> HyphenFree(ids[0]) && HyphenFree(ids[1]) && HyphenFree(ids[2])
                                  && HyphenFree(ids[3]) && HyphenFree(ids[4]) && HyphenFree(ids[5]);
  }

  lemma PlainIds(c: Call)
    requires PlainCall(c)
    ensures HyphenFreeIds(c)
  {
    match c.task
    case Observe(p) => PlainFields(p.attr);
    case Dwell(Some(e)) => PlainFields(e.attr);
    case Headway(Some(e)) => PlainFields(e.attr);
    case Travel(Some(e)) => PlainFields(e.attr);
    case _ =>
  }

  lemma PlainStoreNext(s: States, c: Call)
    requires PlainStore(s) && PlainCall(c)
    ensures PlainStore(After(s, c))
    ensures c.task.Observe? ==> forall e :: e in Serve(s, c).emitted && e.OfStop? ==> PlainAttributes(e.stop.attr)
  {
    if c.task.Observe? {
      PlainFields(c.task.position.attr);
      forall e | e in Serve(s, c).emitted && e.OfStop? ensures PlainAttributes(e.stop.attr) {
        PlainFields(e.stop.attr);
      }
    }
  }

  lemma {:induction false} PlainRunKeepsPlainStore(calls: seq<Call>)
    requires forall c :: c in calls ==> PlainCall(c)
    ensures PlainStore(Final(map[], calls))
  {
    if calls != [] {
      var before, c := calls[..|calls| - 1], calls[|calls| - 1];
      PlainRunKeepsPlainStore(before);
      PlainStoreNext(Final(map[], before), c);
    }
  }

  lemma {:induction false} PlainHands(events: seq<Event>, now: int)
    requires forall e :: e in events && e.OfStop? ==> PlainAttributes(e.stop.attr)
    ensures forall c :: c in HandedOn(events, now) ==> PlainCall(c)
  {
    if events != [] {
      PlainHands(events[1..], now);
      assert forall c :: c in FannedOut(events[0], now) ==> PlainCall(c);
    }
  }

  lemma {:induction false} PipelineIsPlain(xs: seq<Sighting>)
    requires forall x :: x in xs ==> PlainAttributes(x.position.attr)
    ensures forall c :: c in Pipeline(xs) ==> PlainCall(c)
  {
    if xs != [] {
      var n := |xs| - 1;
      var before, c := Pipeline(xs[..n]), Observed(xs[n]);
      PipelineIsPlain(xs[..n]);
      PlainRunKeepsPlainStore(before);
      assert xs[n] in xs && PlainCall(c);
      PlainStoreNext(Final(map[], before), c);
      PlainHands(Serve(Final(map[], before), c).emitted, c.now);
    }
  }

  /** With hyphen-free ids the pipeline is connected for every vehicle. */
  lemma PlainPipelineConnects(xs: seq<Sighting>, v: string)
    requires SightedInOrder(xs) && v != "" && HyphenFree(v)
    requires forall x :: x in xs ==> PlainAttributes(x.position.attr)
    ensures Connected(Pipeline(xs), v) && SightingsOf(Pipeline(xs), v) == SightingsAmong(xs, v)
  {
    PipelineIsPlain(xs);
    PlainCallsHaveFaithfulKeys(Pipeline(xs));
    HyphenFreeVehicleOwnsItsKey(Pipeline(xs), v);
    VehicleDwellsAreIsolated(Pipeline(xs), v);
    PipelineConnects(xs, v);
  }

  // ---- From feeds to dwells ----

  /** A feed vehicle with hyphen-free ids. */
  predicate PlainVehicle(v: FeedVehicle) {
    HyphenFree(v.routeId) && HyphenFree(v.stopId) && HyphenFree(v.vehicleId) && HyphenFree(v.tripId)
  }

  ghost predicate PlainFeeds(feeds: seq<seq<Entity>>) {
    forall feed, v :: feed in feeds && Entity(Some(v)) in feed ==> PlainVehicle(v)
  }

  /** The feeds use the three declared status numbers. */
  ghost predicate DeclaredFeeds(feeds: seq<seq<Entity>>) {
    forall feed, v :: feed in feeds && Entity(Some(v)) in feed ==> 0 <= v.currentStatus <= 2
  }

  /** Every position sighted is out of one of the agency's feeds. */
  ghost predicate SightedInFeeds(xs: seq<Sighting>, agencyId: string, feeds: seq<seq<Entity>>) {
    forall x :: x in xs ==> exists feed :: feed in feeds && x.position in Positions(agencyId, feed)
  }

  lemma FeedPosition(agencyId: string, feeds: seq<seq<Entity>>, feed: seq<Entity>, p: Position)
    requires feed in feeds && p in Positions(agencyId, feed)
    ensures p.attr.stopId != ""
    ensures HyphenFree(agencyId) && PlainFeeds(feeds) ==> PlainAttributes(p.attr)
    ensures DeclaredFeeds(feeds) ==> p.attr.stopStatus != Unknown
  {
    PositionsAreNamed(agencyId, feed, p);
    PlainFields(p.attr);
  }

  lemma FeedSightings(xs: seq<Sighting>, agencyId: string, feeds: seq<seq<Entity>>)
    requires SightedInFeeds(xs, agencyId, feeds)
    ensures forall x :: x in xs ==> x.position.attr.stopId != ""
    ensures HyphenFree(agencyId) && PlainFeeds(feeds) ==> forall x :: x in xs ==> PlainAttributes(x.position.attr)
    ensures DeclaredFeeds(feeds) ==> DeclaredStatuses(xs)
  {
    forall x | x in xs
      ensures x.position.attr.stopId != ""
      ensures HyphenFree(agencyId) && PlainFeeds(feeds) ==> PlainAttributes(x.position.attr)
      ensures DeclaredFeeds(feeds) ==> Declared(x)
    {
      var feed :| feed in feeds && x.position in Positions(agencyId, feed);
      FeedPosition(agencyId, feeds, feed, x.position);
    }
  }

  lemma {:induction false} AmongAreSighted(xs: seq<Sighting>, v: string)
    requires v != "" && forall x :: x in xs ==> x.position.attr.stopId != ""
    ensures Sighted(SightingsAmong(xs, v), v)
    ensures DeclaredStatuses(xs) ==> DeclaredStatuses(SightingsAmong(xs, v))
  {
    if xs != [] {
      AmongAreSighted(xs[..|xs| - 1], v);
      assert xs[|xs| - 1] in xs;
    }
  }

  lemma DeclaredStopsAreNotStale(ss: seq<Sighting>)
    requires DeclaredStatuses(ss)
    ensures NoStaleStop(ss)
  {
    forall n | 0 < n < |ss| ensures !Unannounced(ss[n - 1], ss[n]) {
      assert Declared(ss[n - 1]);
    }
    AnnouncedStopsAreNotStale(ss);
  }

  /** From feeds to dwells: exactly the stays of a vehicle are sent, unless it makes a stale stop. */
  lemma FeedsToDwells(xs: seq<Sighting>, agencyId: string, feeds: seq<seq<Entity>>, v: string)
    requires SightedInOrder(xs) && SightedInFeeds(xs, agencyId, feeds)
    requires HyphenFree(agencyId) && PlainFeeds(feeds)
    requires v != "" && HyphenFree(v) && OneService(SightingsAmong(xs, v))
    ensures var steps, es := ChosenSteps(Trace(map[], Pipeline(xs)), OfDwellOf(v)), Watched(SightingsAmong(xs, v));
            && StopsOf(Trace(map[], Pipeline(xs)), v) == es
            && (SendsStays(steps, es) <==> PairsAdjacent(es))
            && (DeclaredFeeds(feeds) || NoStaleStop(SightingsAmong(xs, v)) ==> SendsStays(steps, es))
  {
    FeedSightings(xs, agencyId, feeds);
    PlainPipelineConnects(xs, v);
    AmongAreSighted(xs, v);
    DwellEndToEnd(Pipeline(xs), v);
    PipelineProjects(Pipeline(xs), v);
    if DeclaredFeeds(feeds) {
      DeclaredStopsAreNotStale(SightingsAmong(xs, v));
    }
  }
}
