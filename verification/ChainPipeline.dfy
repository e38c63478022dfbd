/**
 Headways and travel times of the pipeline: what is sent at a key are the hops of the chain of the departures or
 arrivals that the stop event processor sent, down to positions out of feeds.
 */
module ChainPipeline {
  import opened Events
  import opened Keys
  import opened StateStore
  import opened TravelTimeEvents
  import opened Engine
  import opened StopLaws
  import opened ChainLaws
  import opened DwellPipeline
  import opened VehiclePositions

  /** The headway or the travel time call on a stop event. */
  function LinkCall(kind: Kind, e: TimedStop): Call {
    Call(e.now, if kind == HeadwayKind then Headway(Some(e.event)) else Travel(Some(e.event)))
  }

  /** The event is a departure or an arrival, as the kind asks, at the key. */
  predicate LinksAt(kind: Kind, key: string, e: TimedStop) {
    Keyed(LinkCall(kind, e)) && Key(LinkCall(kind, e)) == key
  }

  /** The calls on those stop events that are for the key. */
  function LinksOf(es: seq<TimedStop>, kind: Kind, key: string): seq<Call> {
    if es == [] then []
    else
      var e := es[|es| - 1];
      LinksOf(es[..|es| - 1], kind, key) + if LinksAt(kind, key, e) then [LinkCall(kind, e)] else []
  }

  /** The stop events sent, of all vehicles, in order. */
  function StopsSent(steps: seq<Step>): seq<TimedStop> {
    if steps == [] then []
    else
      var step := steps[|steps| - 1];
      StopsSent(steps[..|steps| - 1]) + if step.call.task.Observe? then Stamped(step.emitted, step.call.now) else []
  }

  /** Only the processor uses the key. */
  ghost predicate OnlyOf(calls: seq<Call>, kind: Kind, key: string) {
    forall c :: c in calls && Keyed(c) && Key(c) == key ==> SubjectOf(c.task).value.kind == kind
  }

  lemma {:induction false} LinksConcat(a: seq<TimedStop>, b: seq<TimedStop>, kind: Kind, key: string)
    ensures LinksOf(a + b, kind, key) == LinksOf(a, kind, key) + LinksOf(b, kind, key)
  {
    if b == [] {
      assert a + b == a;
    } else {
      var n := |b| - 1;
      assert (a + b)[..|a + b| - 1] == a + b[..n];
      LinksConcat(a, b[..n], kind, key);
    }
  }

  lemma {:induction false} ChosenConcat(a: seq<Call>, b: seq<Call>, keep: Call -> bool)
    ensures Chosen(a + b, keep) == Chosen(a, keep) + Chosen(b, keep)
  {
    if b == [] {
      assert a + b == a;
    } else {
      var n := |b| - 1;
      assert (a + b)[..|a + b| - 1] == a + b[..n];
      ChosenConcat(a, b[..n], keep);
    }
  }

  lemma {:induction false} StopsSentConcat(a: seq<Step>, b: seq<Step>)
    ensures StopsSent(a + b) == StopsSent(a) + StopsSent(b)
  {
    if b == [] {
      assert a + b == a;
    } else {
      var n := |b| - 1;
      assert (a + b)[..|a + b| - 1] == a + b[..n];
      StopsSentConcat(a, b[..n]);
    }
  }

  // ---- What is handed on at a key is what was sent for it ----

  lemma ChosenOfThree(a: Call, b: Call, c: Call, keep: Call -> bool)
    ensures Chosen([a, b, c], keep) == (if keep(a) && Keyed(a) then [a] else [])
                                       + (if keep(b) && Keyed(b) then [b] else [])
                                       + (if keep(c) && Keyed(c) then [c] else [])
  {
    assert [] + [a] == [a] && [a] + [b] == [a, b] && [a, b] + [c] == [a, b, c];
    ChooseNext([], a, keep);
    ChooseNext([a], b, keep);
    ChooseNext([a, b], c, keep);
  }

  lemma FannedOutLinks(e: Event, now: int, kind: Kind, key: string)
    requires kind == HeadwayKind || kind == TravelKind
    requires OnlyOf(FannedOut(e, now), kind, key)
    ensures Chosen(FannedOut(e, now), OfKey(key)) == LinksOf(Stamped([e], now), kind, key)
  {
    var calls := FannedOut(e, now);
    ChosenOfThree(calls[0], calls[1], calls[2], OfKey(key));
    assert calls[0] in calls && calls[1] in calls && calls[2] in calls;
    if e.OfStop? {
      var es := [TimedStop(e.stop, now)];
      assert Stamped([e], now) == es && es[..0] == [];
    }
  }

  lemma PartOnlyOf(part: seq<Call>, calls: seq<Call>, kind: Kind, key: string)
    requires OnlyOf(calls, kind, key) && forall c :: c in part ==> c in calls
    ensures OnlyOf(part, kind, key)
  {
  }

  lemma StampedFirst(e: Event, more: seq<Event>, now: int)
    ensures Stamped([e] + more, now) == Stamped([e], now) + Stamped(more, now)
  {
    assert ([e] + more)[1..] == more && [e][1..] == [];
  }

  lemma {:induction false} HandedOnLinks(events: seq<Event>, now: int, kind: Kind, key: string)
    requires kind == HeadwayKind || kind == TravelKind
    requires OnlyOf(HandedOn(events, now), kind, key)
    ensures Chosen(HandedOn(events, now), OfKey(key)) == LinksOf(Stamped(events, now), kind, key)
  {
    if events != [] {
      var e, more := events[0], events[1..];
      var first, rest := FannedOut(e, now), HandedOn(more, now);
      PartOnlyOf(first, first + rest, kind, key);
      PartOnlyOf(rest, first + rest, kind, key);
      FannedOutLinks(e, now, kind, key);
      HandedOnLinks(more, now, kind, key);
      ChosenConcat(first, rest, OfKey(key));
      assert events == [e] + more;
      StampedFirst(e, more, now);
      LinksConcat(Stamped([e], now), Stamped(more, now), kind, key);
    }
  }

  lemma {:induction false} HandsSendNone(s: States, calls: seq<Call>, now: int)
    requires OnlyHands(calls, now)
    ensures StopsSent(Trace(s, calls)) == []
  {
    if calls != [] {
      HandsSendNone(s, calls[..|calls| - 1], now);
      assert calls[|calls| - 1] in calls;
    }
  }

  lemma RoundStops(calls: seq<Call>, x: Sighting)
    ensures StopsSent(Trace(map[], calls + [Observed(x)] + Round(calls, x))) ==
            StopsSent(Trace(map[], calls)) + Stamped(Serve(Final(map[], calls), Observed(x)).emitted, x.now)
  {
    var c, round := Observed(x), Round(calls, x);
    HandsAreHands(Serve(Final(map[], calls), c).emitted, x.now);
    HandsSendNone(Final(map[], calls + [c]), round, x.now);
    AppendAll(map[], calls + [c], round);
    StopsSentConcat(Trace(map[], calls + [c]), Trace(Final(map[], calls + [c]), round));
    ServeNext(map[], calls, c);
    assert Trace(map[], calls + [c])[..|calls|] == Trace(map[], calls);
  }

  lemma OthersAreNotChosen(calls: seq<Call>, c: Call, key: string)
    requires !(Keyed(c) && Key(c) == key)
    ensures Chosen(calls + [c], OfKey(key)) == Chosen(calls, OfKey(key))
  {
    ChooseNext(calls, c, OfKey(key));
    assert Chosen(calls, OfKey(key)) + [] == Chosen(calls, OfKey(key));
  }

  lemma SightingIsNoLink(c: Call, kind: Kind, key: string)
    requires kind != StopKind && c.task.Observe? && OnlyOf([c], kind, key)
    ensures !(Keyed(c) && Key(c) == key)
  {
    assert c in [c];
  }

  lemma RoundLinks(calls: seq<Call>, x: Sighting, kind: Kind, key: string)
    requires kind == HeadwayKind || kind == TravelKind
    requires OnlyOf(calls + [Observed(x)] + Round(calls, x), kind, key)
    ensures Chosen(calls + [Observed(x)] + Round(calls, x), OfKey(key)) ==
            Chosen(calls, OfKey(key)) + LinksOf(Stamped(Serve(Final(map[], calls), Observed(x)).emitted, x.now), kind, key)
  {
    var c, round := Observed(x), Round(calls, x);
    var all := calls + [c] + round;
    assert OnlyOf(round, kind, key) by {
      PartOnlyOf(round, all, kind, key);
    }
    assert Chosen(calls + [c], OfKey(key)) == Chosen(calls, OfKey(key)) by {
      PartOnlyOf([c], all, kind, key);
      SightingIsNoLink(c, kind, key);
      OthersAreNotChosen(calls, c, key);
    }
    HandedOnLinks(Serve(Final(map[], calls), c).emitted, x.now, kind, key);
    ChosenConcat(calls + [c], round, OfKey(key));
  }

  lemma {:induction false} PipelineLinks(xs: seq<Sighting>, kind: Kind, key: string)
    requires kind == HeadwayKind || kind == TravelKind
    requires OnlyOf(Pipeline(xs), kind, key)
    ensures Chosen(Pipeline(xs), OfKey(key)) == LinksOf(StopsSent(Trace(map[], Pipeline(xs))), kind, key)
  {
    if xs != [] {
      var n := |xs| - 1;
      var before, x := Pipeline(xs[..n]), xs[n];
      assert Pipeline(xs) == before + [Observed(x)] + Round(before, x);
      assert OnlyOf(before, kind, key) by {
        assert forall c :: c in before ==> c in Pipeline(xs);
      }
      PipelineLinks(xs[..n], kind, key);
      RoundLinks(before, x, kind, key);
      RoundStops(before, x);
      LinksConcat(StopsSent(Trace(map[], before)), Stamped(Serve(Final(map[], before), Observed(x)).emitted, x.now), kind, key);
    }
  }

  lemma {:induction false} LinksAreAtOneKey(es: seq<TimedStop>, kind: Kind, key: string)
    ensures AtOneKey(LinksOf(es, kind, key), key)
    ensures if kind == HeadwayKind then AllHeadways(LinksOf(es, kind, key)) else AllTravels(LinksOf(es, kind, key))
  {
    if es != [] {
      LinksAreAtOneKey(es[..|es| - 1], kind, key);
    }
  }

  lemma {:induction false} PipelineNeverSweeps(xs: seq<Sighting>)
    ensures forall c :: c in Pipeline(xs) ==> !c.task.Expire?
  {
    if xs != [] {
      var n := |xs| - 1;
      PipelineNeverSweeps(xs[..n]);
      HandsAreHands(Serve(Final(map[], Pipeline(xs[..n])), Observed(xs[n])).emitted, xs[n].now);
    }
  }

  /** sent are the hops of the chain through the calls, and measured and unmeasured seconds span it. */
  ghost predicate SendsChain(sent: seq<Event>, ds: seq<Call>) {
    && sent == Hops(Chain(ds))
    && (ds != [] ==>
          && Chain(ds) != []
          && Seconds(sent) + Unmeasured(Chain(ds)) == TimeOf(Chain(ds)[|Chain(ds)| - 1]) - TimeOf(ds[0]))
  }

  /** Every second is measured: no entry of the chain ran out, and the times of arrivals do not fall. */
  predicate Seamless(kind: Kind, chain: seq<Call>) {
    Unforgotten(chain) && (kind == HeadwayKind || TimesRise(chain))
  }

  lemma ChainSpans(ds: seq<Call>, kind: Kind)
    requires if kind == HeadwayKind then AllHeadways(ds) else AllTravels(ds)
    ensures SendsChain(Hops(Chain(ds)), ds)
    ensures Seamless(kind, Chain(ds)) ==> Unmeasured(Chain(ds)) == 0
  {
    ChainIsSuccessive(ds);
    if ds != [] {
      HopsTelescope(Chain(ds));
    }
    if Seamless(kind, Chain(ds)) {
      if kind == HeadwayKind {
        HeadwaysLink(Chain(ds));
      } else {
        NothingIsUnmeasured(Chain(ds));
      }
    }
  }

  /** At a key that no other processor uses, the pipeline sends the hops of the chain of what was sent for the key. */
  lemma PipelineSendsHops(xs: seq<Sighting>, kind: Kind, key: string)
    requires kind == HeadwayKind || kind == TravelKind
    requires OnlyOf(Pipeline(xs), kind, key)
    ensures var steps := Trace(map[], Pipeline(xs));
            var ds := LinksOf(StopsSent(steps), kind, key);
            && SendsChain(Emitted(ChosenSteps(steps, OfKey(key))), ds)
            && (Seamless(kind, Chain(ds)) ==> Unmeasured(Chain(ds)) == 0)
  {
    var ds := LinksOf(StopsSent(Trace(map[], Pipeline(xs))), kind, key);
    PipelineLinks(xs, kind, key);
    PipelineNeverSweeps(xs);
    LinksAreAtOneKey(StopsSent(Trace(map[], Pipeline(xs))), kind, key);
    ChainOnSharedStore(Pipeline(xs), key);
    ChainSpans(ds, kind);
  }

  // ---- Hyphen-free ids ----

  /** The fields of a headway or a travel time key. */
  predicate FieldsOf(kind: Kind, fields: seq<string>) {
    && AllHyphenFree(fields)
    && ((kind == HeadwayKind && |fields| == 3) || (kind == TravelKind && |fields| == 4))
  }

  lemma PlainKeysAreOwn(calls: seq<Call>, kind: Kind, fields: seq<string>)
    requires FieldsOf(kind, fields) && forall c :: c in calls ==> PlainCall(c)
    ensures OnlyOf(calls, kind, Join(fields))
  {
    forall c | c in calls && Keyed(c) && Key(c) == Join(fields) ensures SubjectOf(c.task).value.kind == kind {
      PlainIds(c);
      JoinIsInjective(SubjectOf(c.task).value.fields, fields);
    }
  }

  /** From feeds to headways and travel times, at any key. */
  lemma FeedsToHops(xs: seq<Sighting>, agencyId: string, feeds: seq<seq<Entity>>, kind: Kind, fields: seq<string>)
    requires SightedInFeeds(xs, agencyId, feeds) && HyphenFree(agencyId) && PlainFeeds(feeds)
    requires FieldsOf(kind, fields)
    ensures var steps, key := Trace(map[], Pipeline(xs)), Join(fields);
            var ds := LinksOf(StopsSent(steps), kind, key);
            && SendsChain(Emitted(ChosenSteps(steps, OfKey(key))), ds)
            && (Seamless(kind, Chain(ds)) ==> Unmeasured(Chain(ds)) == 0)
  {
    FeedSightings(xs, agencyId, feeds);
    PipelineIsPlain(xs);
    PlainKeysAreOwn(Pipeline(xs), kind, fields);
    PipelineSendsHops(xs, kind, Join(fields));
  }

  // ---- A trip is its vehicle's ----

  lemma OtherVehiclesTrip(e: TimedStop, fields: seq<string>)
    requires FieldsOf(TravelKind, fields) && PlainAttributes(e.event.attr) && e.event.attr.vehicleId != fields[2]
    ensures !LinksAt(TravelKind, Join(fields), e)
  {
    if LinksAt(TravelKind, Join(fields), e) {
      PlainFields(e.event.attr);
      JoinIsInjective(TripFields(e.event), fields);
    }
  }

  lemma {:induction false} OthersHaveOtherTrips(events: seq<Event>, now: int, p: Position, fields: seq<string>)
    requires FieldsOf(TravelKind, fields) && p.attr.vehicleId != fields[2]
    requires forall e :: e in events ==> MadeFor(e, p) && (e.OfStop? ==> PlainAttributes(e.stop.attr))
    ensures LinksOf(Stamped(events, now), TravelKind, Join(fields)) == []
  {
    if events != [] {
      var e, more := events[0], events[1..];
      assert e in events && MadeFor(e, p);
      OthersHaveOtherTrips(more, now, p, fields);
      if e.OfStop? {
        var first := [TimedStop(e.stop, now)];
        OtherVehiclesTrip(first[0], fields);
        assert first[..0] == [] && LinksOf(first, TravelKind, Join(fields)) == [];
        LinksConcat(first, Stamped(more, now), TravelKind, Join(fields));
      } else {
        assert Stamped(events, now) == Stamped(more, now);
      }
    }
  }

  lemma TripsAreTheVehicles(s: States, c: Call, fields: seq<string>)
    requires FieldsOf(TravelKind, fields) && PlainStore(s) && PlainCall(c) && c.task.Observe? && !Sights(c, fields[2])
    ensures LinksOf(Stamped(Serve(s, c).emitted, c.now), TravelKind, Join(fields)) == []
  {
    PlainStoreNext(s, c);
    SentAreMadeFor(s, c);
    OthersHaveOtherTrips(Serve(s, c).emitted, c.now, c.task.position, fields);
  }

  /** So far, the arrivals on the trip are among the stop events of its vehicle. */
  ghost predicate TripFollowed(calls: seq<Call>, fields: seq<string>)
    requires FieldsOf(TravelKind, fields)
  {
    LinksOf(StopsSent(Trace(map[], calls)), TravelKind, Join(fields))
    == LinksOf(StopsOf(Trace(map[], calls), fields[2]), TravelKind, Join(fields))
  }

  lemma StopsSentNext(steps: seq<Step>, step: Step)
    ensures StopsSent(steps + [step]) == StopsSent(steps) +
            if step.call.task.Observe? then Stamped(step.emitted, step.call.now) else []
  {
    assert (steps + [step])[..|steps|] == steps;
  }

  lemma TripFollowedNext(calls: seq<Call>, c: Call, fields: seq<string>)
    requires FieldsOf(TravelKind, fields) && PlainStore(Final(map[], calls)) && PlainCall(c)
    requires TripFollowed(calls, fields)
    ensures TripFollowed(calls + [c], fields)
  {
    var steps, step := Trace(map[], calls), Serve(Final(map[], calls), c);
    var sent, key := Stamped(step.emitted, c.now), Join(fields);
    ServeNext(map[], calls, c);
    StopsSentNext(steps, step);
    StopsNext(steps, step, fields[2]);
    if Sights(c, fields[2]) {
      LinksConcat(StopsSent(steps), sent, TravelKind, key);
      LinksConcat(StopsOf(steps, fields[2]), sent, TravelKind, key);
    } else {
      assert StopsOf(steps, fields[2]) + [] == StopsOf(steps, fields[2]);
      if c.task.Observe? {
        LinksConcat(StopsSent(steps), sent, TravelKind, key);
        TripsAreTheVehicles(Final(map[], calls), c, fields);
        assert LinksOf(StopsSent(steps), TravelKind, key) + [] == LinksOf(StopsSent(steps), TravelKind, key);
      } else {
        assert StopsSent(steps) + [] == StopsSent(steps);
      }
    }
  }

  lemma {:induction false} TripStops(calls: seq<Call>, fields: seq<string>)
    requires FieldsOf(TravelKind, fields) && forall c :: c in calls ==> PlainCall(c)
    ensures TripFollowed(calls, fields)
  {
    if calls != [] {
      var before, c := calls[..|calls| - 1], calls[|calls| - 1];
      assert calls == before + [c];
      TripStops(before, fields);
      PlainRunKeepsPlainStore(before);
      TripFollowedNext(before, c, fields);
    }
  }

  /** From feeds to the travel times of a trip: they are the hops along its vehicle's arrivals, whatever else is sighted. */
  lemma FeedsToTravelTimes(xs: seq<Sighting>, agencyId: string, feeds: seq<seq<Entity>>, fields: seq<string>)
    requires SightedInFeeds(xs, agencyId, feeds) && HyphenFree(agencyId) && PlainFeeds(feeds)
    requires FieldsOf(TravelKind, fields) && fields[2] != ""
    ensures var steps, key := Trace(map[], Pipeline(xs)), Join(fields);
            var ds := LinksOf(Watched(SightingsAmong(xs, fields[2])), TravelKind, key);
            && Chosen(Pipeline(xs), OfKey(key)) == ds
            && SendsChain(Emitted(ChosenSteps(steps, OfKey(key))), ds)
            && (Seamless(TravelKind, Chain(ds)) ==> Unmeasured(Chain(ds)) == 0)
  {
    FeedsToHops(xs, agencyId, feeds, TravelKind, fields);
    FeedSightings(xs, agencyId, feeds);
    PipelineIsPlain(xs);
    PlainKeysAreOwn(Pipeline(xs), TravelKind, fields);
    PipelineLinks(xs, TravelKind, Join(fields));
    TripStops(Pipeline(xs), fields);
    PipelineNeverSweeps(xs);
    HyphenFreeVehicleOwnsItsKey(Pipeline(xs), fields[2]);
    VehicleIsWatchedAlone(Pipeline(xs), fields[2]);
    PipelineRelays(xs, fields[2]);
  }
}
