/**
 Which arrival and departure a dwell event pairs. DwellPairsOffline says it of the processor alone, from the
 history of what it was handed; DwellEndToEnd says it of the composed pipeline on a shared, swept, expiring store.
 */
module DwellLaws {
  import opened Events
  import opened Keys
  import opened StateStore
  import opened DwellEvents
  import opened Engine
  import opened StopLaws
  import opened VisitLaws

  function DwellKey(e: StopEvent): string {
    Join(DwellFields(e))
  }

  function DwellCall(h: TimedStop): Call {
    Call(h.now, Dwell(Some(h.event)))
  }

  /** The dwell processor's calls on stop events handed to it one by one. */
  function DwellCalls(hs: seq<TimedStop>): (calls: seq<Call>)
    ensures |calls| == |hs|
  {
    seq(|hs|, i requires 0 <= i < |hs| => DwellCall(hs[i]))
  }

  lemma DwellCallsNext(hs: seq<TimedStop>, h: TimedStop)
    ensures DwellCalls(hs + [h]) == DwellCalls(hs) + [DwellCall(h)]
  {
  }

  predicate InOrder(hs: seq<TimedStop>) {
    forall i, j :: 0 <= i < j < |hs| ==> hs[i].now <= hs[j].now
  }

  /** An arrival or a departure at the key. */
  predicate Touches(h: TimedStop, key: string) {
    h.event.eventType != UnknownType && DwellKey(h.event) == key
  }

  /** i is the latest arrival or departure at the key. */
  predicate IsLatest(hs: seq<TimedStop>, i: int, key: string) {
    0 <= i < |hs| && Touches(hs[i], key) && forall j :: i < j < |hs| ==> !Touches(hs[j], key)
  }

  /** i is an arrival at the key, with nothing at the key since, and at most an hour old at clock reading t. */
  predicate Pending(hs: seq<TimedStop>, i: int, key: string, t: int) {
    IsLatest(hs, i, key) && hs[i].event.eventType == Arrival && t <= hs[i].now + HOUR
  }

  /** Handed h after hs, the dwell that arrival i began ends. */
  predicate Ends(hs: seq<TimedStop>, i: int, h: TimedStop) {
    && h.event.eventType == Departure
    && Pending(hs, i, DwellKey(h.event), h.now)
    && ElapsedSeconds(hs[i].event.attr.timestamp, h.event.attr.timestamp) >= 0
  }

  /** Departure j ends the dwell that arrival i began. */
  predicate Pairs(hs: seq<TimedStop>, i: int, j: int) {
    0 <= j < |hs| && Ends(hs[..j], i, hs[j])
  }

  lemma LatestNext(hs: seq<TimedStop>, h: TimedStop, key: string)
    ensures Touches(h, key) ==> IsLatest(hs + [h], |hs|, key)
    ensures forall i :: IsLatest(hs + [h], i, key) <==> if Touches(h, key) then i == |hs| else IsLatest(hs, i, key)
  {
    var hs' := hs + [h];
    assert hs'[|hs|] == h;
    forall i ensures IsLatest(hs', i, key) <==> if Touches(h, key) then i == |hs| else IsLatest(hs, i, key) {
      if 0 <= i < |hs| {
        assert hs'[i] == hs[i];
        if IsLatest(hs', i, key) {
          assert forall j :: i < j < |hs| ==> hs'[j] == hs[j];
        }
      }
    }
  }

  /** What the store holds under a key is the pending arrival, if there is one. */
  ghost predicate HoldsPending(s: States, hs: seq<TimedStop>, key: string, now: int) {
    && (forall i, t :: now <= t && Pending(hs, i, key, t) ==> Lookup(s, key, t) == Some(StopMsg(hs[i].event)))
    && (forall t :: now <= t && Lookup(s, key, t).Some? ==> exists i :: Pending(hs, i, key, t))
  }

  lemma HoldsPendingNext(s: States, hs: seq<TimedStop>, h: TimedStop, key: string)
    requires HoldsPending(s, hs, key, h.now)
    ensures HoldsPending(After(s, DwellCall(h)), hs + [h], key, h.now)
  {
    var hs', s' := hs + [h], After(s, DwellCall(h));
    LatestNext(hs, h, key);
    forall i, t | h.now <= t && Pending(hs', i, key, t)
      ensures Lookup(s', key, t) == Some(StopMsg(hs'[i].event))
    {
      if !Touches(h, key) {
        assert Pending(hs, i, key, t);
      }
    }
    forall t | h.now <= t && Lookup(s', key, t).Some?
      ensures exists i :: Pending(hs', i, key, t)
    {
      if Touches(h, key) {
        assert h.event.eventType == Arrival;
        assert Pending(hs', |hs|, key, t);
      } else {
        assert Lookup(s, key, t).Some?;
        var i :| Pending(hs, i, key, t);
        assert Pending(hs', i, key, t);
      }
    }
  }

  lemma {:induction false} StoreHoldsPending(hs: seq<TimedStop>, key: string, now: int)
    requires InOrder(hs)
    requires forall i :: 0 <= i < |hs| ==> hs[i].now <= now
    ensures HoldsPending(Final(map[], DwellCalls(hs)), hs, key, now)
  {
    if hs != [] {
      var before, h := hs[..|hs| - 1], hs[|hs| - 1];
      assert hs == before + [h];
      StoreHoldsPending(before, key, h.now);
      DwellCallsNext(before, h);
      ServeNext(map[], DwellCalls(before), DwellCall(h));
      HoldsPendingNext(Final(map[], DwellCalls(before)), before, h, key);
    }
  }

  lemma DwellServed(s: States, hs: seq<TimedStop>, h: TimedStop)
    requires HoldsPending(s, hs, DwellKey(h.event), h.now)
    ensures var emitted := Serve(s, DwellCall(h)).emitted;
            && (emitted != [] <==> exists i :: Ends(hs, i, h))
            && forall i :: Ends(hs, i, h) ==> emitted == [OfDwell(MakeDwell(hs[i].event, h.event))]
  {
    var key := DwellKey(h.event);
    if Serve(s, DwellCall(h)).emitted != [] {
      var i :| Pending(hs, i, key, h.now);
      assert Ends(hs, i, h);
    }
  }

  /** The processor emits at j exactly when some arrival pairs with j, and then it emits that one pair. */
  lemma DwellPairsOffline(hs: seq<TimedStop>, j: nat)
    requires InOrder(hs) && j < |hs|
    ensures var emitted := Trace(map[], DwellCalls(hs))[j].emitted;
            && (emitted != [] <==> exists i :: Pairs(hs, i, j))
            && forall i :: Pairs(hs, i, j) ==> emitted == [OfDwell(MakeDwell(hs[i].event, hs[j].event))]
  {
    assert DwellCalls(hs)[..j] == DwellCalls(hs[..j]);
    TraceAt(map[], DwellCalls(hs), j);
    StoreHoldsPending(hs[..j], DwellKey(hs[j].event), hs[j].now);
    DwellServed(Final(map[], DwellCalls(hs[..j])), hs[..j], hs[j]);
    if i :| Ends(hs[..j], i, hs[j]) {
      assert Pairs(hs, i, j);
    }
  }

  lemma LaterPairDiffers(hs: seq<TimedStop>, i: int, j: int, i': int, j': int)
    requires Pairs(hs, i, j) && Pairs(hs, i', j') && j < j'
    ensures i != i'
  {
    assert hs[..j][i] == hs[i] && hs[..j'][i'] == hs[i'] && hs[..j'][j] == hs[j];
  }

  /** Each arrival is used in at most one dwell event, and so is each departure. */
  lemma PairingIsOneToOne(hs: seq<TimedStop>, i: int, j: int, i': int, j': int)
    requires Pairs(hs, i, j) && Pairs(hs, i', j')
    ensures i == i' <==> j == j'
  {
    if j < j' {
      LaterPairDiffers(hs, i, j, i', j');
    } else if j' < j {
      LaterPairDiffers(hs, i', j', i, j);
    }
  }

  // ---- One vehicle ----

  predicate SameService(p: Position, q: Position) {
    && p.attr.agencyId == q.attr.agencyId
    && p.attr.routeId == q.attr.routeId
    && p.attr.directionId == q.attr.directionId
  }

  /** The vehicle's agency, route and direction do not change. */
  predicate OneService(ss: seq<Sighting>) {
    forall s, s' :: s in ss && s' in ss ==> SameService(s.position, s'.position)
  }

  predicate SightedInOrder(ss: seq<Sighting>) {
    forall i, j :: 0 <= i < j < |ss| ==> ss[i].now <= ss[j].now
  }

  /** The key of a vehicle's visit to a stop. */
  function VisitKey(s: Sighting, stopId: string): string {
    var a := s.position.attr;
    Join([a.agencyId, a.routeId, stopId, a.directionId, a.vehicleId])
  }

  lemma VisitKeyTellsStops(s: Sighting, stopId: string, stopId': string)
    ensures VisitKey(s, stopId) == VisitKey(s, stopId') <==> stopId == stopId'
  {
    if VisitKey(s, stopId) == VisitKey(s, stopId') {
      var a := s.position.attr;
      JoinTellsField([a.agencyId, a.routeId, stopId, a.directionId, a.vehicleId],
                     [a.agencyId, a.routeId, stopId', a.directionId, a.vehicleId], 2);
      assert [a.agencyId, a.routeId, stopId, a.directionId, a.vehicleId][2] == stopId;
    }
  }

  ghost predicate PairsAdjacent(es: seq<TimedStop>) {
    forall i, j :: Pairs(es, i, j) ==> i == j - 1
  }

  /**
   Pairs are adjacent so far; and if the vehicle stands at a stop, an arrival there that a departure
   could still pair with is the last event.
   */
  ghost predicate Adjacent(es: seq<TimedStop>, last: Sighting) {
    && (forall e :: e in es ==> e.now <= last.now)
    && PairsAdjacent(es)
    && (Stopped(last) ==> LastIfPending(es, VisitKey(last, last.position.attr.stopId), last.now))
  }

  ghost predicate LastIfPending(es: seq<TimedStop>, key: string, now: int) {
    forall i :: Pending(es, i, key, now) ==> i == |es| - 1
  }

  /** An event that pairs with nothing but the last event keeps pairs adjacent. */
  lemma PairsNext(es: seq<TimedStop>, e: TimedStop)
    requires PairsAdjacent(es)
    requires e.event.eventType == Departure ==> LastIfPending(es, DwellKey(e.event), e.now)
    ensures PairsAdjacent(es + [e])
  {
    var es' := es + [e];
    forall i, j | Pairs(es', i, j) ensures i == j - 1 {
      if j < |es| {
        assert es'[..j] == es[..j] && es'[j] == es[j] && es'[i] == es[i];
        assert Pairs(es, i, j);
      } else {
        assert es'[..j] == es;
        assert Pending(es, i, DwellKey(e.event), e.now);
      }
    }
  }

  lemma FreshIsLast(es: seq<TimedStop>, e: TimedStop, now: int)
    requires e.event.eventType == Arrival
    ensures LastIfPending(es + [e], DwellKey(e.event), now)
  {
    LatestNext(es, e, DwellKey(e.event));
  }

  /** An UNKNOWN sighting, and within the hour the vehicle stands at a stop: no arrival is sent for it. */
  predicate Unannounced(prev: Sighting, cur: Sighting) {
    !Lapsed(prev, cur) && prev.position.attr.stopStatus == Unknown && Stopped(cur)
  }

  /** If the step is unannounced, an arrival still pending at the stop reached is the last event. */
  ghost predicate NotStale(es: seq<TimedStop>, prev: Sighting, cur: Sighting) {
    Unannounced(prev, cur) ==> LastIfPending(es, VisitKey(cur, cur.position.attr.stopId), cur.now)
  }

  predicate StepOf(prev: Sighting, cur: Sighting, v: string) {
    && v != "" && Names(prev, v) && Names(cur, v)
    && SameService(prev.position, cur.position) && prev.now <= cur.now
  }

  lemma QuietStep(es: seq<TimedStop>, prev: Sighting, cur: Sighting, v: string)
    requires StepOf(prev, cur, v) && Adjacent(es, prev) && Sent(prev, cur) == []
    ensures Adjacent(es, cur) <==> NotStale(es, prev, cur)
  {
    SentTable(prev, cur, v);
    var left, reached := prev.position.attr.stopId, cur.position.attr.stopId;
    if Stopped(cur) && !Unannounced(prev, cur) {
      forall i | Pending(es, i, VisitKey(cur, reached), cur.now) ensures i == |es| - 1 {
        assert es[i] in es && !Lapsed(prev, cur);
        assert Pending(es, i, VisitKey(prev, left), prev.now);
      }
    }
  }

  lemma EventfulStep(es: seq<TimedStop>, prev: Sighting, cur: Sighting, v: string)
    requires StepOf(prev, cur, v) && Adjacent(es, prev) && Sent(prev, cur) != []
    ensures Adjacent(es + Sent(prev, cur), cur)
  {
    SentTable(prev, cur, v);
    var sent, left := Sent(prev, cur), prev.position.attr.stopId;
    var a := sent[0];
    if a.event.eventType == Departure {
      assert DwellKey(a.event) == VisitKey(prev, left);
      assert LastIfPending(es, DwellKey(a.event), prev.now);
      assert forall i :: Pending(es, i, DwellKey(a.event), cur.now) ==> Pending(es, i, DwellKey(a.event), prev.now);
    }
    PairsNext(es, a);
    if |sent| == 1 {
      assert es + sent == es + [a];
      if Stopped(cur) {
        FreshIsLast(es, a, cur.now);
      }
    } else {
      var b := sent[1];
      assert es + sent == es + [a] + [b];
      if b.event.eventType == Departure {
        FreshIsLast(es, a, cur.now);
      } else {
        FreshIsLast(es + [a], b, cur.now);
      }
      PairsNext(es + [a], b);
    }
  }

  /** One more sighting never pairs past a neighbour, and only a stale unannounced stop makes it possible later. */
  lemma AdjacentStep(es: seq<TimedStop>, prev: Sighting, cur: Sighting, v: string)
    requires StepOf(prev, cur, v) && Adjacent(es, prev)
    ensures PairsAdjacent(es + Sent(prev, cur))
    ensures Adjacent(es + Sent(prev, cur), cur) <==> NotStale(es, prev, cur)
  {
    if Sent(prev, cur) == [] {
      assert es + Sent(prev, cur) == es;
      QuietStep(es, prev, cur, v);
    } else {
      EventfulStep(es, prev, cur, v);
      SentTable(prev, cur, v);
    }
  }

  /** Sightings of v in time order, its service unchanged. */
  predicate Orderly(ss: seq<Sighting>, v: string) {
    ss != [] && Sighted(ss, v) && OneService(ss) && SightedInOrder(ss)
  }

  /** The vehicle never stands unannounced at a stop where an arrival other than its last event is still pending. */
  ghost predicate NoStaleStop(ss: seq<Sighting>) {
    forall n :: 0 < n < |ss| ==> NotStale(Watched(ss[..n]), ss[n - 1], ss[n])
  }

  lemma OrderlyBefore(ss: seq<Sighting>, n: nat, v: string)
    requires Orderly(ss, v) && 0 < n <= |ss|
    ensures Orderly(ss[..n], v)
  {
    assert forall s :: s in ss[..n] ==> s in ss;
  }

  lemma OrderlyNext(ss: seq<Sighting>, n: nat, v: string)
    requires Orderly(ss, v) && 0 < n < |ss|
    ensures Orderly(ss[..n], v) && Last(ss[..n]) == ss[n - 1] && StepOf(ss[n - 1], ss[n], v)
  {
    OrderlyBefore(ss, n, v);
    assert ss[n - 1] in ss && ss[n] in ss;
  }

  lemma NoStaleStopBefore(ss: seq<Sighting>, n: nat)
    requires n <= |ss| && NoStaleStop(ss)
    ensures NoStaleStop(ss[..n])
  {
    forall m | 0 < m < n ensures NotStale(Watched(ss[..n][..m]), ss[..n][m - 1], ss[..n][m]) {
      assert ss[..n][..m] == ss[..m];
    }
  }

  lemma {:induction false} WatchedPairsAreAdjacent(ss: seq<Sighting>, v: string)
    requires Orderly(ss, v) && NoStaleStop(ss)
    ensures Adjacent(Watched(ss), Last(ss))
  {
    var n := |ss| - 1;
    if n > 0 {
      OrderlyNext(ss, n, v);
      NoStaleStopBefore(ss, n);
      WatchedPairsAreAdjacent(ss[..n], v);
      AdjacentStep(Watched(ss[..n]), ss[n - 1], ss[n], v);
    }
  }

  /** Whatever the vehicle's next sighting is, it leaves pairs adjacent. */
  ghost predicate SafeNext(ss: seq<Sighting>, v: string) {
    forall s :: Orderly(ss + [s], v) ==> PairsAdjacent(Watched(ss + [s]))
  }

  /** The vehicle leaves the stop where last has it, at the given time. */
  function Leaving(last: Sighting, timestamp: Option<int>): Sighting {
    Sighting(Position(last.position.attr.(stopStatus := InTransitTo, timestamp := timestamp)), last.now)
  }

  lemma LeavingIsOrderly(ss: seq<Sighting>, timestamp: Option<int>, v: string)
    requires Orderly(ss, v)
    ensures Orderly(ss + [Leaving(Last(ss), timestamp)], v)
  {
    var next := Leaving(Last(ss), timestamp);
    assert Last(ss) in ss;
    assert forall s :: s in ss + [next] ==> s in ss || s == next;
  }

  lemma LeavingPairs(es: seq<TimedStop>, i: int, last: Sighting, v: string)
    requires v != "" && Names(last, v) && Stopped(last)
    requires Pending(es, i, VisitKey(last, last.position.attr.stopId), last.now)
    ensures Pairs(es + Sent(last, Leaving(last, es[i].event.attr.timestamp)), i, |es|)
  {
    var next := Leaving(last, es[i].event.attr.timestamp);
    SentTable(last, next, v);
    var d := Announced(next, last.position.attr.stopId, Departure);
    assert (es + [d])[..|es|] == es && (es + [d])[|es|] == d;
  }

  /** A pending arrival that is not the last event pairs with the departure, if the vehicle now leaves. */
  lemma PendingMispairs(ss: seq<Sighting>, i: int, v: string)
    requires Orderly(ss, v) && Stopped(Last(ss))
    requires Pending(Watched(ss), i, VisitKey(Last(ss), Last(ss).position.attr.stopId), Last(ss).now)
    requires i != |Watched(ss)| - 1
    ensures !SafeNext(ss, v)
  {
    var es, last := Watched(ss), Last(ss);
    var next := Leaving(last, es[i].event.attr.timestamp);
    assert last in ss;
    LeavingIsOrderly(ss, es[i].event.attr.timestamp, v);
    LeavingPairs(es, i, last, v);
    WatchNext(ss, next);
    assert !PairsAdjacent(Watched(ss + [next]));
  }

  lemma QuietNext(ss: seq<Sighting>, s: Sighting)
    requires ss != [] && Sent(Last(ss), s) == []
    ensures Watched(ss + [s]) == Watched(ss)
  {
    WatchNext(ss, s);
    assert Watched(ss) + [] == Watched(ss);
  }

  lemma StaleStopMispairs(ss: seq<Sighting>, s: Sighting, v: string)
    requires ss != [] && Orderly(ss + [s], v) && !NotStale(Watched(ss), Last(ss), s)
    ensures !SafeNext(ss + [s], v)
  {
    assert Last(ss) in ss + [s] && s in ss + [s];
    SentTable(Last(ss), s, v);
    QuietNext(ss, s);
    var i :| Pending(Watched(ss), i, VisitKey(s, s.position.attr.stopId), s.now) && i != |Watched(ss)| - 1;
    PendingMispairs(ss + [s], i, v);
  }

  lemma NextIsSafe(ss: seq<Sighting>, v: string)
    requires ss != [] && NoStaleStop(ss)
    ensures SafeNext(ss, v)
  {
    forall s | Orderly(ss + [s], v) ensures PairsAdjacent(Watched(ss + [s])) {
      OrderlyNext(ss + [s], |ss|, v);
      assert (ss + [s])[..|ss|] == ss;
      WatchedPairsAreAdjacent(ss, v);
      AdjacentStep(Watched(ss), Last(ss), s, v);
      WatchNext(ss, s);
    }
  }

  /** However any beginning of the run goes on, pairs are adjacent. */
  ghost predicate AlwaysSafe(ss: seq<Sighting>, v: string) {
    forall n :: 0 < n <= |ss| ==> SafeNext(ss[..n], v)
  }

  lemma SafeStopIsNotStale(before: seq<Sighting>, s: Sighting, v: string)
    requires before != [] && Orderly(before + [s], v) && SafeNext(before + [s], v)
    ensures NotStale(Watched(before), Last(before), s)
  {
    if !NotStale(Watched(before), Last(before), s) {
      StaleStopMispairs(before, s, v);
    }
  }

  lemma SafeRunIsNotStaleAt(ss: seq<Sighting>, n: nat, v: string)
    requires 0 < n < |ss| && Orderly(ss[..n + 1], v) && SafeNext(ss[..n + 1], v)
    ensures NotStale(Watched(ss[..n]), ss[n - 1], ss[n])
  {
    var before := ss[..n];
    assert ss[..n + 1] == before + [ss[n]] && Last(before) == ss[n - 1];
    SafeStopIsNotStale(before, ss[n], v);
  }

  /**
   A vehicle makes no stale stop exactly if, at each point of its run and whatever it is seen to do next, departures
   pair with nothing but the event directly before them.
   */
  lemma PairsAreAdjacentExactly(ss: seq<Sighting>, v: string)
    requires Orderly(ss, v)
    ensures NoStaleStop(ss) <==> AlwaysSafe(ss, v)
  {
    if NoStaleStop(ss) {
      forall n | 0 < n <= |ss| ensures SafeNext(ss[..n], v) {
        NoStaleStopBefore(ss, n);
        NextIsSafe(ss[..n], v);
      }
    }
    if AlwaysSafe(ss, v) {
      forall n | 0 < n < |ss| ensures NotStale(Watched(ss[..n]), ss[n - 1], ss[n]) {
        OrderlyBefore(ss, n + 1, v);
        SafeRunIsNotStaleAt(ss, n, v);
      }
    }
  }

  /** In particular, a vehicle whose stops are all announced makes no stale stop. */
  lemma AnnouncedStopsAreNotStale(ss: seq<Sighting>)
    requires forall n :: 0 < n < |ss| ==> !Unannounced(ss[n - 1], ss[n])
    ensures NoStaleStop(ss)
  {
  }

  // ---- The pipeline ----

  /** The stop events of a vehicle among those handed to the dwell processor. */
  function HandedOver(calls: seq<Call>, v: string): seq<TimedStop> {
    if calls == [] then []
    else
      var c := calls[|calls| - 1];
      HandedOver(calls[..|calls| - 1], v) + if DwellOf(c, v) then [TimedStop(c.task.event.value, c.now)] else []
  }

  predicate DwellOf(c: Call, v: string) {
    c.task.Dwell? && c.task.event.Some? && c.task.event.value.attr.vehicleId == v
  }

  function OfDwellOf(v: string): Call -> bool {
    (c: Call) => DwellOf(c, v)
  }

  lemma {:induction false} ChosenAreHandedOver(calls: seq<Call>, v: string)
    ensures Chosen(calls, OfDwellOf(v)) == DwellCalls(HandedOver(calls, v))
  {
    if calls != [] {
      var before, c := calls[..|calls| - 1], calls[|calls| - 1];
      ChosenAreHandedOver(before, v);
      if DwellOf(c, v) {
        DwellCallsNext(HandedOver(before, v), TimedStop(c.task.event.value, c.now));
      }
    }
  }

  lemma {:induction false} SightingsInOrder(calls: seq<Call>, v: string, now: int)
    requires Clocked(calls)
    requires forall c :: c in calls ==> c.now <= now
    ensures SightedInOrder(SightingsOf(calls, v))
    ensures forall s :: s in SightingsOf(calls, v) ==> s.now <= now
  {
    if calls != [] {
      var before, c := calls[..|calls| - 1], calls[|calls| - 1];
      SightingsInOrder(before, v, c.now);
    }
  }

  lemma {:induction false} HandedOverInOrder(calls: seq<Call>, v: string, now: int)
    requires Clocked(calls)
    requires forall c :: c in calls ==> c.now <= now
    ensures InOrder(HandedOver(calls, v))
    ensures forall h :: h in HandedOver(calls, v) ==> h.now <= now
  {
    if calls != [] {
      var before, c := calls[..|calls| - 1], calls[|calls| - 1];
      HandedOverInOrder(before, v, c.now);
    }
  }

  /**
   The dwell processor gets every stop event of v at the clock reading it was sent, and nothing else uses the keys
   of v; calls of other vehicles and processors come in between as they like.
   */
  ghost predicate Connected(calls: seq<Call>, v: string) {
    && Clocked(calls) && OwnKey(calls, v) && Isolated(calls, OfDwellOf(v))
    && HandedOver(calls, v) == StopsOf(Trace(map[], calls), v)
  }

  /** A connected run with orderly sightings of v, if any. */
  ghost predicate Pipelined(calls: seq<Call>, v: string) {
    && Connected(calls, v)
    && Sighted(SightingsOf(calls, v), v)
    && OneService(SightingsOf(calls, v))
  }

  lemma VehicleDwellsAreIsolated(calls: seq<Call>, v: string)
    requires FaithfulKeys(calls)
    ensures Isolated(calls, OfDwellOf(v))
  {
    forall c, d | c in calls && d in calls && Keyed(c) && Keyed(d) && Key(c) == Key(d) && DwellOf(c, v)
      ensures DwellOf(d, v)
    {
      var e := c.task.event.value;
      assert SubjectOf(d.task) == Some(Subject(DwellKind, DwellFields(e)));
      assert DwellFields(e)[4] == v;
    }
  }

  /** The dwell calls for v on the shared store are those of a lone processor handed Watched. */
  lemma PipelineProjects(calls: seq<Call>, v: string)
    requires Connected(calls, v)
    ensures StopsOf(Trace(map[], calls), v) == Watched(SightingsOf(calls, v))
    ensures ChosenSteps(Trace(map[], calls), OfDwellOf(v)) == Trace(map[], DwellCalls(Watched(SightingsOf(calls, v))))
  {
    VehicleIsWatchedAlone(calls, v);
    Projection(calls, OfDwellOf(v));
    ChosenAreHandedOver(calls, v);
  }

  lemma PipelineInOrder(calls: seq<Call>, v: string)
    requires Connected(calls, v)
    ensures SightedInOrder(SightingsOf(calls, v)) && InOrder(Watched(SightingsOf(calls, v)))
  {
    VehicleIsWatchedAlone(calls, v);
    if calls != [] {
      SightingsInOrder(calls, v, calls[|calls| - 1].now);
      HandedOverInOrder(calls, v, calls[|calls| - 1].now);
    }
  }

  /** The event carries the service and the vehicle of a sighting. */
  predicate Carries(e: TimedStop, s: Sighting) {
    SameService(s.position, Position(e.event.attr)) && e.event.attr.vehicleId == s.position.attr.vehicleId
  }

  lemma SentCarries(prev: Sighting, cur: Sighting, v: string)
    requires v != "" && Names(prev, v) && Names(cur, v)
    ensures forall e :: e in Sent(prev, cur) ==> Carries(e, cur)
  {
    SentTable(prev, cur, v);
  }

  lemma {:induction false} WatchedFields(ss: seq<Sighting>, v: string)
    requires Sighted(ss, v) && OneService(ss) && ss != []
    ensures forall e :: e in Watched(ss) ==> Carries(e, ss[0])
  {
    var n := |ss| - 1;
    if n > 0 {
      WatchedFields(ss[..n], v);
      assert Names(ss[n - 1], v) && Names(ss[n], v) && Names(ss[0], v);
      assert SameService(ss[0].position, ss[n].position);
      SentCarries(ss[n - 1], ss[n], v);
    }
  }

  lemma WatchedKeys(ss: seq<Sighting>, v: string)
    requires Sighted(ss, v) && OneService(ss) && Watched(ss) != []
    ensures ss != [] && forall e :: e in Watched(ss) ==> DwellKey(e.event) == VisitKey(ss[0], e.event.attr.stopId)
  {
    WatchedFields(ss, v);
    assert Names(ss[0], v);
  }

  /** The vehicle was seen to arrive at a stop and, as the next thing within the hour, to leave that stop no earlier. */
  predicate Stay(es: seq<TimedStop>, j: int) {
    && 0 < j < |es|
    && es[j - 1].event.eventType == Arrival && es[j].event.eventType == Departure
    && es[j - 1].event.attr.stopId == es[j].event.attr.stopId
    && es[j].now <= es[j - 1].now + HOUR
    && ElapsedSeconds(es[j - 1].event.attr.timestamp, es[j].event.attr.timestamp) >= 0
  }

  /** The events' dwell keys differ only in the stop. */
  ghost predicate KeyedByStop(es: seq<TimedStop>, s: Sighting) {
    forall e :: e in es ==> DwellKey(e.event) == VisitKey(s, e.event.attr.stopId)
  }

  /** Neighbouring events pair exactly if they make up a stay. */
  lemma StaysPair(es: seq<TimedStop>, s: Sighting, j: int)
    requires KeyedByStop(es, s)
    ensures Pairs(es, j - 1, j) <==> Stay(es, j)
  {
    if 0 < j < |es| {
      assert es[j - 1] in es && es[j] in es && es[..j][j - 1] == es[j - 1];
      VisitKeyTellsStops(s, es[j - 1].event.attr.stopId, es[j].event.attr.stopId);
    }
  }

  /** The dwell of the stay that es[j - 1] and es[j] make up, if they do. */
  function DwellAt(es: seq<TimedStop>, j: int): seq<Event> {
    if Stay(es, j) then [OfDwell(MakeDwell(es[j - 1].event, es[j].event))] else []
  }

  /** Step j, the answer to es[j], sends the dwell at j. */
  ghost predicate SendsStays(steps: seq<Step>, es: seq<TimedStop>) {
    && |steps| == |es|
    && forall j :: 0 <= j < |es| ==> steps[j].emitted == DwellAt(es, j)
  }

  lemma StayIsSent(es: seq<TimedStop>, s: Sighting, j: nat)
    requires InOrder(es) && KeyedByStop(es, s) && PairsAdjacent(es) && j < |es|
    ensures Trace(map[], DwellCalls(es))[j].emitted == DwellAt(es, j)
  {
    DwellPairsOffline(es, j);
    StaysPair(es, s, j);
  }

  lemma SkippingPairIsSent(es: seq<TimedStop>, s: Sighting, i: int, j: int)
    requires InOrder(es) && KeyedByStop(es, s) && Pairs(es, i, j) && i != j - 1
    ensures !SendsStays(Trace(map[], DwellCalls(es)), es)
  {
    DwellPairsOffline(es, j);
    if Stay(es, j) {
      StaysPair(es, s, j);
      PairingIsOneToOne(es, i, j, j - 1, j);
      assert false;
    }
  }

  /** The processor sends exactly the stays, if and only if events pair with their neighbours alone. */
  lemma StaysAreSent(es: seq<TimedStop>, s: Sighting)
    requires InOrder(es) && KeyedByStop(es, s)
    ensures SendsStays(Trace(map[], DwellCalls(es)), es) <==> PairsAdjacent(es)
  {
    if PairsAdjacent(es) {
      forall j | 0 <= j < |es|
        ensures Trace(map[], DwellCalls(es))[j].emitted == DwellAt(es, j)
      {
        StayIsSent(es, s, j);
      }
    } else {
      var i, j :| Pairs(es, i, j) && i != j - 1;
      SkippingPairIsSent(es, s, i, j);
    }
  }

  lemma WatchedStays(ss: seq<Sighting>, v: string)
    requires Sighted(ss, v) && OneService(ss) && SightedInOrder(ss) && InOrder(Watched(ss))
    ensures SendsStays(Trace(map[], DwellCalls(Watched(ss))), Watched(ss)) <==> PairsAdjacent(Watched(ss))
    ensures NoStaleStop(ss) ==> PairsAdjacent(Watched(ss))
  {
    if Watched(ss) != [] {
      WatchedKeys(ss, v);
      StaysAreSent(Watched(ss), ss[0]);
      if NoStaleStop(ss) {
        WatchedPairsAreAdjacent(ss, v);
      }
    }
  }

  /**
   What the dwell processor sends for a vehicle are exactly its stays, each from one of its stop events to the next:
   in any interleaving, with sweeps anywhere, and across expiry, unless the vehicle makes a stale stop.
   */
  lemma DwellEndToEnd(calls: seq<Call>, v: string)
    requires Pipelined(calls, v)
    ensures var steps, es := ChosenSteps(Trace(map[], calls), OfDwellOf(v)), StopsOf(Trace(map[], calls), v);
            && (SendsStays(steps, es) <==> PairsAdjacent(es))
            && (NoStaleStop(SightingsOf(calls, v)) ==> SendsStays(steps, es))
  {
    PipelineProjects(calls, v);
    PipelineInOrder(calls, v);
    WatchedStays(SightingsOf(calls, v), v);
  }

  // ---- Total dwell ----

  function TimeOf(s: Sighting): int {
    AsTime(s.position.attr.timestamp)
  }

  predicate TimestampsRise(ss: seq<Sighting>) {
    forall i, j :: 0 <= i < j < |ss| ==> TimeOf(ss[i]) <= TimeOf(ss[j])
  }

  function EventTime(e: TimedStop): int {
    AsTime(e.event.attr.timestamp)
  }

  predicate EventTimesRise(es: seq<TimedStop>) {
    forall i, j :: 0 <= i < j < |es| ==> EventTime(es[i]) <= EventTime(es[j])
  }

  lemma RisesOn(es: seq<TimedStop>, sent: seq<TimedStop>, now: int)
    requires EventTimesRise(es) && forall e :: e in es ==> EventTime(e) <= now
    requires forall e :: e in sent ==> EventTime(e) == now
    ensures EventTimesRise(es + sent)
  {
    var all := es + sent;
    forall i, j | 0 <= i < j < |all| ensures EventTime(all[i]) <= EventTime(all[j]) {
      if j < |es| {
        assert all[i] == es[i] && all[j] == es[j];
      } else {
        assert all[j] in sent && (all[i] in es || all[i] in sent);
      }
    }
  }

  lemma {:induction false} WatchedTimesRise(ss: seq<Sighting>, v: string)
    requires ss != [] && Sighted(ss, v) && TimestampsRise(ss)
    ensures EventTimesRise(Watched(ss)) && TimeOf(ss[0]) <= TimeOf(Last(ss))
    ensures forall e :: e in Watched(ss) ==> TimeOf(ss[0]) <= EventTime(e) <= TimeOf(Last(ss))
  {
    var n := |ss| - 1;
    if n > 0 {
      WatchedTimesRise(ss[..n], v);
      assert Names(ss[n - 1], v) && Names(ss[n], v);
      SentTable(ss[n - 1], ss[n], v);
      assert TimeOf(ss[n - 1]) <= TimeOf(ss[n]) && TimeOf(ss[0]) <= TimeOf(ss[n]);
      RisesOn(Watched(ss[..n]), Sent(ss[n - 1], ss[n]), TimeOf(ss[n]));
    }
  }

  /** The time between neighbouring events that do not make up a stay. */
  function Away(es: seq<TimedStop>): int {
    if |es| <= 1 then 0
    else
      var n := |es| - 1;
      Away(es[..n]) + if Stay(es, n) then 0 else EventTime(es[n]) - EventTime(es[n - 1])
  }

  lemma DwellSecondsAt(es: seq<TimedStop>, n: nat)
    requires n < |es|
    ensures Seconds(DwellAt(es, n)) == if Stay(es, n) then EventTime(es[n]) - EventTime(es[n - 1]) else 0
  {
    if Stay(es, n) {
      var dwell := OfDwell(MakeDwell(es[n - 1].event, es[n].event));
      assert DwellAt(es, n) == [dwell] && [dwell][1..] == [];
    }
  }

  lemma StayBefore(es: seq<TimedStop>, n: nat, j: nat)
    requires j < n <= |es|
    ensures DwellAt(es[..n], j) == DwellAt(es, j)
  {
    assert es[..n][j] == es[j];
    if j > 0 {
      assert es[..n][j - 1] == es[j - 1];
    }
  }

  lemma SendsStaysBefore(steps: seq<Step>, es: seq<TimedStop>, n: nat)
    requires n <= |es| && SendsStays(steps, es)
    ensures SendsStays(steps[..n], es[..n])
  {
    forall j | 0 <= j < n ensures steps[..n][j].emitted == DwellAt(es[..n], j) {
      StayBefore(es, n, j);
    }
  }

  /** Dwell seconds and the time away together span the events, whatever the order of the timestamps. */
  lemma {:induction false} DwellsTelescope(steps: seq<Step>, es: seq<TimedStop>)
    requires es != [] && SendsStays(steps, es)
    ensures TotalSeconds(steps) + Away(es) == EventTime(es[|es| - 1]) - EventTime(es[0])
  {
    var n := |es| - 1;
    DwellSecondsAt(es, n);
    if n > 0 {
      SendsStaysBefore(steps, es, n);
      DwellsTelescope(steps[..n], es[..n]);
    } else {
      assert steps[..0] == [];
    }
  }

  lemma {:induction false} AwayIsNotNegative(es: seq<TimedStop>)
    requires EventTimesRise(es)
    ensures Away(es) >= 0
  {
    var n := |es| - 1;
    if n > 0 {
      AwayIsNotNegative(es[..n]);
      assert EventTime(es[n - 1]) <= EventTime(es[n]);
    }
  }

  lemma DwellsWithin(steps: seq<Step>, es: seq<TimedStop>, first: int, last: int)
    requires EventTimesRise(es) && SendsStays(steps, es)
    requires first <= last && forall e :: e in es ==> first <= EventTime(e) <= last
    ensures TotalSeconds(steps) <= last - first
  {
    if es != [] {
      DwellsTelescope(steps, es);
      AwayIsNotNegative(es);
      assert es[0] in es && es[|es| - 1] in es;
    }
  }

  /** A vehicle's dwell seconds sum to at most the time from its first to its last sighting. */
  lemma TotalDwellIsBounded(calls: seq<Call>, v: string)
    requires Pipelined(calls, v) && NoStaleStop(SightingsOf(calls, v))
    requires SightingsOf(calls, v) != [] && TimestampsRise(SightingsOf(calls, v))
    ensures TotalSeconds(ChosenSteps(Trace(map[], calls), OfDwellOf(v)))
            <= TimeOf(Last(SightingsOf(calls, v))) - TimeOf(SightingsOf(calls, v)[0])
  {
    var ss := SightingsOf(calls, v);
    DwellEndToEnd(calls, v);
    VehicleIsWatchedAlone(calls, v);
    WatchedTimesRise(ss, v);
    DwellsWithin(ChosenSteps(Trace(map[], calls), OfDwellOf(v)), Watched(ss), TimeOf(ss[0]), TimeOf(Last(ss)));
  }
}
