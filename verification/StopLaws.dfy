/**
 What the stop event processor does over whole runs. VehicleIsWatchedAlone takes every run on a shared store
 to a store-free account of one vehicle (Watched); the laws after it are about that account.
 */
module StopLaws {
  import opened Events
  import opened Keys
  import opened StateStore
  import opened StopEvents
  import opened Engine

  datatype Sighting = Sighting(position: Position, now: int)

  datatype TimedStop = TimedStop(event: StopEvent, now: int)

  predicate Sights(c: Call, v: string) {
    c.task.Observe? && c.task.position.attr.vehicleId == v
  }

  /** The sightings of a vehicle among the calls. */
  function SightingsOf(calls: seq<Call>, v: string): seq<Sighting> {
    if calls == [] then []
    else
      var c := calls[|calls| - 1];
      SightingsOf(calls[..|calls| - 1], v) +
      if Sights(c, v) then [Sighting(c.task.position, c.now)] else []
  }

  /** The stop events among those sent at a clock reading. */
  function Stamped(events: seq<Event>, now: int): seq<TimedStop> {
    if events == [] then []
    else (if events[0].OfStop? then [TimedStop(events[0].stop, now)] else []) + Stamped(events[1..], now)
  }

  /** The stop events sent on sightings of a vehicle. */
  function StopsOf(steps: seq<Step>, v: string): seq<TimedStop> {
    if steps == [] then []
    else
      var c := steps[|steps| - 1];
      StopsOf(steps[..|steps| - 1], v) +
      if Sights(c.call, v) then Stamped(c.emitted, c.call.now) else []
  }

  /** The vehicle was out of sight for more than an hour. */
  predicate Lapsed(prev: Sighting, cur: Sighting) {
    cur.now > prev.now + HOUR
  }

  /** What a sighting gives rise to, after the one before it. */
  function Inferred(prev: Sighting, cur: Sighting): seq<Event> {
    if Lapsed(prev, cur) then [] else Transition(prev.position, cur.position)
  }

  function Sent(prev: Sighting, cur: Sighting): seq<TimedStop> {
    Stamped(Inferred(prev, cur), cur.now)
  }

  /** The stop events of one vehicle, from its consecutive sightings alone. */
  function Watched(ss: seq<Sighting>): seq<TimedStop> {
    if |ss| <= 1 then []
    else
      var n := |ss| - 1;
      Watched(ss[..n]) + Sent(ss[n - 1], ss[n])
  }

  /** The vehicle's key is not the key of another processor's call. */
  ghost predicate OwnKey(calls: seq<Call>, v: string) {
    v != "" && forall c :: c in calls && Keyed(c) && Key(c) == v ==> c.task.Observe?
  }

  lemma HyphenFreeVehicleOwnsItsKey(calls: seq<Call>, v: string)
    requires v != "" && HyphenFree(v)
    ensures OwnKey(calls, v)
  {
    forall c | c in calls && Keyed(c) && !c.task.Observe?
      ensures Key(c) != v
    {
      var fields := SubjectOf(c.task).value.fields;
      assert Key(c)[|fields[0]|] == '-';
    }
  }

  /** What the store holds for a vehicle last sighted as the end of ss. */
  function LastSeen(ss: seq<Sighting>, now: int): Option<Message> {
    if ss != [] && now <= ss[|ss| - 1].now + HOUR then Some(PositionMsg(ss[|ss| - 1].position)) else None
  }

  lemma WatchNext(ss: seq<Sighting>, s: Sighting)
    ensures Watched(ss + [s]) == Watched(ss) + if ss == [] then [] else Sent(ss[|ss| - 1], s)
  {
    var longer := ss + [s];
    assert longer[..|ss|] == ss && longer[|ss|] == s;
    if ss != [] {
      assert longer[|ss| - 1] == ss[|ss| - 1];
    }
  }

  lemma StopsNext(steps: seq<Step>, c: Step, v: string)
    ensures StopsOf(steps + [c], v) == StopsOf(steps, v) +
                                       if Sights(c.call, v)
                                       then Stamped(c.emitted, c.call.now) else []
  {
    assert (steps + [c])[..|steps|] == steps;
  }

  /** At readings not before a sweep done so far, the store answers for v with the last sighting. */
  ghost predicate Remembers(s: States, v: string, ss: seq<Sighting>, done: seq<Call>) {
    forall t :: Past(done, t) ==> Lookup(s, v, t) == LastSeen(ss, t)
  }

  lemma SightingServed(s: States, c: Call, v: string, ss: seq<Sighting>, done: seq<Call>)
    requires v != "" && Sights(c, v) && Past(done, c.now) && Remembers(s, v, ss, done)
    ensures var ss' := ss + [Sighting(c.task.position, c.now)];
            && Serve(s, c).emitted == (if ss == [] then [] else Inferred(ss[|ss| - 1], ss'[|ss|]))
            && Remembers(After(s, c), v, ss', done + [c])
  {
    assert Lookup(s, v, c.now) == LastSeen(ss, c.now);
  }

  lemma OtherServed(s: States, c: Call, v: string, ss: seq<Sighting>, done: seq<Call>)
    requires !Sights(c, v) && (Keyed(c) && Key(c) == v ==> c.task.Observe?)
    requires Remembers(s, v, ss, done)
    ensures Remembers(After(s, c), v, ss, done + [c])
  {
    forall t | Past(done + [c], t) ensures Lookup(After(s, c), v, t) == LastSeen(ss, t) {
      assert c in done + [c] && forall x :: x in done ==> x in done + [c];
      assert Past(done, t) && Lookup(s, v, t) == LastSeen(ss, t);
    }
  }

  /** The stop events of v so far are those of its sightings so far. */
  ghost predicate WatchedIn(done: seq<Call>, v: string) {
    && StopsOf(Trace(map[], done), v) == Watched(SightingsOf(done, v))
    && Remembers(Final(map[], done), v, SightingsOf(done, v), done)
  }

  lemma WatchedNext(before: seq<Call>, c: Call, v: string)
    requires v != "" && (Keyed(c) && Key(c) == v ==> c.task.Observe?)
    requires WatchedIn(before, v) && Past(before, c.now)
    ensures WatchedIn(before + [c], v)
  {
    assert (before + [c])[..|before|] == before;
    var s, ss := Final(map[], before), SightingsOf(before, v);
    ServeNext(map[], before, c);
    StopsNext(Trace(map[], before), Serve(s, c), v);
    if Sights(c, v) {
      SightingServed(s, c, v, ss, before);
      WatchNext(ss, Sighting(c.task.position, c.now));
    } else {
      OtherServed(s, c, v, ss, before);
      assert SightingsOf(before + [c], v) == ss;
    }
  }

  lemma {:induction false} WatchedUpTo(calls: seq<Call>, n: nat, v: string)
    requires SweepsInTime(calls) && OwnKey(calls, v) && n <= |calls|
    ensures WatchedIn(calls[..n], v)
  {
    if n > 0 {
      assert calls[..n] == calls[..n - 1] + [calls[n - 1]];
      var c := calls[n - 1];
      assert c in calls;
      NextIsPast(calls, n - 1);
      WatchedUpTo(calls, n - 1, v);
      WatchedNext(calls[..n - 1], c, v);
    }
  }

  /** Whatever else shares the store, a vehicle's stop events are those of its own consecutive sightings. */
  lemma VehicleIsWatchedAlone(calls: seq<Call>, v: string)
    requires SweepsInTime(calls) && OwnKey(calls, v)
    ensures StopsOf(Trace(map[], calls), v) == Watched(SightingsOf(calls, v))
  {
    assert calls[..|calls|] == calls;
    WatchedUpTo(calls, |calls|, v);
  }
}
