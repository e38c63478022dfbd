/** Laws of one vehicle's stop events, as Watched gives them from its sightings. */
module VisitLaws {
  import opened Events
  import opened StateStore
  import opened StopEvents
  import opened Engine
  import opened StopLaws

  /** A sighting of the vehicle with a stop id, as the vehicle position processor sends them. */
  predicate Names(s: Sighting, v: string) {
    s.position.attr.vehicleId == v && s.position.attr.stopId != ""
  }

  predicate Sighted(ss: seq<Sighting>, v: string) {
    v != "" && forall s :: s in ss ==> Names(s, v)
  }

  predicate Stopped(s: Sighting) {
    s.position.attr.stopStatus == StoppedAt
  }

  /** One of the three statuses that GTFS Realtime declares. */
  predicate Declared(s: Sighting) {
    s.position.attr.stopStatus != Unknown
  }

  predicate DeclaredStatuses(ss: seq<Sighting>) {
    forall s :: s in ss ==> Declared(s)
  }

  /** The vehicle is never out of sight for more than an hour. */
  predicate Continuous(ss: seq<Sighting>) {
    forall i :: 0 < i < |ss| ==> ss[i].now <= ss[i - 1].now + HOUR
  }

  function Last(ss: seq<Sighting>): Sighting
    requires ss != []
  {
    ss[|ss| - 1]
  }

  /** The event sent for a sighting at a stop. */
  function Announced(cur: Sighting, stopId: string, eventType: StopEventType): TimedStop
    requires cur.position.attr.vehicleId != "" && stopId != ""
  {
    TimedStop(MakeStopEvent(cur.position, stopId, eventType).stop, cur.now)
  }

  lemma StampedPair(e: Event, f: Event, now: int)
    ensures Stamped([e], now) == if e.OfStop? then [TimedStop(e.stop, now)] else []
    ensures Stamped([e, f], now) == Stamped([e], now) + Stamped([f], now)
  {
    assert [e, f][1..] == [f];
  }

  /** The transition table, read off the statuses before and after. */
  lemma SentTable(prev: Sighting, cur: Sighting, v: string)
    requires v != "" && Names(prev, v) && Names(cur, v)
    ensures var left, reached := prev.position.attr.stopId, cur.position.attr.stopId;
            var before, after := prev.position.attr.stopStatus, cur.position.attr.stopStatus;
            Sent(prev, cur) ==
              if Lapsed(prev, cur) || (after != StoppedAt && after != InTransitTo) then []
              else if Moving(before) && after == StoppedAt then [Announced(cur, reached, Arrival)]
              else if before == StoppedAt && after == InTransitTo then [Announced(cur, left, Departure)]
              else if left == reached || before == Unknown then []
              else if after == StoppedAt then [Announced(cur, left, Departure), Announced(cur, reached, Arrival)]
              else [Announced(cur, left, Arrival), Announced(cur, left, Departure)]
  {
    var events := Inferred(prev, cur);
    if |events| == 1 {
      StampedPair(events[0], NilStop, cur.now);
    } else if |events| == 2 {
      StampedPair(events[0], events[1], cur.now);
    }
  }

  // ---- Accounting ----

  function One(b: bool): nat {
    if b then 1 else 0
  }

  function Count(es: seq<TimedStop>, eventType: StopEventType): nat {
    if es == [] then 0
    else Count(es[..|es| - 1], eventType) + One(es[|es| - 1].event.eventType == eventType)
  }

  /** The vehicle stopped standing, and no departure was sent for it. */
  predicate SilentDeparture(prev: Sighting, cur: Sighting) {
    Stopped(prev) && !Stopped(cur) && (Lapsed(prev, cur) || cur.position.attr.stopStatus != InTransitTo)
  }

  /** The vehicle started standing, and no arrival was sent for it. */
  predicate SilentArrival(prev: Sighting, cur: Sighting) {
    !Stopped(prev) && Stopped(cur) && (Lapsed(prev, cur) || prev.position.attr.stopStatus == Unknown)
  }

  function SilentDepartures(ss: seq<Sighting>): nat {
    if |ss| <= 1 then 0
    else SilentDepartures(ss[..|ss| - 1]) + One(SilentDeparture(ss[|ss| - 2], ss[|ss| - 1]))
  }

  function SilentArrivals(ss: seq<Sighting>): nat {
    if |ss| <= 1 then 0
    else SilentArrivals(ss[..|ss| - 1]) + One(SilentArrival(ss[|ss| - 2], ss[|ss| - 1]))
  }

  function Balance(es: seq<TimedStop>): int {
    Count(es, Arrival) - Count(es, Departure)
  }

  lemma CountNext(es: seq<TimedStop>, e: TimedStop, eventType: StopEventType)
    ensures Count(es + [e], eventType) == Count(es, eventType) + One(e.event.eventType == eventType)
  {
    assert (es + [e])[..|es|] == es;
  }

  /** What one event adds to the balance. */
  function Weight(e: TimedStop): int {
    One(e.event.eventType == Arrival) - One(e.event.eventType == Departure)
  }

  lemma BalanceNext(es: seq<TimedStop>, e: TimedStop)
    ensures Balance(es + [e]) == Balance(es) + Weight(e)
  {
    CountNext(es, e, Arrival);
    CountNext(es, e, Departure);
  }

  lemma BalanceAppend(es: seq<TimedStop>, sent: seq<TimedStop>)
    requires |sent| <= 2
    ensures Balance(es + sent) == Balance(es) + (if |sent| > 0 then Weight(sent[0]) else 0)
                                  + (if |sent| > 1 then Weight(sent[1]) else 0)
  {
    if |sent| == 0 {
      assert es + sent == es;
    } else {
      BalanceNext(es, sent[0]);
      if |sent| == 1 {
        assert es + sent == es + [sent[0]];
      } else {
        BalanceNext(es + [sent[0]], sent[1]);
        assert es + sent == es + [sent[0]] + [sent[1]];
      }
    }
  }

  lemma BalanceStep(es: seq<TimedStop>, prev: Sighting, cur: Sighting, v: string)
    requires v != "" && Names(prev, v) && Names(cur, v)
    ensures Balance(es + Sent(prev, cur)) == Balance(es) + One(Stopped(cur)) - One(Stopped(prev))
                                             + One(SilentDeparture(prev, cur)) - One(SilentArrival(prev, cur))
  {
    SentTable(prev, cur, v);
    BalanceAppend(es, Sent(prev, cur));
  }

  lemma SilentNext(ss: seq<Sighting>, cur: Sighting)
    requires ss != []
    ensures SilentDepartures(ss + [cur]) == SilentDepartures(ss) + One(SilentDeparture(Last(ss), cur))
    ensures SilentArrivals(ss + [cur]) == SilentArrivals(ss) + One(SilentArrival(Last(ss), cur))
  {
    assert (ss + [cur])[..|ss|] == ss;
  }

  /** The balance that the accounting law gives for the sightings. */
  function Due(ss: seq<Sighting>): int
    requires ss != []
  {
    One(Stopped(Last(ss))) - One(Stopped(ss[0])) + SilentDepartures(ss) - SilentArrivals(ss)
  }

  lemma DueNext(ss: seq<Sighting>, cur: Sighting, v: string)
    requires ss != [] && v != "" && Names(Last(ss), v) && Names(cur, v)
    requires Balance(Watched(ss)) == Due(ss)
    ensures Balance(Watched(ss + [cur])) == Due(ss + [cur])
  {
    WatchNext(ss, cur);
    SilentNext(ss, cur);
    BalanceStep(Watched(ss), Last(ss), cur, v);
    assert Last(ss + [cur]) == cur && (ss + [cur])[0] == ss[0];
  }

  lemma SightedBefore(ss: seq<Sighting>, n: nat, v: string)
    requires Sighted(ss, v) && 0 < n < |ss|
    ensures Sighted(ss[..n], v) && Names(Last(ss[..n]), v) && Names(ss[n], v)
  {
    assert ss[n - 1] in ss && ss[n] in ss;
  }

  lemma {:induction false} VisitsBalance(ss: seq<Sighting>, v: string)
    requires ss != [] && Sighted(ss, v)
    ensures Count(Watched(ss), Arrival) - Count(Watched(ss), Departure) == Due(ss)
  {
    var n := |ss| - 1;
    if n > 0 {
      var before, cur := ss[..n], ss[n];
      SightedBefore(ss, n, v);
      VisitsBalance(before, v);
      assert ss == before + [cur];
      DueNext(before, cur, v);
    }
  }

  // ---- Visits ----

  /** Every departure but an opening one directly follows the arrival at its stop. */
  predicate DeparturesFollowArrivals(es: seq<TimedStop>) {
    forall i :: 0 < i < |es| && es[i].event.eventType == Departure ==>
      es[i - 1].event.eventType == Arrival && es[i - 1].event.attr.stopId == es[i].event.attr.stopId
  }

  predicate ArrivalsFollowDepartures(es: seq<TimedStop>) {
    forall i :: 0 < i < |es| && es[i].event.eventType == Arrival ==> es[i - 1].event.eventType == Departure
  }

  predicate EndsWith(es: seq<TimedStop>, eventType: StopEventType) {
    es != [] && es[|es| - 1].event.eventType == eventType
  }

  /** The visit under way at the last sighting is the one the last event opened, or the vehicle was first seen in it. */
  predicate VisitOpen(es: seq<TimedStop>, first: Sighting, last: Sighting) {
    Stopped(last) ==>
      if es == [] then Stopped(first) && first.position.attr.stopId == last.position.attr.stopId
      else EndsWith(es, Arrival) && es[|es| - 1].event.attr.stopId == last.position.attr.stopId
  }

  predicate OpensWithDepartureFrom(es: seq<TimedStop>, first: Sighting) {
    es != [] && es[0].event.eventType == Departure ==>
      Stopped(first) && first.position.attr.stopId == es[0].event.attr.stopId
  }

  /** The departure, if e is one, is from the stop that the last event arrived at. */
  predicate Continues(es: seq<TimedStop>, e: TimedStop) {
    es != [] && e.event.eventType == Departure ==>
      EndsWith(es, Arrival) && es[|es| - 1].event.attr.stopId == e.event.attr.stopId
  }

  lemma MatchedNext(es: seq<TimedStop>, e: TimedStop)
    requires DeparturesFollowArrivals(es) && Continues(es, e)
    ensures DeparturesFollowArrivals(es + [e])
  {
    forall i | 0 < i < |es + [e]| && (es + [e])[i].event.eventType == Departure
      ensures (es + [e])[i - 1].event.eventType == Arrival
      ensures (es + [e])[i - 1].event.attr.stopId == (es + [e])[i].event.attr.stopId
    {
      if i < |es| {
        assert (es + [e])[i] == es[i];
      }
    }
  }

  lemma AlternatingNext(es: seq<TimedStop>, e: TimedStop)
    requires ArrivalsFollowDepartures(es)
    requires es != [] && e.event.eventType == Arrival ==> EndsWith(es, Departure)
    ensures ArrivalsFollowDepartures(es + [e])
  {
    forall i | 0 < i < |es + [e]| && (es + [e])[i].event.eventType == Arrival
      ensures (es + [e])[i - 1].event.eventType == Departure
    {
      if i < |es| {
        assert (es + [e])[i] == es[i];
      }
    }
  }

  lemma MatchedStep(es: seq<TimedStop>, first: Sighting, prev: Sighting, cur: Sighting, v: string)
    requires v != "" && Names(prev, v) && Names(cur, v) && Declared(prev) && Declared(cur) && !Lapsed(prev, cur)
    requires DeparturesFollowArrivals(es) && VisitOpen(es, first, prev)
    ensures DeparturesFollowArrivals(es + Sent(prev, cur))
  {
    SentTable(prev, cur, v);
    var sent := Sent(prev, cur);
    if |sent| == 0 {
      assert es + sent == es;
    } else {
      MatchedNext(es, sent[0]);
      if |sent| == 1 {
        assert es + sent == es + [sent[0]];
      } else {
        assert es + sent == es + [sent[0]] + [sent[1]];
        MatchedNext(es + [sent[0]], sent[1]);
      }
    }
  }

  lemma VisitOpenStep(es: seq<TimedStop>, first: Sighting, prev: Sighting, cur: Sighting, v: string)
    requires v != "" && Names(prev, v) && Names(cur, v) && Declared(prev) && Declared(cur) && !Lapsed(prev, cur)
    requires VisitOpen(es, first, prev) && OpensWithDepartureFrom(es, first)
    ensures VisitOpen(es + Sent(prev, cur), first, cur) && OpensWithDepartureFrom(es + Sent(prev, cur), first)
  {
    SentTable(prev, cur, v);
    var sent := Sent(prev, cur);
    if |sent| == 0 {
      assert es + sent == es;
    } else if es == [] {
      assert es + sent == sent;
    } else {
      assert (es + sent)[0] == es[0] && (es + sent)[|es + sent| - 1] == sent[|sent| - 1];
    }
  }

  /** No step from standing at a stop straight to approaching one, which sends nothing. */
  predicate NeverLeavesSilently(ss: seq<Sighting>) {
    forall i :: 0 < i < |ss| && Stopped(ss[i - 1]) ==> ss[i].position.attr.stopStatus != IncomingAt
  }

  /** The run without its last sighting, and the step to that sighting, are like the whole run. */
  lemma RunPrefix(ss: seq<Sighting>, n: nat, v: string)
    requires |ss| == n + 1 && n > 0
    requires Sighted(ss, v) && DeclaredStatuses(ss) && Continuous(ss)
    ensures Sighted(ss[..n], v) && DeclaredStatuses(ss[..n]) && Continuous(ss[..n])
    ensures Names(ss[n - 1], v) && Names(ss[n], v) && Declared(ss[n - 1]) && Declared(ss[n])
    ensures !Lapsed(ss[n - 1], ss[n])
    ensures NeverLeavesSilently(ss) ==> NeverLeavesSilently(ss[..n])
  {
  }

  lemma {:induction false} DeparturesAreMatched(ss: seq<Sighting>, v: string)
    requires ss != [] && Sighted(ss, v) && DeclaredStatuses(ss) && Continuous(ss)
    ensures DeparturesFollowArrivals(Watched(ss))
    ensures OpensWithDepartureFrom(Watched(ss), ss[0])
    ensures VisitOpen(Watched(ss), ss[0], Last(ss))
  {
    var n := |ss| - 1;
    if n > 0 {
      var before, prev, cur := Watched(ss[..n]), ss[n - 1], ss[n];
      RunPrefix(ss, n, v);
      DeparturesAreMatched(ss[..n], v);
      MatchedStep(before, ss[0], prev, cur, v);
      VisitOpenStep(before, ss[0], prev, cur, v);
    }
  }

  /** The vehicle went from standing straight to approaching a stop, which sends nothing, after its first event. */
  predicate SlipsAway(ss: seq<Sighting>, n: int) {
    && 0 < n < |ss|
    && Stopped(ss[n - 1]) && ss[n].position.attr.stopStatus == IncomingAt
    && Watched(ss[..n]) != []
  }

  predicate Slipped(ss: seq<Sighting>) {
    exists n :: 0 < n < |ss| && SlipsAway(ss, n)
  }

  /** Once the vehicle has slipped away from a stop, no more events are sent. */
  predicate SilentOnceSlipped(ss: seq<Sighting>) {
    forall m :: 0 < m < |ss| && Slipped(ss[..m]) ==> Sent(ss[m - 1], ss[m]) == []
  }

  lemma SlipsAwayBefore(ss: seq<Sighting>, cur: Sighting, n: int)
    requires n < |ss|
    ensures SlipsAway(ss + [cur], n) <==> SlipsAway(ss, n)
  {
    if 0 < n {
      assert (ss + [cur])[..n] == ss[..n] && (ss + [cur])[n] == ss[n] && (ss + [cur])[n - 1] == ss[n - 1];
    }
  }

  lemma SlippedNext(ss: seq<Sighting>, cur: Sighting)
    requires ss != []
    ensures Slipped(ss + [cur]) <==>
            Slipped(ss) || (Stopped(Last(ss)) && cur.position.attr.stopStatus == IncomingAt && Watched(ss) != [])
  {
    var ss' := ss + [cur];
    assert ss'[..|ss|] == ss && ss'[|ss|] == cur && ss'[|ss| - 1] == Last(ss);
    assert SlipsAway(ss', |ss|) <==> Stopped(Last(ss)) && cur.position.attr.stopStatus == IncomingAt && Watched(ss) != [];
    if Slipped(ss) {
      var n :| 0 < n < |ss| && SlipsAway(ss, n);
      SlipsAwayBefore(ss, cur, n);
    }
    if Slipped(ss') {
      var n :| 0 < n < |ss'| && SlipsAway(ss', n);
      if n < |ss| {
        SlipsAwayBefore(ss, cur, n);
      }
    }
  }

  lemma SilentOnceSlippedNext(ss: seq<Sighting>, cur: Sighting)
    requires ss != []
    ensures SilentOnceSlipped(ss + [cur]) <==> SilentOnceSlipped(ss) && (Slipped(ss) ==> Sent(Last(ss), cur) == [])
  {
    var ss' := ss + [cur];
    forall m | 0 < m < |ss|
      ensures ss'[..m] == ss[..m] && Sent(ss'[m - 1], ss'[m]) == Sent(ss[m - 1], ss[m])
    {
    }
    assert ss'[..|ss|] == ss;
    assert ss'[|ss| - 1] == Last(ss) && ss'[|ss|] == cur;
  }

  /** The kind of event that the visit history ends with. */
  function Latest(ss: seq<Sighting>): StopEventType
    requires ss != []
  {
    if Stopped(Last(ss)) || Slipped(ss) then Arrival else Departure
  }

  /** slipped: the vehicle has slipped away from the stop it last arrived at. */
  predicate EndsAsSeen(es: seq<TimedStop>, last: Sighting, slipped: bool) {
    && (es != [] ==> EndsWith(es, if Stopped(last) || slipped then Arrival else Departure))
    && (slipped ==> es != [] && !Stopped(last))
  }

  predicate SlipsFrom(es: seq<TimedStop>, prev: Sighting, cur: Sighting) {
    Stopped(prev) && cur.position.attr.stopStatus == IncomingAt && es != []
  }

  lemma QuietBracketStep(es: seq<TimedStop>, prev: Sighting, cur: Sighting, slipped: bool, v: string)
    requires v != "" && Names(prev, v) && Names(cur, v) && Declared(prev) && Declared(cur) && !Lapsed(prev, cur)
    requires EndsAsSeen(es, prev, slipped) && Sent(prev, cur) == []
    ensures EndsAsSeen(es, cur, slipped || SlipsFrom(es, prev, cur))
  {
    SentTable(prev, cur, v);
  }

  lemma EventfulBracketStep(es: seq<TimedStop>, prev: Sighting, cur: Sighting, slipped: bool, v: string)
    requires v != "" && Names(prev, v) && Names(cur, v) && Declared(prev) && Declared(cur) && !Lapsed(prev, cur)
    requires ArrivalsFollowDepartures(es) && EndsAsSeen(es, prev, slipped) && Sent(prev, cur) != []
    ensures ArrivalsFollowDepartures(es + Sent(prev, cur)) <==> !slipped
    ensures !slipped ==> EndsAsSeen(es + Sent(prev, cur), cur, false) && !SlipsFrom(es, prev, cur)
  {
    SentTable(prev, cur, v);
    var sent := Sent(prev, cur);
    if slipped {
      assert (es + sent)[|es|] == sent[0] && (es + sent)[|es| - 1] == es[|es| - 1];
    } else {
      AlternatingNext(es, sent[0]);
      if |sent| == 1 {
        assert es + sent == es + [sent[0]];
      } else {
        assert es + sent == es + [sent[0]] + [sent[1]];
        AlternatingNext(es + [sent[0]], sent[1]);
      }
    }
  }

  lemma AlternationIsLost(es: seq<TimedStop>, sent: seq<TimedStop>)
    requires ArrivalsFollowDepartures(es + sent)
    ensures ArrivalsFollowDepartures(es)
  {
    forall i | 0 < i < |es| && es[i].event.eventType == Arrival ensures es[i - 1].event.eventType == Departure {
      assert (es + sent)[i] == es[i] && (es + sent)[i - 1] == es[i - 1];
    }
  }

  /** Arrivals alternate with departures exactly if nothing is sent once the vehicle slipped, and then so do they end. */
  predicate Bracketed(ss: seq<Sighting>)
    requires ss != []
  {
    && (ArrivalsFollowDepartures(Watched(ss)) <==> SilentOnceSlipped(ss))
    && (SilentOnceSlipped(ss) ==> EndsAsSeen(Watched(ss), Last(ss), Slipped(ss)))
  }

  lemma BracketedNext(ss: seq<Sighting>, cur: Sighting, v: string)
    requires ss != [] && Bracketed(ss)
    requires v != "" && Names(Last(ss), v) && Names(cur, v) && Declared(Last(ss)) && Declared(cur) && !Lapsed(Last(ss), cur)
    ensures Bracketed(ss + [cur])
  {
    var es, sent := Watched(ss), Sent(Last(ss), cur);
    WatchNext(ss, cur);
    SlippedNext(ss, cur);
    SilentOnceSlippedNext(ss, cur);
    assert Last(ss + [cur]) == cur;
    if !SilentOnceSlipped(ss) {
      if ArrivalsFollowDepartures(es + sent) {
        AlternationIsLost(es, sent);
      }
    } else if sent == [] {
      assert es + sent == es;
      QuietBracketStep(es, Last(ss), cur, Slipped(ss), v);
    } else {
      EventfulBracketStep(es, Last(ss), cur, Slipped(ss), v);
    }
  }

  lemma {:induction false} VisitsAlternate(ss: seq<Sighting>, v: string)
    requires ss != [] && Sighted(ss, v) && DeclaredStatuses(ss) && Continuous(ss)
    ensures Bracketed(ss)
  {
    var n := |ss| - 1;
    if n > 0 {
      var before, cur := ss[..n], ss[n];
      RunPrefix(ss, n, v);
      VisitsAlternate(before, v);
      assert ss == before + [cur] && Last(before) == ss[n - 1];
      BracketedNext(before, cur, v);
    }
  }

  /** Each departure is from the stop of the arrival before it, and both alternate unless an event follows a slip. */
  lemma VisitsAreBracketed(ss: seq<Sighting>, v: string)
    requires ss != [] && Sighted(ss, v) && DeclaredStatuses(ss) && Continuous(ss)
    ensures DeparturesFollowArrivals(Watched(ss)) && OpensWithDepartureFrom(Watched(ss), ss[0])
    ensures ArrivalsFollowDepartures(Watched(ss)) <==> SilentOnceSlipped(ss)
    ensures SilentOnceSlipped(ss) && Watched(ss) != [] ==> EndsWith(Watched(ss), Latest(ss))
    ensures NeverLeavesSilently(ss) ==> SilentOnceSlipped(ss) && !Slipped(ss)
  {
    VisitsAlternate(ss, v);
    DeparturesAreMatched(ss, v);
    if NeverLeavesSilently(ss) {
      NeverSlips(ss);
    }
  }

  lemma NeverSlips(ss: seq<Sighting>)
    requires NeverLeavesSilently(ss)
    ensures SilentOnceSlipped(ss) && !Slipped(ss)
  {
    forall m, n | 0 < m <= |ss| ensures !SlipsAway(ss[..m], n) {
      assert 0 < n < m ==> ss[..m][n] == ss[n] && ss[..m][n - 1] == ss[n - 1];
    }
    assert ss[..|ss|] == ss;
  }

  // ---- Repeats ----

  lemma {:induction false} WatchedConcat(ss: seq<Sighting>, rest: seq<Sighting>)
    requires ss != []
    ensures Watched(ss + rest) == Watched(ss) + Watched([Last(ss)] + rest)
  {
    if rest == [] {
      assert ss + rest == ss && [Last(ss)] + rest == [Last(ss)];
    } else {
      var more, s := rest[..|rest| - 1], rest[|rest| - 1];
      assert ss + rest == (ss + more) + [s] && [Last(ss)] + rest == ([Last(ss)] + more) + [s];
      assert Last(ss + more) == Last([Last(ss)] + more);
      WatchedConcat(ss, more);
      WatchNext(ss + more, s);
      WatchNext([Last(ss)] + more, s);
      ConcatIsAssociative(Watched(ss), Watched([Last(ss)] + more), Sent(Last(ss + more), s));
    }
  }

  lemma WatchedFrom(last: Sighting, s: Sighting, more: seq<Sighting>)
    ensures Watched([last] + ([s] + more)) == Sent(last, s) + Watched([s] + more)
  {
    assert [last] + ([s] + more) == [last, s] + more && [last, s] == [last] + [s];
    WatchedConcat([last, s], more);
    WatchNext([last], s);
  }

  /** q repeats the status and the stop of last, no earlier. */
  predicate RepeatOf(q: Sighting, last: Sighting) {
    && last.position.attr.stopStatus == q.position.attr.stopStatus
    && last.position.attr.stopId == q.position.attr.stopId
    && last.now <= q.now
  }

  /** The next sighting is too late for last but not for its repeat q, and not a further repeat. */
  predicate Revives(q: Sighting, last: Sighting, rest: seq<Sighting>) {
    rest != [] && Lapsed(last, rest[0]) && !Lapsed(q, rest[0]) && Sent(q, rest[0]) != []
  }

  lemma RepeatSendsAlike(q: Sighting, last: Sighting, s: Sighting)
    requires RepeatOf(q, last)
    ensures Sent(last, q) == []
    ensures Sent(q, s) == Sent(last, s) <==> !Revives(q, last, [s])
  {
  }

  lemma SameStart(a: seq<TimedStop>, x: seq<TimedStop>, y: seq<TimedStop>, z: seq<TimedStop>)
    ensures a + (x + z) == a + (y + z) <==> x == y
  {
    var left, right := a + (x + z), a + (y + z);
    if left == right {
      assert |x| == |y|;
      assert x == left[|a|..|a| + |x|] && y == right[|a|..|a| + |y|];
    }
  }

  lemma RepeatBefore(ss: seq<Sighting>, q: Sighting, s: Sighting, more: seq<Sighting>)
    requires ss != [] && RepeatOf(q, Last(ss)) && Watched(ss + [q]) == Watched(ss)
    ensures Watched(ss + [q] + ([s] + more)) == Watched(ss + ([s] + more)) <==> !Revives(q, Last(ss), [s])
  {
    var last := Last(ss);
    WatchedConcat(ss + [q], [s] + more);
    WatchedConcat(ss, [s] + more);
    WatchedFrom(q, s, more);
    WatchedFrom(last, s, more);
    RepeatSendsAlike(q, last, s);
    SameStart(Watched(ss), Sent(q, s), Sent(last, s), Watched([s] + more));
  }

  /** A repeat of the latest status and stop, anywhere, changes no later stop event, exactly unless it revives the vehicle. */
  lemma RepeatsAreUnobservable(ss: seq<Sighting>, q: Sighting, rest: seq<Sighting>)
    requires ss != [] && RepeatOf(q, Last(ss))
    ensures Watched(ss + [q] + rest) == Watched(ss + rest) <==> !Revives(q, Last(ss), rest)
  {
    assert Watched(ss + [q]) == Watched(ss) by {
      RepeatSendsAlike(q, Last(ss), q);
      WatchNext(ss, q);
      assert Watched(ss) + [] == Watched(ss);
    }
    if rest == [] {
      assert ss + [q] + rest == ss + [q] && ss + rest == ss;
    } else {
      assert rest == [rest[0]] + rest[1..];
      RepeatBefore(ss, q, rest[0], rest[1..]);
    }
  }

  // ---- No nil stop events ----

  /** Every stored position names a stop, and its vehicle, whose id is the key it is stored under. */
  ghost predicate StopsNamed(s: States) {
    forall key :: key in s && s[key].msg.PositionMsg? ==>
      s[key].msg.position.attr.stopId != "" && s[key].msg.position.attr.vehicleId == key != ""
  }

  /** The event is a stop event with a stop id and the vehicle id of the position it was made for. */
  predicate Proper(e: Event, p: Position) {
    e.OfStop? && e.stop.attr.stopId != "" && e.stop.attr.vehicleId == p.attr.vehicleId != ""
  }

  lemma StopsStayNamed(s: States, c: Call)
    requires StopsNamed(s)
    requires c.task.Observe? ==> c.task.position.attr.stopId != ""
    ensures StopsNamed(After(s, c))
    ensures c.task.Observe? ==> forall e :: e in Serve(s, c).emitted ==> Proper(e, c.task.position)
  {
  }

  /** In every run whose positions name a stop, makeStopEvent never returns nil. */
  lemma {:induction false} NoNilStopEvents(calls: seq<Call>)
    requires forall c :: c in calls && c.task.Observe? ==> c.task.position.attr.stopId != ""
    ensures StopsNamed(Final(map[], calls))
    ensures forall step, e :: step in Trace(map[], calls) && step.call.task.Observe? && e in step.emitted
              ==> Proper(e, step.call.task.position)
  {
    if calls != [] {
      var before, c := calls[..|calls| - 1], calls[|calls| - 1];
      NoNilStopEvents(before);
      StopsStayNamed(Final(map[], before), c);
    }
  }

  // ---- The laws on a shared store ----

  /** The accounting law for every run: any interleaving, any clock, any sweeps, with or without expiry. */
  lemma RunBalance(calls: seq<Call>, v: string)
    requires SweepsInTime(calls) && OwnKey(calls, v)
    requires SightingsOf(calls, v) != [] && Sighted(SightingsOf(calls, v), v)
    ensures var ss, es := SightingsOf(calls, v), StopsOf(Trace(map[], calls), v);
            Count(es, Arrival) - Count(es, Departure) == Due(ss)
  {
    VehicleIsWatchedAlone(calls, v);
    VisitsBalance(SightingsOf(calls, v), v);
  }

  /** In every run in which the vehicle never lapses, visits are well bracketed unless an event follows a slip. */
  lemma RunIsBracketed(calls: seq<Call>, v: string)
    requires SweepsInTime(calls) && OwnKey(calls, v)
    requires var ss := SightingsOf(calls, v);
             ss != [] && Sighted(ss, v) && DeclaredStatuses(ss) && Continuous(ss)
    ensures var ss, es := SightingsOf(calls, v), StopsOf(Trace(map[], calls), v);
            && DeparturesFollowArrivals(es) && OpensWithDepartureFrom(es, ss[0])
            && (ArrivalsFollowDepartures(es) <==> SilentOnceSlipped(ss))
  {
    VehicleIsWatchedAlone(calls, v);
    VisitsAreBracketed(SightingsOf(calls, v), v);
  }

  lemma {:induction false} SightingsConcat(a: seq<Call>, b: seq<Call>, v: string)
    ensures SightingsOf(a + b, v) == SightingsOf(a, v) + SightingsOf(b, v)
  {
    if b == [] {
      assert a + b == a;
    } else {
      var n := |b| - 1;
      assert (a + b)[..|a + b| - 1] == a + b[..n];
      SightingsConcat(a, b[..n], v);
    }
  }

  lemma LeavingOutKeepsSweepsInTime(first: seq<Call>, c: Call, rest: seq<Call>)
    requires SweepsInTime(first + [c] + rest)
    ensures SweepsInTime(first + rest)
  {
    var all, fewer := first + [c] + rest, first + rest;
    forall i, j | 0 <= i < j < |fewer| && fewer[i].task.Expire? ensures fewer[i].now <= fewer[j].now {
      assert fewer[i] == all[if i < |first| then i else i + 1] && fewer[j] == all[if j < |first| then j else j + 1];
    }
  }

  function SightingAt(c: Call): Sighting
    requires c.task.Observe?
  {
    Sighting(c.task.position, c.now)
  }

  /** The call repeats the vehicle's latest status and stop. */
  predicate Repeats(first: seq<Call>, c: Call, v: string) {
    Sights(c, v) && SightingsOf(first, v) != [] && RepeatOf(SightingAt(c), Last(SightingsOf(first, v)))
  }

  /** The repeat revives the vehicle, and w is that vehicle. */
  predicate RevivesIn(first: seq<Call>, c: Call, rest: seq<Call>, v: string, w: string)
    requires Repeats(first, c, v)
  {
    w == v && Revives(SightingAt(c), Last(SightingsOf(first, v)), SightingsOf(rest, v))
  }

  /** The sightings of w around one more sighting call. */
  lemma SightingsAround(first: seq<Call>, c: Call, rest: seq<Call>, w: string)
    requires c.task.Observe?
    ensures var ss, next := SightingsOf(first, w), SightingsOf(rest, w);
            && SightingsOf(first + rest, w) == ss + next
            && SightingsOf(first + [c] + rest, w) ==
               if c.task.position.attr.vehicleId == w then ss + [SightingAt(c)] + next else ss + next
  {
    SightingsConcat(first, rest, w);
    SightingsConcat(first + [c], rest, w);
    assert (first + [c])[..|first|] == first;
    assert SightingsOf(first, w) + [] == SightingsOf(first, w);
  }

  lemma RepeatIsWatchedAlike(first: seq<Call>, c: Call, rest: seq<Call>, v: string, w: string)
    requires Repeats(first, c, v)
    ensures Watched(SightingsOf(first + [c] + rest, w)) == Watched(SightingsOf(first + rest, w))
            <==> !RevivesIn(first, c, rest, v, w)
  {
    SightingsAround(first, c, rest, w);
    if w == v {
      RepeatsAreUnobservable(SightingsOf(first, w), SightingAt(c), SightingsOf(rest, w));
    }
  }

  lemma LeavingOutKeepsOwnKey(first: seq<Call>, c: Call, rest: seq<Call>, w: string)
    requires OwnKey(first + [c] + rest, w)
    ensures OwnKey(first + rest, w)
  {
    assert forall x :: x in first + rest ==> x in first + [c] + rest;
  }

  /** In any run on a shared store, leaving out a repeat of v changes no stop event of v, exactly unless it revives v, nor of any other vehicle w. */
  lemma RunRepeatsAreUnobservable(first: seq<Call>, c: Call, rest: seq<Call>, v: string, w: string)
    requires SweepsInTime(first + [c] + rest) && OwnKey(first + [c] + rest, w)
    requires Repeats(first, c, v)
    ensures StopsOf(Trace(map[], first + [c] + rest), w) == StopsOf(Trace(map[], first + rest), w)
            <==> !RevivesIn(first, c, rest, v, w)
  {
    LeavingOutKeepsSweepsInTime(first, c, rest);
    LeavingOutKeepsOwnKey(first, c, rest, w);
    VehicleIsWatchedAlone(first + [c] + rest, w);
    VehicleIsWatchedAlone(first + rest, w);
    RepeatIsWatchedAlike(first, c, rest, v, w);
  }
}
