/**
 Runs of the four stateful processors over one shared state store, in any interleaving, with sweeps
 anywhere in between. The main result, Projection, says that whatever set of calls is watched, they are
 served as if the others (and the sweeps) had not happened, provided no watched key is used by the others.
 */
module Engine {
  import opened Events
  import opened Keys
  import opened StateStore
  import opened Processing
  import opened StopEvents
  import opened DwellEvents
  import opened HeadwayEvents
  import opened TravelTimeEvents

  /** One process call of a processor, or one sweep of the store. None is a nil event. */
  datatype Task =
    | Observe(position: Position)
    | Dwell(event: Option<StopEvent>)
    | Headway(event: Option<StopEvent>)
    | Travel(event: Option<StopEvent>)
    | Expire

  datatype Call = Call(now: int, task: Task)

  /** A call together with what it sent. */
  datatype Step = Step(call: Call, emitted: seq<Event>)

  datatype Kind = StopKind | DwellKind | HeadwayKind | TravelKind

  /** Whose key a call uses, and the fields the key is made of. */
  datatype Subject = Subject(kind: Kind, fields: seq<string>)

  /** None for the calls that return before they touch the store, and for sweeps. */
  function SubjectOf(task: Task): (r: Option<Subject>)
    ensures r.Some? ==> r.value.fields != []
  {
    match task
    case Observe(p) => if p.attr.vehicleId == "" then None else Some(Subject(StopKind, [p.attr.vehicleId]))
    case Dwell(Some(e)) => Some(Subject(DwellKind, DwellFields(e)))
    case Headway(Some(e)) => if e.eventType == Departure then Some(Subject(HeadwayKind, HeadwayFields(e))) else None
    case Travel(Some(e)) => if e.eventType == Arrival then Some(Subject(TravelKind, TripFields(e))) else None
    case _ => None
  }

  predicate Keyed(c: Call) {
    SubjectOf(c.task).Some?
  }

  function Key(c: Call): string
    requires Keyed(c)
  {
    Join(SubjectOf(c.task).value.fields)
  }

  function Decide(c: Call, seen: Option<Message>): Decision
    requires Keyed(c)
  {
    match c.task
    case Observe(p) => StopDecide(seen, p)
    case Dwell(Some(e)) => DwellDecide(seen, e)
    case Headway(Some(e)) => HeadwayDecide(seen, e)
    case Travel(Some(e)) => TravelDecide(seen, e)
  }

  function DecideIn(s: States, c: Call): Decision
    requires Keyed(c)
  {
    Decide(c, Lookup(s, Key(c), c.now))
  }

  function After(s: States, c: Call): States {
    if Keyed(c) then Act(s, Key(c), c.now, DecideIn(s, c).action)
    else if c.task.Expire? then Swept(s, c.now)
    else s
  }

  function Serve(s: States, c: Call): Step {
    Step(c, if Keyed(c) then DecideIn(s, c).emitted else [])
  }

  /** The store after the calls. */
  function Final(s: States, calls: seq<Call>): States {
    if calls == [] then s
    else After(Final(s, calls[..|calls| - 1]), calls[|calls| - 1])
  }

  /** The calls in order, each with what it sent. */
  function Trace(s: States, calls: seq<Call>): (steps: seq<Step>)
    ensures |steps| == |calls|
  {
    if calls == [] then []
    else
      var before := calls[..|calls| - 1];
      Trace(s, before) + [Serve(Final(s, before), calls[|calls| - 1])]
  }

  lemma {:induction false} TraceAt(s: States, calls: seq<Call>, i: nat)
    requires i < |calls|
    ensures Trace(s, calls)[i] == Serve(Final(s, calls[..i]), calls[i])
  {
    if i < |calls| - 1 {
      var before := calls[..|calls| - 1];
      TraceAt(s, before, i);
      assert before[..i] == calls[..i];
    }
  }

  /** One more call at the end. */
  lemma ServeNext(s: States, calls: seq<Call>, c: Call)
    ensures Final(s, calls + [c]) == After(Final(s, calls), c)
    ensures Trace(s, calls + [c]) == Trace(s, calls) + [Serve(Final(s, calls), c)]
  {
    assert (calls + [c])[..|calls|] == calls;
  }

  /** The store's clock never goes back. */
  predicate Clocked(calls: seq<Call>) {
    forall i, j :: 0 <= i < j < |calls| ==> calls[i].now <= calls[j].now
  }

  /** The seconds measured by the metrics among some events. */
  function Seconds(events: seq<Event>): int {
    if events == [] then 0
    else
      (match events[0]
       case OfDwell(dwell) => dwell.seconds
       case OfTravel(travel) => travel.seconds
       case OfHeadway(headway) => headway.seconds
       case _ => 0) + Seconds(events[1..])
  }

  function TotalSeconds(steps: seq<Step>): int {
    if steps == [] then 0
    else TotalSeconds(steps[..|steps| - 1]) + Seconds(steps[|steps| - 1].emitted)
  }

  /** Everything sent, in order. */
  function Emitted(steps: seq<Step>): seq<Event> {
    if steps == [] then [] else Emitted(steps[..|steps| - 1]) + steps[|steps| - 1].emitted
  }

  lemma EmittedNext(steps: seq<Step>, step: Step)
    ensures Emitted(steps + [step]) == Emitted(steps) + step.emitted
  {
    assert (steps + [step])[..|steps|] == steps;
  }

  lemma EmittedServed(s: States, calls: seq<Call>, c: Call)
    ensures Final(s, calls + [c]) == After(Final(s, calls), c)
    ensures Emitted(Trace(s, calls + [c])) == Emitted(Trace(s, calls)) + Serve(Final(s, calls), c).emitted
  {
    ServeNext(s, calls, c);
    EmittedNext(Trace(s, calls), Serve(Final(s, calls), c));
  }

  /** joined, a first part and the rest, is served as the rest is from the store that the first part leaves. */
  ghost predicate Appends(s: States, first: seq<Call>, rest: seq<Call>, joined: seq<Call>) {
    && Final(s, joined) == Final(Final(s, first), rest)
    && Trace(s, joined) == Trace(s, first) + Trace(Final(s, first), rest)
  }

  lemma ConcatIsAssociative<T>(a: seq<T>, b: seq<T>, c: seq<T>)
    ensures (a + b) + c == a + (b + c)
  {
  }

  lemma AppendNext(s: States, first: seq<Call>, rest: seq<Call>, joined: seq<Call>, c: Call)
    requires Appends(s, first, rest, joined)
    ensures Appends(s, first, rest + [c], joined + [c])
  {
    ServeNext(s, joined, c);
    ServeNext(Final(s, first), rest, c);
    ConcatIsAssociative(Trace(s, first), Trace(Final(s, first), rest), [Serve(Final(s, joined), c)]);
  }

  lemma {:induction false} AppendAll(s: States, first: seq<Call>, rest: seq<Call>)
    ensures Appends(s, first, rest, first + rest)
  {
    if rest == [] {
      assert first + rest == first;
    } else {
      var more, c := rest[..|rest| - 1], rest[|rest| - 1];
      assert rest == more + [c] && first + rest == (first + more) + [c];
      AppendAll(s, first, more);
      AppendNext(s, first, more, first + more, c);
    }
  }

  lemma {:induction false} EmittedConcat(a: seq<Step>, b: seq<Step>)
    ensures Emitted(a + b) == Emitted(a) + Emitted(b)
  {
    if b == [] {
      assert a + b == a;
    } else {
      var more, step := b[..|b| - 1], b[|b| - 1];
      assert a + b == (a + more) + [step];
      EmittedConcat(a, more);
      EmittedNext(a + more, step);
      ConcatIsAssociative(Emitted(a), Emitted(more), step.emitted);
    }
  }

  /** What is sent after a first part of a run depends on that part only through the store it leaves. */
  lemma EmittedAppend(s: States, first: seq<Call>, rest: seq<Call>)
    ensures Emitted(Trace(s, first + rest)) == Emitted(Trace(s, first)) + Emitted(Trace(Final(s, first), rest))
  {
    AppendAll(s, first, rest);
    EmittedConcat(Trace(s, first), Trace(Final(s, first), rest));
  }

  lemma IgnoredCallIsUnnoticed(s: States, c: Call)
    requires Keyed(c) && DecideIn(s, c) == Decision(Keep, [])
    ensures After(s, c) == s && Serve(s, c).emitted == []
  {
  }

  /** A call that neither sends anything nor touches its entry might as well not have happened. */
  lemma IgnoredCallIsRemovable(s: States, first: seq<Call>, c: Call, rest: seq<Call>)
    requires Keyed(c) && DecideIn(Final(s, first), c) == Decision(Keep, [])
    ensures Emitted(Trace(s, first + [c] + rest)) == Emitted(Trace(s, first + rest))
  {
    assert Final(s, first + [c]) == Final(s, first) && Emitted(Trace(s, first + [c])) == Emitted(Trace(s, first)) by {
      IgnoredCallIsUnnoticed(Final(s, first), c);
      EmittedServed(s, first, c);
      assert Emitted(Trace(s, first)) + [] == Emitted(Trace(s, first));
    }
    EmittedAppend(s, first + [c], rest);
    EmittedAppend(s, first, rest);
  }

  /** The clock reading t is not before any sweep among the calls. */
  predicate Past(calls: seq<Call>, t: int) {
    forall c :: c in calls && c.task.Expire? ==> c.now <= t
  }

  /** No clock reading after a sweep is before it; without sweeps, any clock readings will do. */
  predicate SweepsInTime(calls: seq<Call>) {
    forall i, j :: 0 <= i < j < |calls| && calls[i].task.Expire? ==> calls[i].now <= calls[j].now
  }

  lemma NextIsPast(calls: seq<Call>, n: nat)
    requires SweepsInTime(calls) && n < |calls|
    ensures Past(calls[..n], calls[n].now)
  {
  }

  // ---- Projection ----

  /** The calls to watch: those that satisfy keep and use the store. */
  function Chosen(calls: seq<Call>, keep: Call -> bool): seq<Call> {
    if calls == [] then []
    else
      var c := calls[|calls| - 1];
      Chosen(calls[..|calls| - 1], keep) + if keep(c) && Keyed(c) then [c] else []
  }

  function ChosenSteps(steps: seq<Step>, keep: Call -> bool): seq<Step> {
    if steps == [] then []
    else
      var c := steps[|steps| - 1];
      ChosenSteps(steps[..|steps| - 1], keep) + if keep(c.call) && Keyed(c.call) then [c] else []
  }

  lemma ChooseNext(calls: seq<Call>, c: Call, keep: Call -> bool)
    ensures Chosen(calls + [c], keep) == Chosen(calls, keep) + if keep(c) && Keyed(c) then [c] else []
  {
    assert (calls + [c])[..|calls|] == calls;
  }

  lemma ChooseNextStep(steps: seq<Step>, c: Step, keep: Call -> bool)
    ensures ChosenSteps(steps + [c], keep) ==
            ChosenSteps(steps, keep) + if keep(c.call) && Keyed(c.call) then [c] else []
  {
    assert (steps + [c])[..|steps|] == steps;
  }

  /** No call outside keep uses the key of a call inside it. */
  ghost predicate Isolated(calls: seq<Call>, keep: Call -> bool) {
    forall c, d :: c in calls && d in calls && Keyed(c) && Keyed(d) && Key(c) == Key(d) && keep(c) ==> keep(d)
  }

  /** Two stores answer alike, at readings not before a sweep done so far, for the keys of the calls to watch. */
  ghost predicate Agree(s: States, s': States, calls: seq<Call>, keep: Call -> bool, done: seq<Call>) {
    forall c, t :: c in calls && keep(c) && Keyed(c) && Past(done, t) ==> Lookup(s, Key(c), t) == Lookup(s', Key(c), t)
  }

  /** A watched call does the same to both stores; any other call to the first store goes unnoticed. */
  lemma ServeAlike(s: States, s': States, c: Call, calls: seq<Call>, keep: Call -> bool, done: seq<Call>)
    requires c in calls && Past(done, c.now)
    requires Isolated(calls, keep) && Agree(s, s', calls, keep, done)
    ensures if keep(c) && Keyed(c)
            then Serve(s, c) == Serve(s', c) && Agree(After(s, c), After(s', c), calls, keep, done + [c])
            else Agree(After(s, c), s', calls, keep, done + [c])
  {
    if keep(c) && Keyed(c) {
      assert Lookup(s, Key(c), c.now) == Lookup(s', Key(c), c.now);
    }
    forall d, t | d in calls && keep(d) && Keyed(d) && Past(done + [c], t)
      ensures Lookup(After(s, c), Key(d), t) ==
              Lookup(if keep(c) && Keyed(c) then After(s', c) else s', Key(d), t)
    {
      assert c in done + [c] && forall x :: x in done ==> x in done + [c];
      assert Past(done, t) && (c.task.Expire? ==> c.now <= t);
      assert Lookup(s, Key(d), t) == Lookup(s', Key(d), t);
      assert Keyed(c) && Key(c) == Key(d) ==> keep(c);
    }
  }

  /** The calls done so far are projected, and the store of the watched ones alone answers alike for them. */
  ghost predicate Projected(done: seq<Call>, calls: seq<Call>, keep: Call -> bool) {
    && ChosenSteps(Trace(map[], done), keep) == Trace(map[], Chosen(done, keep))
    && Agree(Final(map[], done), Final(map[], Chosen(done, keep)), calls, keep, done)
  }

  lemma ProjectNext(done: seq<Call>, c: Call, calls: seq<Call>, keep: Call -> bool)
    requires c in calls && Past(done, c.now)
    requires Isolated(calls, keep)
    requires Projected(done, calls, keep)
    ensures Projected(done + [c], calls, keep)
  {
    var chosen := Chosen(done, keep);
    ServeAlike(Final(map[], done), Final(map[], chosen), c, calls, keep, done);
    ServeNext(map[], done, c);
    ServeNext(map[], chosen, c);
    ChooseNext(done, c, keep);
    ChooseNextStep(Trace(map[], done), Serve(Final(map[], done), c), keep);
    if !(keep(c) && Keyed(c)) {
      assert chosen + [] == chosen;
      assert Trace(map[], chosen) + [] == Trace(map[], chosen);
    }
  }

  /** The calls done so far, a beginning of the run. */
  lemma {:induction false} ProjectionOf(done: seq<Call>, calls: seq<Call>, keep: Call -> bool)
    requires done <= calls
    requires SweepsInTime(calls) && Isolated(calls, keep)
    ensures Projected(done, calls, keep)
  {
    if done != [] {
      var n := |done| - 1;
      var before, c := done[..n], done[n];
      assert done == before + [c] && before == calls[..n] && c == calls[n];
      NextIsPast(calls, n);
      ProjectionOf(before, calls, keep);
      ProjectNext(before, c, calls, keep);
    }
  }

  /** Watched calls are served as if the other calls and the sweeps had not happened. */
  lemma Projection(calls: seq<Call>, keep: Call -> bool)
    requires SweepsInTime(calls) && Isolated(calls, keep)
    ensures ChosenSteps(Trace(map[], calls), keep) == Trace(map[], Chosen(calls, keep))
  {
    ProjectionOf(calls, calls, keep);
  }

  // ---- When keys tell subjects apart ----

  /** Equal keys stand for the same processor and the same fields. */
  ghost predicate FaithfulKeys(calls: seq<Call>) {
    forall c, d :: c in calls && d in calls && Keyed(c) && Keyed(d) && Key(c) == Key(d)
                   ==> SubjectOf(c.task) == SubjectOf(d.task)
  }

  predicate HyphenFreeIds(c: Call) {
    Keyed(c) ==> AllHyphenFree(SubjectOf(c.task).value.fields)
  }

  lemma HyphenFreeIdsAreFaithful(calls: seq<Call>)
    requires forall c :: c in calls ==> HyphenFreeIds(c)
    ensures FaithfulKeys(calls)
  {
    forall c, d | c in calls && d in calls && Keyed(c) && Keyed(d) && Key(c) == Key(d)
      ensures SubjectOf(c.task) == SubjectOf(d.task)
    {
      JoinIsInjective(SubjectOf(c.task).value.fields, SubjectOf(d.task).value.fields);
    }
  }

  function OfKind(kind: Kind): Call -> bool {
    (c: Call) => Keyed(c) && SubjectOf(c.task).value.kind == kind
  }

  /** No two processors use the same key. */
  ghost predicate KeysTellKinds(calls: seq<Call>) {
    forall c, d :: c in calls && d in calls && Keyed(c) && Keyed(d) && Key(c) == Key(d)
                   ==> SubjectOf(c.task).value.kind == SubjectOf(d.task).value.kind
  }

  /** Each processor sends exactly what it would send alone, on a store of its own. */
  ghost predicate Private(calls: seq<Call>) {
    forall kind ::
      ChosenSteps(Trace(map[], calls), OfKind(kind)) == Trace(map[], Chosen(calls, OfKind(kind)))
  }

  /** A shared store is private to each processor if no two of them use the same key. */
  lemma SharedStoreIsPrivate(calls: seq<Call>)
    requires SweepsInTime(calls) && KeysTellKinds(calls)
    ensures Private(calls)
  {
    forall kind
      ensures ChosenSteps(Trace(map[], calls), OfKind(kind)) == Trace(map[], Chosen(calls, OfKind(kind)))
    {
      Projection(calls, OfKind(kind));
    }
  }

  function OfKey(key: string): Call -> bool {
    (c: Call) => Keyed(c) && Key(c) == key
  }

  /** What happens at one key does not depend on the other keys, whatever the ids look like. */
  lemma KeysAreIndependent(calls: seq<Call>, key: string)
    requires SweepsInTime(calls)
    ensures ChosenSteps(Trace(map[], calls), OfKey(key)) == Trace(map[], Chosen(calls, OfKey(key)))
  {
    Projection(calls, OfKey(key));
  }
}
