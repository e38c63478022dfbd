/** What goes wrong on a shared store when two processors use one key, and that nothing else does. */
module KeyCollisions {
  import opened Events
  import opened Keys
  import opened HeadwayEvents
  import opened Engine

  lemma ChosenOfThree(a: Call, b: Call, c: Call, keep: Call -> bool)
    requires keep(a) && !keep(b) && keep(c) && Keyed(a) && Keyed(c)
    ensures Chosen([a, b, c], keep) == [a, c]
  {
    assert [] + [a] == [a] && [a] + [b] == [a, b] && [a, b] + [c] == [a, b, c];
    ChooseNext([], a, keep);
    ChooseNext([a], b, keep);
    ChooseNext([a, b], c, keep);
  }

  // ---- Exactly when sharing is harmless ----

  /** Some call has the subject. */
  predicate Realisable(x: Subject) {
    match x.kind
    case StopKind => |x.fields| == 1 && x.fields[0] != ""
    case DwellKind => |x.fields| == 5
    case HeadwayKind => |x.fields| == 3
    case TravelKind => |x.fields| == 4
  }

  /** No two processors share a key of the subjects. */
  ghost predicate KeysKeepKindsApart(subjects: iset<Subject>) {
    forall x, y :: x in subjects && y in subjects && SharedKey(x, y) ==> x.kind == y.kind
  }

  predicate SharedKey(x: Subject, y: Subject) {
    Realisable(x) && Realisable(y) && Join(x.fields) == Join(y.fields)
  }

  /** The calls are about the subjects. */
  ghost predicate About(calls: seq<Call>, subjects: iset<Subject>) {
    forall c :: c in calls && Keyed(c) ==> SubjectOf(c.task).value in subjects
  }

  /** A call between two of the processor's own: what the second sends depends on it. */
  ghost predicate Disturbs(a: Call, b: Call, c: Call, kind: Kind) {
    && OfKind(kind)(a) && OfKind(kind)(c) && Keyed(b) && !OfKind(kind)(b)
    && Serve(After(After(map[], a), b), c).emitted != Serve(After(map[], a), c).emitted
  }

  lemma TwoCalls(a: Call, b: Call)
    ensures Final(map[], [a, b]) == After(After(map[], a), b)
    ensures Trace(map[], [a, b]) == [Serve(map[], a), Serve(After(map[], a), b)]
  {
    assert [a, b] == [] + [a] + [b];
    assert Final(map[], []) == map[] && Trace(map[], []) == [];
    ServeNext(map[], [], a);
    ServeNext(map[], [] + [a], b);
  }

  lemma ChosenStepsOfThree(a: Step, b: Step, c: Step, keep: Call -> bool)
    requires keep(a.call) && !keep(b.call) && keep(c.call) && Keyed(a.call) && Keyed(c.call)
    ensures ChosenSteps([a, b, c], keep) == [a, c]
  {
    assert [] + [a] == [a] && [a] + [b] == [a, b] && [a, b] + [c] == [a, b, c];
    ChooseNextStep([], a, keep);
    ChooseNextStep([a], b, keep);
    ChooseNextStep([a, b], c, keep);
  }

  lemma AmongThree(a: Call, b: Call, c: Call, keep: Call -> bool)
    requires keep(a) && !keep(b) && keep(c) && Keyed(a) && Keyed(c)
    ensures ChosenSteps(Trace(map[], [a, b, c]), keep) == [Serve(map[], a), Serve(After(After(map[], a), b), c)]
  {
    assert [a, b] + [c] == [a, b, c];
    TwoCalls(a, b);
    ServeNext(map[], [a, b], c);
    var x, y, z := Serve(map[], a), Serve(After(map[], a), b), Serve(After(After(map[], a), b), c);
    assert [x, y] + [z] == [x, y, z];
    ChosenStepsOfThree(x, y, z, keep);
  }

  lemma DisturbedIsNotPrivate(a: Call, b: Call, c: Call, kind: Kind)
    requires Disturbs(a, b, c, kind)
    ensures !Private([a, b, c])
  {
    AmongThree(a, b, c, OfKind(kind));
    ChosenOfThree(a, b, c, OfKind(kind));
    TwoCalls(a, c);
    assert [Serve(map[], a), Serve(After(After(map[], a), b), c)][1] != [Serve(map[], a), Serve(After(map[], a), c)][1];
  }

  // The calls of the schedules, for subjects that share a key.

  function PositionNaming(y: Subject): Position
    requires y.kind == StopKind && Realisable(y)
  {
    Position(NO_ATTRIBUTES.(vehicleId := y.fields[0]))
  }

  function AtVisit(y: Subject, eventType: StopEventType): StopEvent
    requires y.kind == DwellKind && Realisable(y)
  {
    StopEvent(NO_ATTRIBUTES.(agencyId := y.fields[0], routeId := y.fields[1], stopId := y.fields[2],
                             directionId := y.fields[3], vehicleId := y.fields[4]), eventType)
  }

  function LeavingStop(y: Subject, vehicleId: string, time: int): StopEvent
    requires y.kind == HeadwayKind && Realisable(y)
  {
    StopEvent(NO_ATTRIBUTES.(routeId := y.fields[0], directionId := y.fields[1], stopId := y.fields[2],
                             vehicleId := vehicleId, timestamp := Some(time)), Departure)
  }

  function OnTrip(y: Subject, stopId: string, time: int): StopEvent
    requires y.kind == TravelKind && Realisable(y)
  {
    StopEvent(NO_ATTRIBUTES.(routeId := y.fields[0], directionId := y.fields[1], vehicleId := y.fields[2],
                             tripId := y.fields[3], stopId := stopId, timestamp := Some(time)), Arrival)
  }

  function Other(id: string): (other: string)
    ensures other != id
  {
    id + "."
  }

  /** Of two processors at one key, the later can be disturbed by the earlier. */
  function Rank(kind: Kind): nat {
    match kind
    case StopKind => 0
    case DwellKind => 1
    case HeadwayKind => 2
    case TravelKind => 3
  }

  /** The stop that a headway subject is about. */
  function HeadwayStop(y: Subject): string
    requires Realisable(y)
  {
    if y.kind == HeadwayKind then y.fields[2] else ""
  }

  /** The vehicle that a travel time subject is about. */
  function TripVehicle(x: Subject): string
    requires Realisable(x)
  {
    if x.kind == TravelKind then x.fields[2] else ""
  }

  /** A call of x that is stored. */
  function Opening(x: Subject, y: Subject): Task
    requires Realisable(x) && Realisable(y) && x.kind != StopKind
  {
    match x.kind
    case DwellKind => Dwell(Some(AtVisit(x, Arrival)))
    case HeadwayKind => Headway(Some(LeavingStop(x, "", 0)))
    case TravelKind => Travel(Some(OnTrip(x, Other(HeadwayStop(y)), 0)))
  }

  /** A call of x that sends an event when it follows the opening. */
  function Closing(x: Subject, y: Subject): Task
    requires Realisable(x) && Realisable(y) && x.kind != StopKind
  {
    match x.kind
    case DwellKind => Dwell(Some(AtVisit(x, Departure)))
    case HeadwayKind => Headway(Some(LeavingStop(x, Other(""), 2)))
    case TravelKind => Travel(Some(OnTrip(x, HeadwayStop(y), 2)))
  }

  /** A call of y that undoes the opening of x: it hides, erases or replaces the entry. */
  function Between(x: Subject, y: Subject): Task
    requires Realisable(x) && Realisable(y) && y.kind != TravelKind
  {
    match y.kind
    case StopKind => Observe(PositionNaming(y))
    case DwellKind => Dwell(Some(AtVisit(y, Departure)))
    case HeadwayKind => Headway(Some(LeavingStop(y, Other(TripVehicle(x)), 1)))
  }

  lemma FieldsAreTheirParts(x: Subject)
    requires Realisable(x)
    ensures x.kind == StopKind ==> x.fields == [x.fields[0]]
    ensures x.kind == DwellKind ==> x.fields == [x.fields[0], x.fields[1], x.fields[2], x.fields[3], x.fields[4]]
    ensures x.kind == HeadwayKind ==> x.fields == [x.fields[0], x.fields[1], x.fields[2]]
    ensures x.kind == TravelKind ==> x.fields == [x.fields[0], x.fields[1], x.fields[2], x.fields[3]]
  {
  }

  lemma SubjectsOfTheCalls(x: Subject, y: Subject)
    requires Realisable(x) && Realisable(y) && Rank(y.kind) < Rank(x.kind)
    ensures SubjectOf(Opening(x, y)) == Some(x) && SubjectOf(Closing(x, y)) == Some(x)
    ensures SubjectOf(Between(x, y)) == Some(y)
  {
    FieldsAreTheirParts(x);
    FieldsAreTheirParts(y);
  }

  /** Stop hides, dwell erases and headway replaces what a processor of higher rank has stored under a shared key. */
  lemma BetweenUndoesOpening(x: Subject, y: Subject)
    requires SharedKey(x, y) && Rank(y.kind) < Rank(x.kind)
    ensures Disturbs(Call(0, Opening(x, y)), Call(0, Between(x, y)), Call(0, Closing(x, y)), x.kind)
  {
    SubjectsOfTheCalls(x, y);
  }

  lemma SharedKeyIsNotPrivate(x: Subject, y: Subject, a: Call, b: Call, c: Call)
    requires SharedKey(x, y) && Rank(y.kind) < Rank(x.kind)
    requires a == Call(0, Opening(x, y)) && b == Call(0, Between(x, y)) && c == Call(0, Closing(x, y))
    ensures !Private([a, b, c])
  {
    BetweenUndoesOpening(x, y);
    DisturbedIsNotPrivate(a, b, c, x.kind);
  }

  lemma ThreeAreAbout(a: Call, b: Call, c: Call, subjects: iset<Subject>)
    requires Keyed(a) && Keyed(b) && Keyed(c)
    requires SubjectOf(a.task).value in subjects && SubjectOf(b.task).value in subjects && SubjectOf(c.task).value in subjects
    ensures SweepsInTime([a, b, c]) && About([a, b, c], subjects)
  {
    assert forall d :: d in [a, b, c] ==> d == a || d == b || d == c;
  }

  lemma SharedKeySchedule(subjects: iset<Subject>, x: Subject, y: Subject) returns (calls: seq<Call>)
    requires x in subjects && y in subjects && SharedKey(x, y) && Rank(y.kind) < Rank(x.kind)
    ensures SweepsInTime(calls) && About(calls, subjects) && !Private(calls)
  {
    var a, b, c := Call(0, Opening(x, y)), Call(0, Between(x, y)), Call(0, Closing(x, y));
    calls := [a, b, c];
    SubjectsOfTheCalls(x, y);
    ThreeAreAbout(a, b, c, subjects);
    SharedKeyIsNotPrivate(x, y, a, b, c);
  }

  lemma SubjectsTellKinds(calls: seq<Call>, subjects: iset<Subject>)
    requires About(calls, subjects) && KeysKeepKindsApart(subjects)
    ensures KeysTellKinds(calls)
  {
    forall c, d | c in calls && d in calls && Keyed(c) && Keyed(d) && Key(c) == Key(d)
      ensures SubjectOf(c.task).value.kind == SubjectOf(d.task).value.kind
    {
      assert SharedKey(SubjectOf(c.task).value, SubjectOf(d.task).value);
    }
  }

  /** Every schedule about the subjects is private to each processor, if and only if no two processors share a key. */
  lemma SharingIsPrivateExactly(subjects: iset<Subject>)
    ensures KeysKeepKindsApart(subjects)
            <==> forall calls :: SweepsInTime(calls) && About(calls, subjects) ==> Private(calls)
  {
    if KeysKeepKindsApart(subjects) {
      forall calls | SweepsInTime(calls) && About(calls, subjects) ensures Private(calls) {
        SubjectsTellKinds(calls, subjects);
        SharedStoreIsPrivate(calls);
      }
    } else {
      var x, y :| x in subjects && y in subjects && SharedKey(x, y) && x.kind != y.kind;
      var calls;
      if Rank(y.kind) < Rank(x.kind) {
        calls := SharedKeySchedule(subjects, x, y);
      } else {
        calls := SharedKeySchedule(subjects, y, x);
      }
    }
  }

  // ---- An instance ----

  /** Two departures, and between them a position of a vehicle whose id is their headway key. */
  function Schedule(d: StopEvent, p: Position, e: StopEvent, now: int): seq<Call> {
    [Call(now, Headway(Some(d))), Call(now, Observe(p)), Call(now, Headway(Some(e)))]
  }

  predicate Collides(d: StopEvent, p: Position, e: StopEvent) {
    && d.eventType == Departure && e.eventType == Departure
    && HeadwayFields(d) == HeadwayFields(e)
    && Follows(d, e)
    && p.attr.vehicleId == Join(HeadwayFields(d))
  }

  lemma EmittedOfTwo(x: Step, y: Step)
    ensures Emitted([x, y]) == x.emitted + y.emitted
  {
    assert [x, y][..1] == [x] && [x][..0] == [];
    assert Emitted([x]) == [] + x.emitted;
  }

  /** On the shared store the headway between the two departures is lost; on a store of its own it is sent. */
  lemma CollisionLosesHeadway(d: StopEvent, p: Position, e: StopEvent, now: int)
    requires Collides(d, p, e)
    ensures !HyphenFree(p.attr.vehicleId)
    ensures Emitted(Trace(map[], Schedule(d, p, e, now))) == []
    ensures Emitted(Trace(map[], Chosen(Schedule(d, p, e, now), OfKind(HeadwayKind)))) == [OfHeadway(MakeHeadway(d, e))]
  {
    assert p.attr.vehicleId[|d.attr.routeId|] == '-';
    var a, b, c := Call(now, Headway(Some(d))), Call(now, Observe(p)), Call(now, Headway(Some(e)));
    assert [a, b, c] == [a, b] + [c] && Key(b) == p.attr.vehicleId;
    TwoCalls(a, b);
    EmittedOfTwo(Serve(map[], a), Serve(After(map[], a), b));
    EmittedServed(map[], [a, b], c);
    ChosenOfThree(a, b, c, OfKind(HeadwayKind));
    TwoCalls(a, c);
    EmittedOfTwo(Serve(map[], a), Serve(After(map[], a), c));
  }
}
