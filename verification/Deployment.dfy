/** The four processor objects wired to one store object, driven by a schedule of calls. */
module Deployment {
  import opened Events
  import opened StateStore
  import opened StopEvents
  import opened DwellEvents
  import opened HeadwayEvents
  import opened TravelTimeEvents
  import opened Engine

  predicate OfTask(c: Call, kind: Kind) {
    match kind
    case StopKind => c.task.Observe?
    case DwellKind => c.task.Dwell?
    case HeadwayKind => c.task.Headway?
    case TravelKind => c.task.Travel?
  }

  /** What one processor sent in a run. */
  function SentBy(kind: Kind, steps: seq<Step>): seq<Event> {
    if steps == [] then []
    else
      var step := steps[|steps| - 1];
      SentBy(kind, steps[..|steps| - 1]) + if OfTask(step.call, kind) then step.emitted else []
  }

  /** now is what was before, and after it what the processor sent in the run. */
  ghost predicate Appended(before: seq<Event>, now: seq<Event>, kind: Kind, steps: seq<Step>) {
    now == before + SentBy(kind, steps)
  }

  lemma AppendedNext(before: seq<Event>, now: seq<Event>, kind: Kind, steps: seq<Step>, step: Step)
    requires Appended(before, now, kind, steps)
    ensures Appended(before, now + if OfTask(step.call, kind) then step.emitted else [], kind, steps + [step])
  {
    assert (steps + [step])[..|steps|] == steps;
  }

  class SharedStoreDeployment {
    const store: InMemoryStateStore
    const stops: StopEventProcessor
    const dwells: DwellEventProcessor
    const headways: HeadwayEventProcessor
    const travels: TravelTimeEventProcessor

    constructor (expiry: int)
      ensures Wired() && store.states == map[]
      ensures stops.out == dwells.out == headways.out == travels.out == []
      ensures fresh(store) && fresh(stops) && fresh(dwells) && fresh(headways) && fresh(travels)
    {
      var s := new InMemoryStateStore(expiry);
      store := s;
      stops := new StopEventProcessor(s);
      dwells := new DwellEventProcessor(s);
      headways := new HeadwayEventProcessor(s);
      travels := new TravelTimeEventProcessor(s);
    }

    predicate Wired() {
      stops.vehiclesState == dwells.stateStore == headways.headwayStates == travels.tripStates == store
    }

    method Serve(c: Call)
      requires Wired()
      modifies store`states, stops`out, dwells`out, headways`out, travels`out
      ensures store.states == After(old(store.states), c)
      ensures var sent := Engine.Serve(old(store.states), c).emitted;
              && stops.out == old(stops.out) + (if OfTask(c, StopKind) then sent else [])
              && dwells.out == old(dwells.out) + (if OfTask(c, DwellKind) then sent else [])
              && headways.out == old(headways.out) + (if OfTask(c, HeadwayKind) then sent else [])
              && travels.out == old(travels.out) + (if OfTask(c, TravelKind) then sent else [])
    {
      match c.task {
        case Observe(position) => stops.Process(position, c.now);
        case Dwell(event) => dwells.Process(event, c.now);
        case Headway(event) => headways.Process(event, c.now);
        case Travel(event) => travels.Process(event, c.now);
        case Expire => store.Expire(c.now);
      }
    }

    /** Each processor sent what it did in the run, on top of what it had sent before. */
    ghost predicate Sent(steps: seq<Step>, stops0: seq<Event>, dwells0: seq<Event>, headways0: seq<Event>, travels0: seq<Event>)
      reads stops, dwells, headways, travels
    {
      && Appended(stops0, stops.out, StopKind, steps)
      && Appended(dwells0, dwells.out, DwellKind, steps)
      && Appended(headways0, headways.out, HeadwayKind, steps)
      && Appended(travels0, travels.out, TravelKind, steps)
    }

    /** Whatever the interleaving, the objects leave the store and send the events that Trace says. */
    method Drive(calls: seq<Call>)
      requires Wired()
      modifies store`states, stops`out, dwells`out, headways`out, travels`out
      ensures store.states == Final(old(store.states), calls)
      ensures Sent(Trace(old(store.states), calls), old(stops.out), old(dwells.out), old(headways.out), old(travels.out))
    {
      ghost var s := store.states;
      ghost var done := [];
      for i := 0 to |calls|
        invariant done == calls[..i] && store.states == Final(s, done)
        invariant Sent(Trace(s, done), old(stops.out), old(dwells.out), old(headways.out), old(travels.out))
      {
        assert done + [calls[i]] == calls[..i + 1];
        ghost var steps, step := Trace(s, done), Engine.Serve(store.states, calls[i]);
        AppendedNext(old(stops.out), stops.out, StopKind, steps, step);
        AppendedNext(old(dwells.out), dwells.out, DwellKind, steps, step);
        AppendedNext(old(headways.out), headways.out, HeadwayKind, steps, step);
        AppendedNext(old(travels.out), travels.out, TravelKind, steps, step);
        ServeNext(s, done, calls[i]);
        Serve(calls[i]);
        done := done + [calls[i]];
      }
      assert done == calls;
    }
  }
}
