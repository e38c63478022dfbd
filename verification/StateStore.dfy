/** The in-memory TTL store: lazy expiry in Get, a background sweep, and the history it must agree with. */
module StateStore {
  import opened Events

  datatype Entry = Entry(msg: Message, expiration: int)

  type States = map<string, Entry>

  /** What a Get of key at clock reading now finds. */
  function Lookup(s: States, key: string, now: int): Option<Message> {
    if key in s && now <= s[key].expiration then Some(s[key].msg) else None
  }

  /** The map a sweep at clock reading now leaves. */
  function Swept(s: States, now: int): States {
    map key | key in s && now <= s[key].expiration :: s[key]
  }

  function EffectiveTtl(defaultTtl: int, ttl: int): int {
    if ttl == 0 then defaultTtl else ttl
  }

  class InMemoryStateStore {
    const ttl: int
    var states: States

    constructor (expiry: int)
      ensures ttl == (if expiry == 0 then 3_600_000_000_000 else expiry) && states == map[]
    {
      ttl := if expiry == 0 then HOUR else expiry;
      states := map[];
    }

    /** blank is what the caller's factory makes for a missing key. */
    method Get(key: string, blank: Message, now: int) returns (msg: Message, found: bool)
      ensures found <==> key in states && now <= states[key].expiration
      ensures msg == if found then states[key].msg else blank
      ensures found <==> Lookup(states, key, now) == Some(msg)
    {
      if key !in states || states[key].expiration < now {
        return blank, false;
      }
      return states[key].msg, true;
    }

    method Set(key: string, msg: Message, ttl: int, now: int)
      modifies this`states
      ensures states == old(states)[key := Entry(msg, now + if ttl == 0 then this.ttl else ttl)]
      ensures states == Apply(old(states), this.ttl, Request(now, Operation.Set(key, msg, ttl)))
    {
      var effective := ttl;
      if effective == 0 {
        effective := this.ttl;
      }
      states := states[key := Entry(msg, now + effective)];
    }

    method Delete(key: string)
      modifies this`states
      ensures states == old(states) - {key}
      ensures forall now :: states == Apply(old(states), ttl, Request(now, Operation.Delete(key)))
    {
      states := states - {key};
    }

    /** One tick of the sweeper; Go ranges over the map in an unspecified order. */
    method Expire(now: int)
      modifies this`states
      ensures forall key :: key in states <==> key in old(states) && now <= old(states)[key].expiration
      ensures forall key :: key in states ==> states[key] == old(states)[key]
      ensures states == Swept(old(states), now) == Apply(old(states), ttl, Request(now, Sweep))
    {
      var pending := states.Keys;
      while pending != {}
        invariant pending <= states.Keys <= old(states).Keys
        invariant forall key :: key in states ==> states[key] == old(states)[key]
        invariant forall key :: key in old(states) && key !in pending ==>
                    (key in states <==> now <= old(states)[key].expiration)
        decreases pending
      {
        var key :| key in pending;
        pending := pending - {key};
        if states[key].expiration < now {
          states := states - {key};
        }
      }
    }
  }

  // ---- Stores that answer alike ----

  /** The two stores answer every Get of key alike from clock reading now on. */
  ghost predicate SameFrom(s: States, s': States, key: string, now: int) {
    forall t :: now <= t ==> Lookup(s, key, t) == Lookup(s', key, t)
  }

  // ---- History ----

  datatype Operation =
    | Set(key: string, msg: Message, ttl: int)
    | Delete(key: string)
    | Get(key: string)
    | Sweep

  datatype Request = Request(now: int, op: Operation)

  predicate TimeOrdered(requests: seq<Request>) {
    forall i, j :: 0 <= i < j < |requests| ==> requests[i].now <= requests[j].now
  }

  function Apply(s: States, defaultTtl: int, r: Request): States {
    match r.op
    case Set(key, msg, ttl) => s[key := Entry(msg, r.now + EffectiveTtl(defaultTtl, ttl))]
    case Delete(key) => s - {key}
    case Get(_) => s
    case Sweep => Swept(s, r.now)
  }

  function Replay(defaultTtl: int, requests: seq<Request>): States {
    if requests == [] then map[]
    else Apply(Replay(defaultTtl, requests[..|requests| - 1]), defaultTtl, requests[|requests| - 1])
  }

  predicate Writes(op: Operation, key: string) {
    (op.Set? || op.Delete?) && op.key == key
  }

  ghost predicate IsLastWrite(requests: seq<Request>, i: int, key: string) {
    && 0 <= i < |requests|
    && Writes(requests[i].op, key)
    && forall j :: i < j < |requests| ==> !Writes(requests[j].op, key)
  }

  /** A Get finds msg exactly when the last write of its key set msg and the effective ttl has not run out. */
  ghost predicate FoundInHistory(defaultTtl: int, requests: seq<Request>, key: string, now: int, msg: Message) {
    exists i ::
      && IsLastWrite(requests, i, key)
      && requests[i].op.Set?
      && requests[i].op.msg == msg
      && now <= requests[i].now + if requests[i].op.ttl == 0 then defaultTtl else requests[i].op.ttl
  }

  lemma {:induction false} GetAnswersFromHistory(defaultTtl: int, requests: seq<Request>, key: string, now: int, msg: Message)
    requires TimeOrdered(requests)
    requires forall i :: 0 <= i < |requests| ==> requests[i].now <= now
    ensures Lookup(Replay(defaultTtl, requests), key, now) == Some(msg)
            <==> FoundInHistory(defaultTtl, requests, key, now, msg)
  {
    if requests != [] {
      var n := |requests| - 1;
      var before, r := requests[..n], requests[n];
      GetAnswersFromHistory(defaultTtl, before, key, now, msg);
      if Writes(r.op, key) {
        assert IsLastWrite(requests, n, key);
      } else {
        assert forall i :: 0 <= i < n ==> (IsLastWrite(requests, i, key) <==> IsLastWrite(before, i, key));
        assert !IsLastWrite(requests, n, key);
        if FoundInHistory(defaultTtl, before, key, now, msg) {
          var i :| IsLastWrite(before, i, key)
                   && before[i].op.Set? && before[i].op.msg == msg
                   && now <= before[i].now + if before[i].op.ttl == 0 then defaultTtl else before[i].op.ttl;
          assert IsLastWrite(requests, i, key);
        }
      }
    }
  }

  // ---- Sweeps are unobservable ----

  /** The answers to the Gets among the requests, in order. */
  function Answers(s: States, defaultTtl: int, requests: seq<Request>): seq<Option<Message>>
    decreases |requests|
  {
    if requests == [] then []
    else
      var r := requests[0];
      (if r.op.Get? then [Lookup(s, r.op.key, r.now)] else [])
      + Answers(Apply(s, defaultTtl, r), defaultTtl, requests[1..])
  }

  function WithoutSweeps(requests: seq<Request>): seq<Request> {
    if requests == [] then []
    else (if requests[0].op.Sweep? then [] else [requests[0]]) + WithoutSweeps(requests[1..])
  }

  lemma {:induction false} DroppingSweeps(s: States, s': States, defaultTtl: int, requests: seq<Request>, now: int)
    requires TimeOrdered(requests)
    requires forall i :: 0 <= i < |requests| ==> now <= requests[i].now
    requires forall key :: SameFrom(s, s', key, now)
    ensures Answers(s, defaultTtl, requests) == Answers(s', defaultTtl, WithoutSweeps(requests))
    decreases |requests|
  {
    if requests != [] {
      var r, rest := requests[0], requests[1..];
      var next := Apply(s, defaultTtl, r);
      var next' := if r.op.Sweep? then s' else Apply(s', defaultTtl, r);
      forall key ensures SameFrom(next, next', key, r.now) {
        forall t | r.now <= t ensures Lookup(next, key, t) == Lookup(next', key, t) {
          assert SameFrom(s, s', key, now);
          assert Lookup(s, key, t) == Lookup(s', key, t);
        }
      }
      DroppingSweeps(next, next', defaultTtl, rest, r.now);
      var rest' := WithoutSweeps(rest);
      if r.op.Sweep? {
        assert WithoutSweeps(requests) == rest';
      } else {
        assert WithoutSweeps(requests) == [r] + rest' && ([r] + rest')[1..] == rest';
        assert r.op.Get? ==> SameFrom(s, s', r.op.key, now);
      }
    }
  }

  /** Two schedules that differ only in when (or whether) they sweep, as after Close, answer alike. */
  lemma SweepsAreUnobservable(defaultTtl: int, requests: seq<Request>, requests': seq<Request>)
    requires TimeOrdered(requests) && TimeOrdered(requests')
    requires WithoutSweeps(requests) == WithoutSweeps(requests')
    ensures Answers(map[], defaultTtl, requests) == Answers(map[], defaultTtl, requests')
  {
    if requests != [] {
      DroppingSweeps(map[], map[], defaultTtl, requests, requests[0].now);
    }
    if requests' != [] {
      DroppingSweeps(map[], map[], defaultTtl, requests', requests'[0].now);
    }
  }
}
