/**
 The headway and travel time processors over whole runs. Each keeps one stored event per key; the stored events
 form a greedy chain through the events handed to it, and what is sent are the hops of that chain.
 */
module ChainLaws {
  import opened Events
  import opened StateStore
  import opened HeadwayEvents
  import opened TravelTimeEvents
  import opened Engine

  /** The stop event of a headway or a travel time call. */
  function EventOf(c: Call): StopEvent {
    match c.task
    case Headway(Some(e)) => e
    case Travel(Some(e)) => e
    case _ => StopEvent(NO_ATTRIBUTES, UnknownType)
  }

  function TimeOf(c: Call): int {
    AsTime(EventOf(c).attr.timestamp)
  }

  /** A call of one of the two processors that it does not dismiss unread. */
  predicate Link(c: Call) {
    (c.task.Headway? || c.task.Travel?) && Keyed(c)
  }

  /** Calls of one processor, at one key. */
  predicate AtOneKey(ds: seq<Call>, key: string) {
    && (forall c :: c in ds ==> Link(c) && Key(c) == key)
    && forall c, d :: c in ds && d in ds ==> c.task.Headway? == d.task.Headway?
  }

  /** The entry set at c is gone by d. */
  predicate Forgotten(c: Call, d: Call) {
    d.now > c.now + HOUR
  }

  /** With c stored, d is stored in its place. */
  predicate Succeeds(c: Call, d: Call)
  {
    || Forgotten(c, d)
    || if d.task.Headway? then Follows(EventOf(c), EventOf(d))
       else EventOf(c).attr.stopId != EventOf(d).attr.stopId
  }

  /** What is sent when d succeeds c. */
  function Hop(c: Call, d: Call): seq<Event>
  {
    if Forgotten(c, d) then []
    else if d.task.Headway? then [OfHeadway(MakeHeadway(EventOf(c), EventOf(d)))]
    else
      var travel := MakeTravel(EventOf(c), EventOf(d));
      if travel.seconds <= 0 then [] else [OfTravel(travel)]
  }

  /** The hops along a chain of calls. */
  function Hops(chain: seq<Call>): seq<Event>
  {
    if |chain| <= 1 then []
    else Hops(chain[..|chain| - 1]) + Hop(chain[|chain| - 2], chain[|chain| - 1])
  }

  /** The calls at some indices. */
  function Selected(ds: seq<Call>, idx: seq<nat>): (chain: seq<Call>)
    requires forall k :: 0 <= k < |idx| ==> idx[k] < |ds|
    ensures |chain| == |idx|
  {
    seq(|idx|, k requires 0 <= k < |idx| => ds[idx[k]])
  }

  /** The indices of the calls that get stored. */
  function Greedy(ds: seq<Call>): (idx: seq<nat>)
    ensures forall k :: 0 <= k < |idx| ==> idx[k] < |ds|
    ensures ds != [] ==> idx != []
  {
    if ds == [] then []
    else
      var n := |ds| - 1;
      Grown(ds, Greedy(ds[..n]))
  }

  /** The indices of the calls stored so far, and that of the last call if it is. */
  function Grown(ds: seq<Call>, idx: seq<nat>): (longer: seq<nat>)
    requires ds != [] && forall k :: 0 <= k < |idx| ==> idx[k] < |ds| - 1
    ensures longer != [] && forall k :: 0 <= k < |longer| ==> longer[k] < |ds|
  {
    var n := |ds| - 1;
    if idx == [] || Succeeds(ds[idx[|idx| - 1]], ds[n]) then idx + [n] else idx
  }

  lemma GreedyNext(ds: seq<Call>, c: Call)
    ensures Greedy(ds + [c]) == Grown(ds + [c], Greedy(ds))
  {
    assert (ds + [c])[..|ds|] == ds;
  }

  lemma GrownNext(ds: seq<Call>, idx: seq<nat>, c: Call)
    requires forall k :: 0 <= k < |idx| ==> idx[k] < |ds|
    ensures Grown(ds + [c], idx) == if idx == [] || Succeeds(ds[idx[|idx| - 1]], c) then idx + [|ds|] else idx
  {
    var ds' := ds + [c];
    assert ds'[|ds|] == c && (idx != [] ==> ds'[idx[|idx| - 1]] == ds[idx[|idx| - 1]]);
  }

  lemma SelectedNext(ds: seq<Call>, idx: seq<nat>, c: Call)
    requires forall k :: 0 <= k < |idx| ==> idx[k] < |ds|
    ensures Selected(ds + [c], idx) == Selected(ds, idx)
    ensures Selected(ds + [c], idx + [|ds|]) == Selected(ds, idx) + [c]
  {
  }

  function Chain(ds: seq<Call>): seq<Call>
  {
    Selected(ds, Greedy(ds))
  }

  // ---- The chain is what the store keeps, and its hops are what is sent ----

  /** One more call: it extends the chain or is ignored. */
  function Extend(chain: seq<Call>, c: Call): seq<Call> {
    if chain == [] || Succeeds(chain[|chain| - 1], c) then chain + [c] else chain
  }

  lemma ChainNext(ds: seq<Call>, c: Call)
    ensures (ds != [] ==> Chain(ds) != [])
    ensures Chain(ds + [c]) == Extend(Chain(ds), c)
    ensures forall d :: d in Chain(ds) ==> d in ds
  {
    var idx := Greedy(ds);
    GreedyNext(ds, c);
    GrownNext(ds, idx, c);
    SelectedNext(ds, idx, c);
    assert idx != [] ==> Chain(ds)[|idx| - 1] == ds[idx[|idx| - 1]];
  }

  lemma HopsNext(chain: seq<Call>, c: Call)
    ensures Hops(chain + [c]) == Hops(chain) + if chain == [] then [] else Hop(chain[|chain| - 1], c)
  {
    var longer := chain + [c];
    assert longer[..|chain|] == chain && longer[|chain|] == c;
    if chain != [] {
      assert longer[|chain| - 1] == chain[|chain| - 1];
    }
  }

  /** The entry at the key is the one set at c. */
  predicate Stores(s: States, key: string, c: Call)
  {
    key in s && s[key] == Entry(StopMsg(EventOf(c)), c.now + HOUR)
  }

  lemma LinkServed(s: States, key: string, c: Call, d: Call)
    requires Link(c) && Link(d) && c.task.Headway? == d.task.Headway? && Key(d) == key
    requires Stores(s, key, c)
    ensures if Succeeds(c, d) then Stores(After(s, d), key, d) && Serve(s, d).emitted == Hop(c, d)
            else After(s, d) == s && Serve(s, d).emitted == []
  {
  }

  /** What was sent are the hops of the chain, and the store keeps the chain's end. */
  ghost predicate Tracks(s: States, chain: seq<Call>, sent: seq<Event>, key: string) {
    && sent == Hops(chain)
    && if chain == [] then s == map[] else Stores(s, key, chain[|chain| - 1])
  }

  /** The chain, if there is one, ends with a call at the same key of the same processor. */
  predicate Continues(chain: seq<Call>, c: Call) {
    chain != [] ==>
      var last := chain[|chain| - 1];
      Link(last) && Link(c) && Key(last) == Key(c) && last.task.Headway? == c.task.Headway?
  }

  lemma TracksNext(s: States, chain: seq<Call>, sent: seq<Event>, key: string, c: Call)
    requires Link(c) && Key(c) == key && Continues(chain, c)
    requires Tracks(s, chain, sent, key)
    ensures Tracks(After(s, c), Extend(chain, c), sent + Serve(s, c).emitted, key)
  {
    HopsNext(chain, c);
    if chain != [] {
      LinkServed(s, key, chain[|chain| - 1], c);
    }
  }

  lemma ChainContinues(ds: seq<Call>, key: string, c: Call)
    requires AtOneKey(ds + [c], key)
    ensures Link(c) && Key(c) == key && Continues(Chain(ds), c)
  {
    ChainNext(ds, c);
    assert c in ds + [c] && forall d :: d in ds ==> d in ds + [c];
  }

  lemma {:induction false} SentAreHops(ds: seq<Call>, key: string)
    requires AtOneKey(ds, key)
    ensures Emitted(Trace(map[], ds)) == Hops(Chain(ds))
    ensures Tracks(Final(map[], ds), Chain(ds), Emitted(Trace(map[], ds)), key)
  {
    if ds != [] {
      var before, c := ds[..|ds| - 1], ds[|ds| - 1];
      assert ds == before + [c];
      SentAreHops(before, key);
      ChainContinues(before, key, c);
      TracksNext(Final(map[], before), Chain(before), Emitted(Trace(map[], before)), key, c);
      EmittedServed(map[], before, c);
      ChainNext(before, c);
    }
  }

  /** On a shared store, the calls at a key send the hops of their own chain. */
  lemma ChainOnSharedStore(calls: seq<Call>, key: string)
    requires SweepsInTime(calls)
    requires AtOneKey(Chosen(calls, OfKey(key)), key)
    ensures Emitted(ChosenSteps(Trace(map[], calls), OfKey(key))) == Hops(Chain(Chosen(calls, OfKey(key))))
  {
    KeysAreIndependent(calls, key);
    SentAreHops(Chosen(calls, OfKey(key)), key);
  }

  // ---- The chain is the one greedy subsequence ----

  /** No call between i and j succeeds call i. */
  predicate PassesOver(ds: seq<Call>, i: nat, j: nat) {
    forall m :: i < m < j <= |ds| ==> !Succeeds(ds[i], ds[m])
  }

  /** idx starts with the first call, and then always names the next call that succeeds the one before. */
  ghost predicate IsGreedy(ds: seq<Call>, idx: seq<nat>)
  {
    && (forall k :: 0 <= k < |idx| ==> idx[k] < |ds|)
    && (ds == [] <==> idx == [])
    && (idx != [] ==> idx[0] == 0)
    && (forall k :: 0 < k < |idx| ==> idx[k - 1] < idx[k] && Succeeds(ds[idx[k - 1]], ds[idx[k]]))
    && (forall k :: 0 < k < |idx| ==> PassesOver(ds, idx[k - 1], idx[k]))
    && (idx != [] ==> PassesOver(ds, idx[|idx| - 1], |ds|))
  }

  lemma PassesOverPrefix(ds: seq<Call>, c: Call, i: nat, j: nat)
    requires i < j <= |ds|
    ensures PassesOver(ds + [c], i, j) <==> PassesOver(ds, i, j)
    ensures PassesOver(ds + [c], i, |ds| + 1) <==> PassesOver(ds, i, |ds|) && !Succeeds(ds[i], c)
  {
    var ds' := ds + [c];
    assert ds'[|ds|] == c;
    assert forall m :: 0 <= m < |ds| ==> ds'[m] == ds[m];
  }

  lemma GreedySteps(ds: seq<Call>, idx: seq<nat>, c: Call)
    requires IsGreedy(ds, idx)
    ensures forall k :: 0 < k < |idx| ==>
              && idx[k - 1] < idx[k] < |ds|
              && Succeeds((ds + [c])[idx[k - 1]], (ds + [c])[idx[k]])
              && PassesOver(ds + [c], idx[k - 1], idx[k])
  {
    forall k | 0 < k < |idx|
      ensures idx[k - 1] < idx[k] < |ds| && Succeeds((ds + [c])[idx[k - 1]], (ds + [c])[idx[k]])
      ensures PassesOver(ds + [c], idx[k - 1], idx[k])
    {
      assert idx[k - 1] < idx[k] && Succeeds(ds[idx[k - 1]], ds[idx[k]]);
      PassesOverPrefix(ds, c, idx[k - 1], idx[k]);
    }
  }

  lemma GreedySkips(ds: seq<Call>, idx: seq<nat>, c: Call)
    requires IsGreedy(ds, idx) && idx != [] && !Succeeds(ds[idx[|idx| - 1]], c)
    ensures IsGreedy(ds + [c], idx)
  {
    GreedySteps(ds, idx, c);
    PassesOverPrefix(ds, c, idx[|idx| - 1], |ds|);
  }

  lemma GreedyTakes(ds: seq<Call>, idx: seq<nat>, c: Call)
    requires IsGreedy(ds, idx) && (idx == [] || Succeeds(ds[idx[|idx| - 1]], c))
    ensures IsGreedy(ds + [c], idx + [|ds|])
  {
    var ds', idx' := ds + [c], idx + [|ds|];
    GreedySteps(ds, idx, c);
    if idx != [] {
      PassesOverPrefix(ds, c, idx[|idx| - 1], |ds|);
    }
    forall k | 0 < k < |idx'|
      ensures idx'[k - 1] < idx'[k] && Succeeds(ds'[idx'[k - 1]], ds'[idx'[k]])
      ensures PassesOver(ds', idx'[k - 1], idx'[k])
    {
      assert idx'[k - 1] == idx[k - 1];
      if k < |idx| {
        assert idx'[k] == idx[k];
      }
    }
  }

  lemma GrownIsGreedy(ds: seq<Call>, idx: seq<nat>, c: Call)
    requires IsGreedy(ds, idx)
    ensures IsGreedy(ds + [c], Grown(ds + [c], idx))
  {
    GrownNext(ds, idx, c);
    if idx == [] || Succeeds(ds[idx[|idx| - 1]], c) {
      GreedyTakes(ds, idx, c);
    } else {
      GreedySkips(ds, idx, c);
    }
  }

  lemma {:induction false} GreedyIsGreedy(ds: seq<Call>)
    ensures IsGreedy(ds, Greedy(ds))
  {
    if ds != [] {
      var before, c := ds[..|ds| - 1], ds[|ds| - 1];
      var idx := Greedy(before);
      assert ds == before + [c];
      GreedyIsGreedy(before);
      GrownIsGreedy(before, idx, c);
      GreedyNext(before, c);
    }
  }

  lemma {:induction false} GreedyAgreesAt(ds: seq<Call>, idx: seq<nat>, idx': seq<nat>, k: nat)
    requires IsGreedy(ds, idx) && IsGreedy(ds, idx') && k < |idx|
    ensures k < |idx'| && idx'[k] == idx[k]
  {
    if k > 0 {
      GreedyAgreesAt(ds, idx, idx', k - 1);
      assert Succeeds(ds[idx[k - 1]], ds[idx[k]]);
      if k < |idx'| {
        assert Succeeds(ds[idx'[k - 1]], ds[idx'[k]]);
      }
    }
  }

  lemma GreedyExtends(ds: seq<Call>, idx: seq<nat>, idx': seq<nat>)
    requires IsGreedy(ds, idx) && IsGreedy(ds, idx')
    ensures idx <= idx'
  {
    forall k | 0 <= k < |idx| ensures k < |idx'| && idx'[k] == idx[k] {
      GreedyAgreesAt(ds, idx, idx', k);
    }
    if idx != [] {
      GreedyAgreesAt(ds, idx, idx', |idx| - 1);
    }
  }

  lemma GreedyIsUnique(ds: seq<Call>, idx: seq<nat>)
    ensures IsGreedy(ds, idx) <==> idx == Greedy(ds)
  {
    GreedyIsGreedy(ds);
    if IsGreedy(ds, idx) {
      GreedyExtends(ds, idx, Greedy(ds));
      GreedyExtends(ds, Greedy(ds), idx);
    }
  }

  // ---- Sums ----

  lemma SecondsAppend(a: seq<Event>, b: seq<Event>)
    ensures Seconds(a + b) == Seconds(a) + Seconds(b)
  {
    if a == [] {
      assert a + b == b;
    } else {
      assert (a + b)[1..] == a[1..] + b;
      SecondsAppend(a[1..], b);
    }
  }

  /** The time from one call to the next, if nothing is sent for it. */
  function Gap(c: Call, d: Call): int {
    if Hop(c, d) == [] then TimeOf(d) - TimeOf(c) else 0
  }

  /** The time between chain neighbours for which nothing was sent. */
  function Unmeasured(chain: seq<Call>): int
  {
    if |chain| <= 1 then 0
    else Unmeasured(chain[..|chain| - 1]) + Gap(chain[|chain| - 2], chain[|chain| - 1])
  }

  /** Consecutive calls of the chain succeed one another. */
  predicate Successive(chain: seq<Call>)
  {
    forall k :: 0 < k < |chain| ==> Succeeds(chain[k - 1], chain[k])
  }

  lemma HopSeconds(c: Call, d: Call)
    requires Succeeds(c, d)
    ensures Seconds(Hop(c, d)) == if Hop(c, d) == [] then 0 else TimeOf(d) - TimeOf(c)
    ensures Hop(c, d) != [] ==> 0 < TimeOf(d) - TimeOf(c) < INT32_LIMIT
  {
    if Hop(c, d) != [] {
      assert Hop(c, d)[1..] == [];
    }
  }

  /** Measured and unmeasured seconds together span the chain, whatever the order of the timestamps. */
  lemma {:induction false} HopsTelescope(chain: seq<Call>)
    requires chain != [] && Successive(chain)
    ensures Seconds(Hops(chain)) + Unmeasured(chain) == TimeOf(chain[|chain| - 1]) - TimeOf(chain[0])
  {
    var n := |chain| - 1;
    if n > 0 {
      HopsTelescope(chain[..n]);
      SecondsAppend(Hops(chain[..n]), Hop(chain[n - 1], chain[n]));
      HopSeconds(chain[n - 1], chain[n]);
    }
  }

  lemma ChainIsSuccessive(ds: seq<Call>)
    ensures Successive(Chain(ds))
    ensures ds != [] ==> Chain(ds) != [] && Chain(ds)[0] == ds[0]
    ensures forall c :: c in Chain(ds) ==> c in ds
  {
    GreedyIsGreedy(ds);
  }

  /** No entry of the chain has run out by the time of the next. */
  predicate Unforgotten(chain: seq<Call>) {
    forall k :: 0 < k < |chain| ==> !Forgotten(chain[k - 1], chain[k])
  }

  /** On a shared store, what is sent at a key and what is not sent together span the key's chain. */
  lemma SentSecondsSpanTheChain(calls: seq<Call>, key: string, ds: seq<Call>, chain: seq<Call>)
    requires SweepsInTime(calls)
    requires ds == Chosen(calls, OfKey(key)) && chain == Chain(ds)
    requires ds != [] && AtOneKey(ds, key)
    ensures chain != []
    ensures Seconds(Emitted(ChosenSteps(Trace(map[], calls), OfKey(key)))) + Unmeasured(chain)
            == TimeOf(chain[|chain| - 1]) - TimeOf(ds[0])
  {
    ChainOnSharedStore(calls, key);
    ChainIsSuccessive(ds);
    HopsTelescope(chain);
  }

  // ---- Headways ----

  predicate AllHeadways(ds: seq<Call>) {
    forall c :: c in ds ==> c.task.Headway?
  }

  /** One headway is sent between each two neighbours. */
  ghost predicate Linked(chain: seq<Call>) {
    Hops(chain) == HeadwaysBetween(chain) && Unmeasured(chain) == 0
  }

  lemma UnmeasuredNext(chain: seq<Call>, c: Call, d: Call)
    requires chain != [] && chain[|chain| - 1] == c
    ensures Unmeasured(chain + [d]) == Unmeasured(chain) + Gap(c, d)
  {
    var longer := chain + [d];
    assert longer[..|chain|] == chain && longer[|chain|] == d && longer[|chain| - 1] == c;
  }

  lemma LinkedNext(chain: seq<Call>, c: Call, d: Call)
    requires chain != [] && chain[|chain| - 1] == c && Linked(chain)
    requires d.task.Headway? && !Forgotten(c, d)
    ensures Linked(chain + [d])
  {
    HopsNext(chain, d);
    UnmeasuredNext(chain, c, d);
    assert HeadwaysBetween(chain + [d]) == HeadwaysBetween(chain) + Hop(c, d);
  }

  lemma UnforgottenBefore(chain: seq<Call>, n: nat)
    requires AllHeadways(chain) && Unforgotten(chain) && 0 < n < |chain|
    ensures AllHeadways(chain[..n]) && Unforgotten(chain[..n])
    ensures chain[n].task.Headway? && !Forgotten(chain[n - 1], chain[n])
  {
    assert chain[n] in chain;
  }

  /** Without expiry there is one headway between each two neighbours of the chain. */
  lemma {:induction false} HeadwaysLink(chain: seq<Call>)
    requires AllHeadways(chain) && Unforgotten(chain)
    ensures Linked(chain)
  {
    if |chain| > 1 {
      var n := |chain| - 1;
      UnforgottenBefore(chain, n);
      HeadwaysLink(chain[..n]);
      LinkedNext(chain[..n], chain[n - 1], chain[n]);
      assert chain == chain[..n] + [chain[n]];
    }
  }

  function HeadwaysBetween(chain: seq<Call>): (headways: seq<Event>)
    ensures |headways| == if chain == [] then 0 else |chain| - 1
  {
    seq(if chain == [] then 0 else |chain| - 1,
        k requires 0 <= k < |chain| - 1 => OfHeadway(MakeHeadway(EventOf(chain[k]), EventOf(chain[k + 1]))))
  }

  lemma HeadwaySpans(c: Call, d: Call)
    requires Succeeds(c, d) && !Forgotten(c, d) && d.task.Headway?
    ensures var headway := MakeHeadway(EventOf(c), EventOf(d));
            && headway.leadingVehicleId == EventOf(c).attr.vehicleId != EventOf(d).attr.vehicleId == headway.followingVehicleId
            && headway.seconds == TimeOf(d) - TimeOf(c) > 0
  {
  }

  /** Each headway leads with the vehicle that followed in the one before, another vehicle, and is positive and exact. */
  lemma HeadwaysAlternate(chain: seq<Call>, k: nat)
    requires Successive(chain) && AllHeadways(chain) && Unforgotten(chain)
    requires k < |Hops(chain)|
    ensures k + 1 < |chain| && Hops(chain)[k].OfHeadway?
    ensures var headway := Hops(chain)[k].headway;
            && headway.leadingVehicleId != headway.followingVehicleId
            && headway.seconds == TimeOf(chain[k + 1]) - TimeOf(chain[k]) > 0
            && (k + 1 < |Hops(chain)| ==> Hops(chain)[k + 1].OfHeadway?
                                          && Hops(chain)[k + 1].headway.leadingVehicleId == headway.followingVehicleId)
  {
    HeadwaysLink(chain);
    assert Hops(chain) == HeadwaysBetween(chain);
    assert Succeeds(chain[k], chain[k + 1]) && !Forgotten(chain[k], chain[k + 1]) && chain[k + 1] in chain;
    HeadwaySpans(chain[k], chain[k + 1]);
  }

  /** Without expiry, the headways sent at a key sum to last stored minus first departure time. */
  lemma HeadwaysSum(calls: seq<Call>, key: string, ds: seq<Call>, chain: seq<Call>)
    requires SweepsInTime(calls)
    requires ds == Chosen(calls, OfKey(key)) && chain == Chain(ds)
    requires ds != [] && AtOneKey(ds, key) && AllHeadways(chain) && Unforgotten(chain)
    ensures chain != []
    ensures Seconds(Emitted(ChosenSteps(Trace(map[], calls), OfKey(key))))
            == TimeOf(chain[|chain| - 1]) - TimeOf(ds[0])
  {
    SentSecondsSpanTheChain(calls, key, ds, chain);
    ChainIsSuccessive(ds);
    HeadwaysLink(chain);
  }

  /** A departure that the chain rejects may be left out: nothing sent changes, at this key or any other. */
  lemma RejectedDepartureIsRemovable(s: States, first: seq<Call>, c: Call, rest: seq<Call>, last: StopEvent)
    requires c.task.Headway? && Keyed(c)
    requires Lookup(Final(s, first), Key(c), c.now) == Some(StopMsg(last)) && !Follows(last, EventOf(c))
    ensures Emitted(Trace(s, first + [c] + rest)) == Emitted(Trace(s, first + rest))
  {
    IgnoredCallIsRemovable(s, first, c, rest);
  }

  // ---- Travel times ----

  predicate AllTravels(ds: seq<Call>) {
    forall c :: c in ds ==> c.task.Travel?
  }

  lemma BeforeAllTravels(ds: seq<Call>, c: Call)
    requires AllTravels(ds + [c])
    ensures AllTravels(ds) && c.task.Travel?
  {
    assert c in ds + [c] && forall d :: d in ds ==> d in ds + [c];
  }

  function StopOf(c: Call): string {
    EventOf(c).attr.stopId
  }

  /** The calls with each maximal run of equal stops cut down to its first. */
  function Collapse(ds: seq<Call>): seq<Call> {
    if ds == [] then []
    else
      var n := |ds| - 1;
      Collapse(ds[..n]) + if n > 0 && StopOf(ds[n - 1]) == StopOf(ds[n]) then [] else [ds[n]]
  }

  /** The repeats of a stop that come when the entry of the stop has run out. */
  function StaleRepeats(ds: seq<Call>): nat {
    if |ds| <= 1 then 0
    else
      var n := |ds| - 1;
      var chain := Chain(ds[..n]);
      StaleRepeats(ds[..n]) +
      if chain != [] && StopOf(ds[n - 1]) == StopOf(ds[n]) && Forgotten(chain[|chain| - 1], ds[n]) then 1 else 0
  }

  lemma CollapseNext(ds: seq<Call>, c: Call)
    ensures Collapse(ds + [c]) == Collapse(ds) + if ds != [] && StopOf(ds[|ds| - 1]) == StopOf(c) then [] else [c]
    ensures StaleRepeats(ds + [c]) == StaleRepeats(ds) +
                                      if ds != [] && Chain(ds) != [] && StopOf(ds[|ds| - 1]) == StopOf(c)
                                         && Forgotten(Chain(ds)[|Chain(ds)| - 1], c) then 1 else 0
  {
    assert (ds + [c])[..|ds|] == ds;
  }

  ghost predicate Collapses(ds: seq<Call>) {
    && |Chain(ds)| == |Collapse(ds)| + StaleRepeats(ds)
    && (Chain(ds) == Collapse(ds) <==> StaleRepeats(ds) == 0)
    && (ds != [] ==> Chain(ds) != [] && StopOf(Chain(ds)[|Chain(ds)| - 1]) == StopOf(ds[|ds| - 1]))
  }

  lemma SameWithLast(a: seq<Call>, b: seq<Call>, c: Call)
    ensures a + [c] == b + [c] <==> a == b
  {
    assert (a + [c])[..|a + [c]| - 1] == a && (b + [c])[..|b + [c]| - 1] == b;
  }

  lemma CollapsesNext(ds: seq<Call>, c: Call)
    requires Collapses(ds) && c.task.Travel?
    ensures Collapses(ds + [c])
  {
    var chain, cs := Chain(ds), Collapse(ds);
    ChainNext(ds, c);
    CollapseNext(ds, c);
    assert (ds + [c])[|ds|] == c;
    if ds == [] || StopOf(ds[|ds| - 1]) != StopOf(c) {
      assert Chain(ds + [c]) == chain + [c] && Collapse(ds + [c]) == cs + [c];
      SameWithLast(chain, cs, c);
    } else {
      assert Collapse(ds + [c]) == cs;
      if !Forgotten(chain[|chain| - 1], c) {
        assert Chain(ds + [c]) == chain;
      } else {
        assert Chain(ds + [c]) == chain + [c];
      }
    }
  }

  // The condition for that, in terms of the arrivals alone.

  predicate IsRunStart(ds: seq<Call>, i: nat)
    requires i < |ds|
  {
    i == 0 || StopOf(ds[i - 1]) != StopOf(ds[i])
  }

  predicate OneRun(ds: seq<Call>, i: nat, j: nat)
    requires j < |ds|
  {
    forall k :: i < k <= j ==> StopOf(ds[k - 1]) == StopOf(ds[k])
  }

  /** Where the run of equal stops that the arrivals end with starts. */
  function StartOf(ds: seq<Call>): (i: nat)
    requires ds != []
    ensures i < |ds|
  {
    var n := |ds| - 1;
    if n == 0 || StopOf(ds[n - 1]) != StopOf(ds[n]) then n else StartOf(ds[..n])
  }

  function RunStart(ds: seq<Call>): Call
    requires ds != []
  {
    ds[StartOf(ds)]
  }

  /** No arrival comes more than an hour after the first of its run of equal stops. */
  predicate Punctual(ds: seq<Call>) {
    forall i, j :: 0 <= i <= j < |ds| && IsRunStart(ds, i) && OneRun(ds, i, j) ==> !Forgotten(ds[i], ds[j])
  }

  lemma {:induction false} StartIsUnique(ds: seq<Call>, i: nat)
    requires i < |ds|
    ensures IsRunStart(ds, i) && OneRun(ds, i, |ds| - 1) <==> i == StartOf(ds)
  {
    var n := |ds| - 1;
    if n > 0 && StopOf(ds[n - 1]) == StopOf(ds[n]) {
      var before := ds[..n];
      if i < n {
        StartIsUnique(before, i);
        assert IsRunStart(before, i) <==> IsRunStart(ds, i);
        assert OneRun(before, i, n - 1) <==> OneRun(ds, i, n) by {
          assert forall k :: 0 <= k < n ==> before[k] == ds[k];
        }
      }
    } else if i < n {
      assert StopOf(ds[n - 1]) != StopOf(ds[n]);
    }
  }

  lemma RunsBefore(ds: seq<Call>, c: Call, i: nat, j: nat)
    requires i <= j < |ds|
    ensures IsRunStart(ds + [c], i) <==> IsRunStart(ds, i)
    ensures OneRun(ds + [c], i, j) <==> OneRun(ds, i, j)
  {
    assert forall k :: 0 <= k < |ds| ==> (ds + [c])[k] == ds[k];
  }

  lemma PunctualNext(ds: seq<Call>, c: Call)
    ensures Punctual(ds + [c]) <==> Punctual(ds) && !Forgotten(RunStart(ds + [c]), c)
  {
    var ds', n := ds + [c], |ds|;
    StartIsUnique(ds', StartOf(ds'));
    if Punctual(ds') {
      forall i, j | 0 <= i <= j < n && IsRunStart(ds, i) && OneRun(ds, i, j) ensures !Forgotten(ds[i], ds[j]) {
        RunsBefore(ds, c, i, j);
        assert !Forgotten(ds'[i], ds'[j]);
      }
      assert !Forgotten(ds'[StartOf(ds')], ds'[n]);
    } else {
      var i, j :| 0 <= i <= j < |ds'| && IsRunStart(ds', i) && OneRun(ds', i, j) && Forgotten(ds'[i], ds'[j]);
      if j < n {
        RunsBefore(ds, c, i, j);
        assert Forgotten(ds[i], ds[j]);
      } else {
        StartIsUnique(ds', i);
      }
    }
  }

  /** The arrival that the store still has for the run of equal stops that the arrivals end with. */
  function Holding(ds: seq<Call>): Call
    requires ds != []
  {
    var n := |ds| - 1;
    if n == 0 then ds[n] else Held(ds[n - 1], Holding(ds[..n]), ds[n])
  }

  function Held(last: Call, held: Call, c: Call): Call {
    if StopOf(last) != StopOf(c) || Forgotten(held, c) then c else held
  }

  lemma {:induction false} HoldingIsOne(ds: seq<Call>)
    requires ds != []
    ensures Holding(ds) in ds
  {
    if |ds| > 1 {
      HoldingIsOne(ds[..|ds| - 1]);
    }
  }

  lemma HoldingNext(ds: seq<Call>, c: Call)
    ensures Holding(ds + [c]) == if ds == [] then c else Held(ds[|ds| - 1], Holding(ds), c)
  {
    assert (ds + [c])[..|ds|] == ds && (ds + [c])[|ds|] == c;
    if ds != [] {
      assert (ds + [c])[|ds| - 1] == ds[|ds| - 1];
    }
  }

  lemma StartNext(ds: seq<Call>, c: Call)
    ensures RunStart(ds + [c]) == if ds != [] && StopOf(ds[|ds| - 1]) == StopOf(c) then RunStart(ds) else c
  {
    assert (ds + [c])[..|ds|] == ds;
  }

  predicate EndsIn(cs: seq<Call>, c: Call) {
    cs != [] && cs[|cs| - 1] == c
  }

  /** The chain ends with the arrival held, the collapsed arrivals with the run's start; the one is the other, or outlived it. */
  ghost predicate EndsKnown(ds: seq<Call>) {
    ds != [] ==>
      && EndsIn(Chain(ds), Holding(ds)) && EndsIn(Collapse(ds), RunStart(ds))
      && StopOf(Holding(ds)) == StopOf(RunStart(ds)) == StopOf(ds[|ds| - 1])
      && (Holding(ds) == RunStart(ds) || Forgotten(RunStart(ds), Holding(ds)))
  }

  lemma ChainEndNext(ds: seq<Call>, last: Call, held: Call, c: Call)
    requires EndsIn(ds, last) && EndsIn(Chain(ds), held) && StopOf(held) == StopOf(last) && c.task.Travel?
    ensures EndsIn(Chain(ds + [c]), Held(last, held, c))
  {
    ChainNext(ds, c);
  }

  lemma CollapseEndNext(ds: seq<Call>, last: Call, start: Call, c: Call)
    requires EndsIn(ds, last) && EndsIn(Collapse(ds), start)
    ensures EndsIn(Collapse(ds + [c]), if StopOf(last) == StopOf(c) then start else c)
  {
    CollapseNext(ds, c);
    assert Collapse(ds) + [] == Collapse(ds);
  }

  lemma EndsKnownNext(ds: seq<Call>, c: Call)
    requires ds != [] && EndsKnown(ds) && c.task.Travel?
    ensures EndsKnown(ds + [c])
  {
    var last := ds[|ds| - 1];
    ChainEndNext(ds, last, Holding(ds), c);
    CollapseEndNext(ds, last, RunStart(ds), c);
    HoldingNext(ds, c);
    StartNext(ds, c);
    assert (ds + [c])[|ds|] == c;
  }

  lemma {:induction false} EndsAreKnown(ds: seq<Call>)
    requires AllTravels(ds)
    ensures EndsKnown(ds)
  {
    if |ds| == 1 {
      ChainNext([], ds[0]);
      assert ds == [] + [ds[0]];
    } else if |ds| > 1 {
      var before, c := ds[..|ds| - 1], ds[|ds| - 1];
      assert ds == before + [c] && c in ds;
      EndsAreKnown(before);
      EndsKnownNext(before, c);
    }
  }

  lemma StaleNext(ds: seq<Call>, c: Call)
    requires AllTravels(ds + [c])
    requires StaleRepeats(ds) == 0 <==> Punctual(ds)
    requires StaleRepeats(ds) == 0 ==> ds == [] || Holding(ds) == RunStart(ds)
    ensures StaleRepeats(ds + [c]) == 0 <==> Punctual(ds + [c])
    ensures StaleRepeats(ds + [c]) == 0 ==> Holding(ds + [c]) == RunStart(ds + [c])
  {
    BeforeAllTravels(ds, c);
    EndsAreKnown(ds);
    CollapseNext(ds, c);
    StartNext(ds, c);
    HoldingNext(ds, c);
    PunctualNext(ds, c);
  }

  lemma {:induction false} StaleRepeatsAreLate(ds: seq<Call>)
    requires AllTravels(ds)
    ensures StaleRepeats(ds) == 0 <==> Punctual(ds)
    ensures StaleRepeats(ds) == 0 ==> ds == [] || Holding(ds) == RunStart(ds)
  {
    if ds != [] {
      var before, c := ds[..|ds| - 1], ds[|ds| - 1];
      assert ds == before + [c];
      StaleRepeatsAreLate(before);
      StaleNext(before, c);
    }
  }

  lemma {:induction false} ChainIsCollapse(ds: seq<Call>)
    requires AllTravels(ds)
    ensures Collapses(ds)
  {
    if ds != [] {
      var before, c := ds[..|ds| - 1], ds[|ds| - 1];
      assert ds == before + [c] && c in ds;
      ChainIsCollapse(before);
      CollapsesNext(before, c);
    }
  }

  /** The processor collapses runs of equal stops exactly when no arrival is over an hour later than its run's first. */
  lemma ChainCollapses(ds: seq<Call>)
    requires AllTravels(ds)
    ensures Chain(ds) == Collapse(ds) <==> Punctual(ds)
    ensures Punctual(ds) <==> StaleRepeats(ds) == 0
    ensures |Chain(ds)| == |Collapse(ds)| + StaleRepeats(ds)
  {
    ChainIsCollapse(ds);
    StaleRepeatsAreLate(ds);
  }

  predicate StopsChange(cs: seq<Call>) {
    forall k :: 0 < k < |cs| ==> StopOf(cs[k - 1]) != StopOf(cs[k])
  }

  lemma {:induction false} CollapsedStopsChange(ds: seq<Call>)
    ensures StopsChange(Collapse(ds))
    ensures ds != [] ==> Collapse(ds) != [] && StopOf(Collapse(ds)[|Collapse(ds)| - 1]) == StopOf(ds[|ds| - 1])
    ensures forall c :: c in Collapse(ds) ==> c in ds
  {
    if ds != [] {
      CollapsedStopsChange(ds[..|ds| - 1]);
    }
  }

  lemma {:induction false} CollapsedIsItsOwnChain(cs: seq<Call>)
    requires AllTravels(cs) && StopsChange(cs)
    ensures Chain(cs) == cs
  {
    if cs != [] {
      var before, c := cs[..|cs| - 1], cs[|cs| - 1];
      assert cs == before + [c] && c in cs;
      CollapsedIsItsOwnChain(before);
      ChainNext(before, c);
    }
  }

  lemma SentOfCollapsed(ds: seq<Call>, key: string)
    requires AtOneKey(ds, key) && AllTravels(ds)
    ensures Emitted(Trace(map[], Collapse(ds))) == Hops(Collapse(ds))
  {
    CollapsedStopsChange(ds);
    CollapsedIsItsOwnChain(Collapse(ds));
    SentAreHops(Collapse(ds), key);
  }

  /** The events sent on leaving a stop whose first arrival had been forgotten and replaced by a later one. */
  function Extra(ds: seq<Call>): nat {
    if |ds| <= 1 then 0
    else
      var n := |ds| - 1;
      var before := ds[..n];
      Extra(before) +
      if StopOf(ds[n - 1]) != StopOf(ds[n]) && Holding(before) != RunStart(before) then |Hop(Holding(before), ds[n])| else 0
  }

  lemma ExtraNext(ds: seq<Call>, c: Call)
    requires ds != []
    ensures Extra(ds + [c]) == Extra(ds) +
            if StopOf(ds[|ds| - 1]) != StopOf(c) && Holding(ds) != RunStart(ds) then |Hop(Holding(ds), c)| else 0
  {
    assert (ds + [c])[..|ds|] == ds;
  }

  lemma HopsOfExtended(chain: seq<Call>, held: Call, c: Call)
    requires EndsIn(chain, held) && c.task.Travel?
    ensures Hops(Extend(chain, c)) == Hops(chain) + if StopOf(held) != StopOf(c) then Hop(held, c) else []
  {
    HopsNext(chain, c);
    assert Hops(chain) + [] == Hops(chain);
  }

  lemma HopsOfAppended(cs: seq<Call>, start: Call, tail: seq<Call>, c: Call)
    requires EndsIn(cs, start) && tail == if StopOf(start) != StopOf(c) then [c] else []
    ensures Hops(cs + tail) == Hops(cs) + if StopOf(start) != StopOf(c) then Hop(start, c) else []
  {
    HopsNext(cs, c);
    assert cs + [] == cs && Hops(cs) + [] == Hops(cs);
  }

  /** What one more arrival adds to the hops of the chain and to those of the collapsed arrivals. */
  lemma ArrivalAdds(ds: seq<Call>, c: Call)
    requires ds != [] && AllTravels(ds + [c])
    ensures var moved := StopOf(ds[|ds| - 1]) != StopOf(c);
            && Hops(Chain(ds + [c])) == Hops(Chain(ds)) + (if moved then Hop(Holding(ds), c) else [])
            && Hops(Collapse(ds + [c])) == Hops(Collapse(ds)) + (if moved then Hop(RunStart(ds), c) else [])
  {
    BeforeAllTravels(ds, c);
    EndsAreKnown(ds);
    ChainNext(ds, c);
    HopsOfExtended(Chain(ds), Holding(ds), c);
    CollapseNext(ds, c);
    HopsOfAppended(Collapse(ds), RunStart(ds), if StopOf(ds[|ds| - 1]) == StopOf(c) then [] else [c], c);
  }

  /** An arrival held in place of its run's first is not forgotten with it: only its own hop can be sent. */
  lemma OutlivedHop(ds: seq<Call>, c: Call)
    requires ds != [] && AllTravels(ds) && Clocked(ds + [c]) && Holding(ds) != RunStart(ds)
    ensures Hop(RunStart(ds), c) == []
  {
    EndsAreKnown(ds);
    HoldingIsOne(ds);
    var i :| 0 <= i < |ds| && ds[i] == Holding(ds);
    assert (ds + [c])[i] == ds[i] && (ds + [c])[|ds|] == c;
  }

  /** All sent hops are those of the collapsed arrivals, but for the extra ones. */
  ghost predicate Counts(ds: seq<Call>) {
    && |Hops(Chain(ds))| == |Hops(Collapse(ds))| + Extra(ds)
    && (Extra(ds) == 0 ==> Hops(Chain(ds)) == Hops(Collapse(ds)))
  }

  lemma CountsNext(ds: seq<Call>, c: Call)
    requires ds != [] && AllTravels(ds + [c]) && Clocked(ds + [c]) && Counts(ds)
    ensures Counts(ds + [c])
  {
    ArrivalAdds(ds, c);
    ExtraNext(ds, c);
    if Holding(ds) != RunStart(ds) {
      BeforeAllTravels(ds, c);
      OutlivedHop(ds, c);
    }
  }

  lemma {:induction false} ExtrasAreCounted(ds: seq<Call>)
    requires AllTravels(ds) && Clocked(ds)
    ensures Counts(ds)
  {
    if |ds| <= 1 {
      assert |Chain(ds)| <= 1 && |Collapse(ds)| <= 1;
    } else {
      var before, c := ds[..|ds| - 1], ds[|ds| - 1];
      assert ds == before + [c];
      ExtrasAreCounted(before);
      CountsNext(before, c);
    }
  }

  /** The repeats of a stop make no difference to what is sent, if and only if nothing extra is sent. */
  lemma RepeatedArrivalsDoNotCount(ds: seq<Call>, key: string)
    requires AtOneKey(ds, key) && AllTravels(ds)
    ensures Clocked(ds) ==> (Emitted(Trace(map[], ds)) == Emitted(Trace(map[], Collapse(ds))) <==> Extra(ds) == 0)
    ensures Punctual(ds) ==> Emitted(Trace(map[], ds)) == Emitted(Trace(map[], Collapse(ds)))
  {
    SentAreHops(ds, key);
    SentOfCollapsed(ds, key);
    ChainCollapses(ds);
    if Clocked(ds) {
      ExtrasAreCounted(ds);
    }
  }

  lemma BeforeAtOneKey(ds: seq<Call>, c: Call, key: string)
    requires AtOneKey(ds + [c], key)
    ensures AtOneKey(ds, key)
  {
    assert forall d :: d in ds ==> d in ds + [c];
  }

  /** On reaching another stop, a stale repeat sends the hop from itself; with it collapsed, that hop is lost. */
  lemma StaleRepeatCounts(ds: seq<Call>, c: Call, key: string)
    requires AtOneKey(ds + [c], key) && AllTravels(ds + [c])
    requires ds != [] && StopOf(ds[|ds| - 1]) != StopOf(c)
    ensures Emitted(Trace(map[], ds + [c])) == Emitted(Trace(map[], ds)) + Hop(Holding(ds), c)
    ensures Emitted(Trace(map[], Collapse(ds + [c]))) == Emitted(Trace(map[], Collapse(ds))) + Hop(RunStart(ds), c)
    ensures Clocked(ds + [c]) && Holding(ds) != RunStart(ds) ==> Hop(RunStart(ds), c) == []
  {
    BeforeAtOneKey(ds, c, key);
    BeforeAllTravels(ds, c);
    SentAreHops(ds, key);
    SentAreHops(ds + [c], key);
    SentOfCollapsed(ds, key);
    SentOfCollapsed(ds + [c], key);
    ArrivalAdds(ds, c);
    if Clocked(ds + [c]) && Holding(ds) != RunStart(ds) {
      OutlivedHop(ds, c);
    }
  }

  /** b repeats the stop of a over an hour later, and c is at another stop within the hour after b, in a later second. */
  predicate LateRepeat(a: Call, b: Call, c: Call) {
    && StopOf(a) == StopOf(b) != StopOf(c)
    && Forgotten(a, b) && b.now <= c.now <= b.now + HOUR
    && 0 < TimeOf(c) - TimeOf(b) < INT32_LIMIT
  }

  lemma LateRepeatIsHeld(a: Call, b: Call, c: Call)
    requires LateRepeat(a, b, c)
    ensures Holding([a, b]) == b && RunStart([a, b]) == a
    ensures Extra([a, b, c]) == |Hop(b, c)|
  {
    assert [a, b] == [a] + [b] && [a, b, c] == [a, b] + [c];
    assert Holding([a]) == RunStart([a]) == a;
    HoldingNext([a], b);
    StartNext([a], b);
    ExtraNext([a], b);
    ExtraNext([a, b], c);
  }

  lemma LateRepeatHops(a: Call, b: Call, c: Call)
    requires AllTravels([a, b, c]) && LateRepeat(a, b, c)
    ensures Hops(Chain([a, b, c])) == Hop(b, c) && Hops(Collapse([a, b, c])) == []
  {
    assert [a, b] == [a] + [b] && [a, b, c] == [a, b] + [c];
    BeforeAllTravels([a, b], c);
    ArrivalAdds([a], b);
    ArrivalAdds([a, b], c);
    assert |Chain([a])| <= 1 && |Collapse([a])| <= 1;
    LateRepeatIsHeld(a, b, c);
  }

  /** Collapsing a late repeat loses the travel time from it, and nothing is sent from the forgotten first arrival. */
  lemma LateRepeatIsLost(a: Call, b: Call, c: Call, key: string)
    requires AtOneKey([a, b, c], key) && AllTravels([a, b, c]) && LateRepeat(a, b, c)
    ensures Emitted(Trace(map[], [a, b, c])) == [OfTravel(MakeTravel(EventOf(b), EventOf(c)))]
    ensures Emitted(Trace(map[], Collapse([a, b, c]))) == []
    ensures Extra([a, b, c]) == 1
  {
    LateRepeatHops(a, b, c);
    LateRepeatIsHeld(a, b, c);
    SentAreHops([a, b, c], key);
    SentOfCollapsed([a, b, c], key);
    assert c in [a, b, c] && Hop(b, c) == [OfTravel(MakeTravel(EventOf(b), EventOf(c)))];
  }

  /** Arrival times along the chain do not fall, and no hop is too long for 32 bits. */
  predicate TimesRise(chain: seq<Call>) {
    forall k :: 0 < k < |chain| ==> 0 <= TimeOf(chain[k]) - TimeOf(chain[k - 1]) < INT32_LIMIT
  }

  lemma {:induction false} NothingIsUnmeasured(chain: seq<Call>)
    requires AllTravels(chain) && Unforgotten(chain) && TimesRise(chain)
    ensures Unmeasured(chain) == 0
  {
    var n := |chain| - 1;
    if n > 0 {
      assert chain[n] in chain;
      NothingIsUnmeasured(chain[..n]);
    }
  }

  /** Travel seconds at a key sum to last stored minus first arrival time, though zero-length hops are not sent. */
  lemma TravelTimesSum(calls: seq<Call>, key: string, ds: seq<Call>, chain: seq<Call>)
    requires SweepsInTime(calls)
    requires ds == Chosen(calls, OfKey(key)) && chain == Chain(ds)
    requires ds != [] && AtOneKey(ds, key) && AllTravels(chain) && Unforgotten(chain) && TimesRise(chain)
    ensures chain != []
    ensures Seconds(Emitted(ChosenSteps(Trace(map[], calls), OfKey(key))))
            == TimeOf(chain[|chain| - 1]) - TimeOf(ds[0])
  {
    SentSecondsSpanTheChain(calls, key, ds, chain);
    NothingIsUnmeasured(chain);
  }
}
