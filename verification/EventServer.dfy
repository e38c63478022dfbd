/** The broadcast server: subscribers with bounded, lossy queues, registered until they unsubscribe. */
module EventServer {

  const CAPACITY := 16

  /** An event as its map of values, each in the string form that subscriptions are compared with. */
  type EventMap = map<string, string>

  /** The event has every value that the subscription asks for. */
  predicate Matches(subscription: map<string, string>, event: EventMap) {
    forall k :: k in subscription ==> k in event && event[k] == subscription[k]
  }

  /** A subscriber as a value: its queue, what it has received, and what was dropped for it. */
  datatype Mailbox = Mailbox(subscription: map<string, string>, queue: seq<EventMap>,
                             received: seq<EventMap>, dropped: seq<EventMap>)

  function NewMailbox(subscription: map<string, string>): Mailbox {
    Mailbox(subscription, [], [], [])
  }

  /** What a broadcast does to one mailbox. */
  function Offer(m: Mailbox, event: EventMap): Mailbox {
    if !Matches(m.subscription, event) then m
    else if |m.queue| < CAPACITY then m.(queue := m.queue + [event])
    else m.(dropped := m.dropped + [event])
  }

  function Take(m: Mailbox): Mailbox {
    if m.queue == [] then m else m.(queue := m.queue[1..], received := m.received + [m.queue[0]])
  }

  class Subscriber {
    const id: string
    const subscription: map<string, string>
    var channel: seq<EventMap>
    var open: bool
    ghost var received: seq<EventMap>
    ghost var dropped: seq<EventMap>

    constructor (id: string, subscription: map<string, string>)
      ensures this.id == id && this.subscription == subscription && open
      ensures channel == received == dropped == [] && View() == NewMailbox(subscription)
    {
      this.id := id;
      this.subscription := subscription;
      channel := [];
      open := true;
      received := [];
      dropped := [];
    }

    ghost function View(): Mailbox
      reads this
    {
      Mailbox(subscription, channel, received, dropped)
    }

    /** A send that never blocks; sending on a closed channel would panic. */
    method TrySend(event: EventMap)
      requires open
      modifies this`channel, this`dropped
      ensures if old(|channel|) < 16 then channel == old(channel) + [event] && dropped == old(dropped)
              else channel == old(channel) && dropped == old(dropped) + [event]
    {
      if |channel| < CAPACITY {
        channel := channel + [event];
      } else {
        dropped := dropped + [event];
      }
    }

    /** One subscriber's part of a broadcast. */
    method Deliver(event: EventMap)
      requires open
      modifies this`channel, this`dropped
      ensures if forall k :: k in subscription ==> k in event && event[k] == subscription[k] then
                if old(|channel|) < 16 then channel == old(channel) + [event] && dropped == old(dropped)
                else channel == old(channel) && dropped == old(dropped) + [event]
              else channel == old(channel) && dropped == old(dropped)
      ensures View() == Offer(old(View()), event)
    {
      var matched := Accepts(event);
      if matched {
        TrySend(event);
      }
    }

    /** A receive, if anything is queued. */
    method Receive() returns (event: EventMap, ok: bool)
      modifies this`channel, this`received
      ensures View() == Take(old(View()))
      ensures ok <==> old(channel) != []
      ensures ok ==> old(channel) == [event] + channel && received == old(received) + [event]
      ensures !ok ==> channel == old(channel) && received == old(received)
    {
      event, ok := map[], |channel| > 0;
      if ok {
        event := channel[0];
        channel := channel[1..];
        received := received + [event];
      }
    }

    /** The subscription filter, its keys tried in any order. */
    method Accepts(event: EventMap) returns (matched: bool)
      ensures matched <==> forall k :: k in subscription ==> k in event && event[k] == subscription[k]
      ensures matched <==> Matches(subscription, event)
    {
      matched := true;
      var pending := subscription.Keys;
      while pending != {}
        invariant pending <= subscription.Keys && matched
        invariant forall k :: k in subscription && k !in pending ==> k in event && event[k] == subscription[k]
        decreases pending
      {
        var k :| k in pending;
        pending := pending - {k};
        if k !in event {
          matched := false;
          break;
        }
        if subscription[k] != event[k] {
          matched := false;
          break;
        }
      }
    }
  }

  class Server {
    var clients: map<string, Subscriber>

    constructor ()
      ensures clients == map[] && Valid()
    {
      clients := map[];
    }

    /** Only open channels are registered, each under its own id, with no more than their capacity queued. */
    ghost predicate Valid()
      reads this, clients.Values
    {
      forall id :: id in clients ==> clients[id].id == id && clients[id].open && |clients[id].channel| <= CAPACITY
    }

    ghost function View(): map<string, Mailbox>
      reads this, clients.Values
    {
      map id | id in clients :: clients[id].View()
    }

    /** id is the fresh random id of the new subscriber. */
    method Subscribe(id: string, subscription: map<string, string>) returns (client: Subscriber)
      requires Valid() && id !in clients
      modifies this
      ensures Valid() && fresh(client) && clients == old(clients)[id := client]
      ensures client.id == id && client.subscription == subscription && client.open && client.channel == []
      ensures View() == Step(old(View()), Join(id, subscription))
    {
      client := new Subscriber(id, subscription);
      clients := clients[id := client];
    }

    /** Closing a channel twice would panic. */
    method Unsubscribe(client: Subscriber)
      requires Valid() && client.open && (client.id in clients ==> clients[client.id] == client)
      modifies this, client`open
      ensures Valid() && !client.open && clients == old(clients) - {client.id}
      ensures View() == Step(old(View()), Leave(client.id))
    {
      clients := clients - {client.id};
      client.open := false;
    }

    /** One subscriber's part of a broadcast leaves the others alone. */
    method DeliverTo(id: string, event: EventMap)
      requires Valid() && id in clients
      modifies clients[id]
      ensures Valid() && clients == old(clients)
      ensures View() == old(View())[id := Offer(old(View())[id], event)]
    {
      clients[id].Deliver(event);
    }

    /** The subscribers are served in any order; the result does not depend on it. */
    method Broadcast(event: EventMap)
      requires Valid()
      modifies clients.Values
      ensures Valid() && clients == old(clients)
      ensures View() == Step(old(View()), Cast(event))
      ensures forall id :: id in clients ==>
                var client := clients[id];
                if forall k :: k in client.subscription ==> k in event && event[k] == client.subscription[k] then
                  if |old(client.channel)| < 16 then client.channel == old(client.channel) + [event]
                  else client.channel == old(client.channel)
                else client.channel == old(client.channel)
    {
      ghost var before := View();
      PartlyEnds(before, event);
      var pending := clients.Keys;
      while pending != {}
        invariant pending <= clients.Keys && clients == old(clients)
        invariant Valid() && View() == Partly(before, pending, event)
        decreases pending
      {
        var id :| id in pending;
        PartlyNext(before, pending, id, event);
        DeliverTo(id, event);
        pending := pending - {id};
      }
      forall id | id in clients
        ensures clients[id].View() == Offer(old(clients[id].View()), event)
      {
        assert View()[id] == Offer(before[id], event);
      }
    }

    /** One receive by the handler of a registered client, if anything is queued for it. */
    method Serve(id: string) returns (event: EventMap, ok: bool)
      requires Valid()
      modifies clients.Values
      ensures Valid() && clients == old(clients)
      ensures View() == Step(old(View()), Consume(id))
      ensures ok <==> id in old(View()) && old(View())[id].queue != []
      ensures ok ==> old(View())[id].queue == [event] + clients[id].channel
    {
      event, ok := map[], false;
      if id in clients {
        event, ok := clients[id].Receive();
      }
    }
  }

  // ---- Runs ----

  datatype Action = Join(id: string, subscription: map<string, string>) | Leave(id: string) | Cast(event: EventMap)
    | Consume(id: string)

  function Step(s: map<string, Mailbox>, a: Action): map<string, Mailbox> {
    match a
    case Join(id, subscription) => s[id := NewMailbox(subscription)]
    case Leave(id) => s - {id}
    case Cast(event) => map id | id in s :: Offer(s[id], event)
    case Consume(id) => if id in s then s[id := Take(s[id])] else s
  }

  /** A broadcast that has yet to reach the pending subscribers. */
  ghost function Partly(s: map<string, Mailbox>, pending: set<string>, event: EventMap): map<string, Mailbox> {
    map id | id in s :: if id in pending then s[id] else Offer(s[id], event)
  }

  lemma PartlyEnds(s: map<string, Mailbox>, event: EventMap)
    ensures Partly(s, s.Keys, event) == s && Partly(s, {}, event) == Step(s, Cast(event))
  {
  }

  lemma PartlyNext(s: map<string, Mailbox>, pending: set<string>, id: string, event: EventMap)
    requires id in pending && id in s
    ensures Partly(s, pending - {id}, event) == Partly(s, pending, event)[id := Offer(Partly(s, pending, event)[id], event)]
  {
  }

  function Run(s: map<string, Mailbox>, actions: seq<Action>): map<string, Mailbox> {
    if actions == [] then s else Step(Run(s, actions[..|actions| - 1]), actions[|actions| - 1])
  }

  /** The actions neither subscribe nor unsubscribe id. */
  predicate Stays(actions: seq<Action>, id: string) {
    forall a :: a in actions && (a.Join? || a.Leave?) ==> a.id != id
  }

  /** What one mailbox makes of a run: broadcasts and its own receives, and nothing else. */
  function Follow(m: Mailbox, actions: seq<Action>, id: string): Mailbox {
    if actions == [] then m
    else
      var before := Follow(m, actions[..|actions| - 1], id);
      match actions[|actions| - 1]
      case Cast(event) => Offer(before, event)
      case Consume(id') => if id' == id then Take(before) else before
      case _ => before
  }

  /** What a subscriber gets does not depend on the other subscribers. */
  lemma {:induction false} SubscribersAreIndependent(s: map<string, Mailbox>, actions: seq<Action>, id: string)
    requires id in s && Stays(actions, id)
    ensures id in Run(s, actions) && Run(s, actions)[id] == Follow(s[id], actions, id)
  {
    if actions != [] {
      var before, a := actions[..|actions| - 1], actions[|actions| - 1];
      assert a in actions;
      SubscribersAreIndependent(s, before, id);
    }
  }

  /** The broadcasts that a subscription asks for. */
  function Wanted(actions: seq<Action>, subscription: map<string, string>): seq<EventMap> {
    if actions == [] then []
    else
      var a := actions[|actions| - 1];
      Wanted(actions[..|actions| - 1], subscription) +
      if a.Cast? && Matches(subscription, a.event) then [a.event] else []
  }

  /** kept is what is left of all when the events of lost are taken out of it. */
  predicate Interleaves(all: seq<EventMap>, kept: seq<EventMap>, lost: seq<EventMap>)
    decreases |all|
  {
    if all == [] then kept == [] && lost == []
    else
      var n, last := |all| - 1, all[|all| - 1];
      || (kept != [] && kept[|kept| - 1] == last && Interleaves(all[..n], kept[..|kept| - 1], lost))
      || (lost != [] && lost[|lost| - 1] == last && Interleaves(all[..n], kept, lost[..|lost| - 1]))
  }

  lemma {:induction false} InterleavesCounts(all: seq<EventMap>, kept: seq<EventMap>, lost: seq<EventMap>)
    requires Interleaves(all, kept, lost)
    ensures |kept| + |lost| == |all|
    decreases |all|
  {
    if all != [] {
      var n, last := |all| - 1, all[|all| - 1];
      if kept != [] && kept[|kept| - 1] == last && Interleaves(all[..n], kept[..|kept| - 1], lost) {
        InterleavesCounts(all[..n], kept[..|kept| - 1], lost);
      } else {
        InterleavesCounts(all[..n], kept, lost[..|lost| - 1]);
      }
    }
  }

  lemma InterleavesNext(all: seq<EventMap>, kept: seq<EventMap>, lost: seq<EventMap>, e: EventMap)
    requires Interleaves(all, kept, lost)
    ensures Interleaves(all + [e], kept + [e], lost) && Interleaves(all + [e], kept, lost + [e])
  {
    assert (all + [e])[..|all|] == all && (kept + [e])[..|kept|] == kept && (lost + [e])[..|lost|] == lost;
  }

  /** The mailbox accounts for the wanted events: received, then queued, in order; the rest dropped. */
  ghost predicate Accounts(m: Mailbox, wanted: seq<EventMap>) {
    Interleaves(wanted, m.received + m.queue, m.dropped) && |m.queue| <= 16
  }

  lemma OfferAccounts(m: Mailbox, wanted: seq<EventMap>, event: EventMap)
    requires Accounts(m, wanted)
    ensures Accounts(Offer(m, event), wanted + if Matches(m.subscription, event) then [event] else [])
  {
    if Matches(m.subscription, event) {
      InterleavesNext(wanted, m.received + m.queue, m.dropped, event);
      assert m.received + (m.queue + [event]) == (m.received + m.queue) + [event];
    } else {
      assert wanted + [] == wanted;
    }
  }

  lemma TakeAccounts(m: Mailbox, wanted: seq<EventMap>)
    requires Accounts(m, wanted)
    ensures Accounts(Take(m), wanted)
  {
    if m.queue != [] {
      assert (m.received + [m.queue[0]]) + m.queue[1..] == m.received + m.queue;
    }
  }

  lemma {:induction false} FollowAccounts(subscription: map<string, string>, actions: seq<Action>, id: string)
    ensures var m := Follow(NewMailbox(subscription), actions, id);
            m.subscription == subscription && Accounts(m, Wanted(actions, subscription))
  {
    if actions != [] {
      var before, a := actions[..|actions| - 1], actions[|actions| - 1];
      FollowAccounts(subscription, before, id);
      var m := Follow(NewMailbox(subscription), before, id);
      if a.Cast? {
        OfferAccounts(m, Wanted(before, subscription), a.event);
      } else {
        TakeAccounts(m, Wanted(before, subscription));
        assert Wanted(actions, subscription) == Wanted(before, subscription);
      }
    }
  }

  /**
   While subscribed, a subscriber's received and queued events are, in order, the wanted broadcasts without the
   dropped ones, and its queue never exceeds the capacity, whatever the others do and whoever was there before.
   */
  lemma DeliveryIsAccountedFor(s: map<string, Mailbox>, id: string, subscription: map<string, string>, actions: seq<Action>)
    requires Stays(actions, id)
    ensures var s' := Run(Step(s, Join(id, subscription)), actions);
            && id in s'
            && Interleaves(Wanted(actions, subscription), s'[id].received + s'[id].queue, s'[id].dropped)
            && |s'[id].received| + |s'[id].queue| + |s'[id].dropped| == |Wanted(actions, subscription)|
            && |s'[id].queue| <= 16
  {
    var joined := Step(s, Join(id, subscription));
    SubscribersAreIndependent(joined, actions, id);
    FollowAccounts(subscription, actions, id);
    var m := Follow(NewMailbox(subscription), actions, id);
    InterleavesCounts(Wanted(actions, subscription), m.received + m.queue, m.dropped);
  }

  /** Whenever something the subscriber wants is sent, its queue has room. */
  predicate KeepsUp(subscription: map<string, string>, actions: seq<Action>, id: string) {
    if actions == [] then true
    else
      var before, a := actions[..|actions| - 1], actions[|actions| - 1];
      && KeepsUp(subscription, before, id)
      && (a.Cast? && Matches(subscription, a.event) ==>
            |Follow(NewMailbox(subscription), before, id).queue| < 16)
  }

  lemma {:induction false} NothingDroppedIffKeepingUp(subscription: map<string, string>, actions: seq<Action>, id: string)
    ensures Follow(NewMailbox(subscription), actions, id).dropped == [] <==> KeepsUp(subscription, actions, id)
  {
    if actions != [] {
      NothingDroppedIffKeepingUp(subscription, actions[..|actions| - 1], id);
      FollowAccounts(subscription, actions[..|actions| - 1], id);
    }
  }
}
