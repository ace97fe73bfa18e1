/** The in-process event bus: per event id, an ordered list of subscriptions,
    changed in place by subscribe and the two unsubscribe operations. */
module EventEmitter {
  import opened Wrappers
  import opened Json

  /** A subscription. Its callback is always the built-in no-op, so it is not
      represented; whether a callback throws is a parameter of `Emit`. */
  datatype Subscription = Subscription(
    id: string,
    eventId: string,
    filter: Option<map<string, Value>>,
    subscriberId: string)

  /** The subscriptions of `xs` that `keep` accepts, in their original order. */
  function Filter(xs: seq<Subscription>, keep: Subscription -> bool): (r: seq<Subscription>)
    ensures |r| <= |xs|
    ensures forall s :: s in r <==> s in xs && keep(s)
  {
    if xs == [] then []
    else
      var prefix := Filter(xs[..|xs| - 1], keep);
      assert forall s :: s in xs <==> s in xs[..|xs| - 1] || s == xs[|xs| - 1] by {
        assert xs == xs[..|xs| - 1] + [xs[|xs| - 1]];
      }
      if keep(xs[|xs| - 1]) then prefix + [xs[|xs| - 1]] else prefix
  }

  /** Filtering distributes over concatenation, so relative order is kept. */
  lemma {:induction false} FilterAppend(xs: seq<Subscription>, ys: seq<Subscription>, keep: Subscription -> bool)
    ensures Filter(xs + ys, keep) == Filter(xs, keep) + Filter(ys, keep)
    decreases |ys|
  {
    if ys == [] {
      assert xs + ys == xs;
    } else {
      var last := ys[|ys| - 1];
      assert (xs + ys)[..|xs + ys| - 1] == xs + ys[..|ys| - 1];
      FilterAppend(xs, ys[..|ys| - 1], keep);
    }
  }

  /** Filtering with a test every element passes keeps the list as it is. */
  lemma {:induction false} FilterAllKept(xs: seq<Subscription>, keep: Subscription -> bool)
    requires forall i :: 0 <= i < |xs| ==> keep(xs[i])
    ensures Filter(xs, keep) == xs
    decreases |xs|
  {
    if xs != [] {
      FilterAllKept(xs[..|xs| - 1], keep);
    }
  }

  /** The survivors of `removeIf(sub -> sub.getId().equals(id))`. */
  function OtherIds(id: string): Subscription -> bool {
    (s: Subscription) => s.id != id
  }

  /** The survivors of `removeIf(sub -> sub.getSubscriberId().equals(subscriber))`. */
  function OtherSubscribers(subscriberId: string): Subscription -> bool {
    (s: Subscription) => s.subscriberId != subscriberId
  }

  /** `removeIf` on one list, element by element, keeping what `keep` accepts. */
  method RemoveIf(xs: seq<Subscription>, keep: Subscription -> bool) returns (r: seq<Subscription>)
    ensures r == Filter(xs, keep)
  {
    r := [];
    var i := 0;
    while i < |xs|
      invariant 0 <= i <= |xs|
      invariant r == Filter(xs[..i], keep)
    {
      assert xs[..i + 1][..i] == xs[..i];
      if keep(xs[i]) {
        r := r + [xs[i]];
      }
      i := i + 1;
    }
    assert xs[..i] == xs;
  }

  class McpEventEmitter {
    var subscriptions: map<string, seq<Subscription>>

    constructor ()
      ensures subscriptions == map[]
    {
      subscriptions := map[];
    }

    /** The list for an event; an event never subscribed to has none. */
    function Listeners(eventId: string): seq<Subscription>
      reads this
    {
      if eventId in subscriptions then subscriptions[eventId] else []
    }

    /** `getSubscriptionCount`: 0 for an unknown event. */
    function SubscriptionCount(eventId: string): (n: nat)
      reads this
      ensures eventId !in subscriptions ==> n == 0
      ensures n == |Listeners(eventId)|
    {
      if eventId in subscriptions then |subscriptions[eventId]| else 0
    }

    /** `subscribe`: appends a subscription with the given fresh id to the end of
        the event's list, creating the list when needed; no other event changes. */
    method Subscribe(eventId: string, filter: Option<map<string, Value>>, subscriberId: string, newId: string)
      returns (s: Subscription)
      modifies this
      ensures s.id == newId && s.eventId == eventId && s.subscriberId == subscriberId && s.filter == filter
      ensures subscriptions == old(subscriptions)[eventId := old(Listeners(eventId)) + [s]]
      ensures SubscriptionCount(eventId) == old(SubscriptionCount(eventId)) + 1
      ensures forall e :: e != eventId ==> Listeners(e) == old(Listeners(e))
    {
      s := Subscription(newId, eventId, filter, subscriberId);
      var current := if eventId in subscriptions then subscriptions[eventId] else [];
      subscriptions := subscriptions[eventId := current + [s]];
    }

    /** `emit(eventId, data)`: every subscription of the event in insertion
        order; a callback that throws (`fails`) is reported and the loop goes on. */
    method Emit(eventId: string, eventData: Value, fails: Subscription -> bool)
      returns (visited: seq<Subscription>, failed: seq<Subscription>)
      ensures visited == Listeners(eventId)
      ensures failed == Filter(Listeners(eventId), fails)
    {
      visited, failed := [], [];
      if eventId !in subscriptions || subscriptions[eventId] == [] {
        return;
      }
      var subscribers := subscriptions[eventId];
      var i := 0;
      while i < |subscribers|
        invariant 0 <= i <= |subscribers|
        invariant visited == subscribers[..i]
        invariant failed == Filter(subscribers[..i], fails)
      {
        assert subscribers[..i + 1][..i] == subscribers[..i];
        visited := visited + [subscribers[i]];
        if fails(subscribers[i]) {
          failed := failed + [subscribers[i]];
        }
        i := i + 1;
      }
      assert subscribers[..i] == subscribers;
    }

    /** `emit(eventId, data, filter)`: exactly the subscriptions the filter
        accepts, in insertion order. */
    method EmitFiltered(eventId: string, eventData: Value, accept: Subscription -> bool)
      returns (visited: seq<Subscription>)
      ensures visited == Filter(Listeners(eventId), accept)
    {
      visited := [];
      if eventId !in subscriptions || subscriptions[eventId] == [] {
        return;
      }
      var subscribers := subscriptions[eventId];
      var i := 0;
      while i < |subscribers|
        invariant 0 <= i <= |subscribers|
        invariant visited == Filter(subscribers[..i], accept)
      {
        assert subscribers[..i + 1][..i] == subscribers[..i];
        if accept(subscribers[i]) {
          visited := visited + [subscribers[i]];
        }
        i := i + 1;
      }
      assert subscribers[..i] == subscribers;
    }

    /** `removeIf` on every event's list; the set of events is kept. */
    method RemoveEverywhere(keep: Subscription -> bool)
      modifies this
      ensures subscriptions.Keys == old(subscriptions).Keys
      ensures forall e :: e in subscriptions ==> subscriptions[e] == Filter(old(subscriptions)[e], keep)
    {
      var pending := subscriptions.Keys;
      var done: set<string> := {};
      while pending != {}
        invariant pending + done == old(subscriptions).Keys && pending !! done
        invariant subscriptions.Keys == old(subscriptions).Keys
        invariant forall e :: e in done ==> subscriptions[e] == Filter(old(subscriptions)[e], keep)
        invariant forall e :: e in pending ==> subscriptions[e] == old(subscriptions)[e]
        decreases pending
      {
        var e :| e in pending;
        var kept := RemoveIf(subscriptions[e], keep);
        subscriptions := subscriptions[e := kept];
        pending, done := pending - {e}, done + {e};
      }
    }

    /** `unsubscribe(id)`: removes every subscription with that id, in every event. */
    method Unsubscribe(subscriptionId: string)
      modifies this
      ensures subscriptions.Keys == old(subscriptions).Keys
      ensures forall e :: e in subscriptions ==>
                subscriptions[e] == Filter(old(subscriptions)[e], OtherIds(subscriptionId))
    {
      RemoveEverywhere(OtherIds(subscriptionId));
    }

    /** `unsubscribeAll(subscriber)`: removes exactly that subscriber's subscriptions. */
    method UnsubscribeAll(subscriberId: string)
      modifies this
      ensures subscriptions.Keys == old(subscriptions).Keys
      ensures forall e :: e in subscriptions ==>
                subscriptions[e] == Filter(old(subscriptions)[e], OtherSubscribers(subscriberId))
    {
      RemoveEverywhere(OtherSubscribers(subscriberId));
    }

    /** `clearAll`: every count drops to 0. */
    method ClearAll()
      modifies this
      ensures subscriptions == map[]
      ensures forall e :: SubscriptionCount(e) == 0
    {
      subscriptions := map[];
    }
  }

  /** Subscribing and then unsubscribing the returned id leaves the event's list
      as it was, provided the fresh id was not already in use there. */
  method SubscribeThenUnsubscribe(bus: McpEventEmitter, eventId: string, subscriberId: string, newId: string)
    modifies bus
    requires forall s :: s in bus.Listeners(eventId) ==> s.id != newId
    ensures bus.Listeners(eventId) == old(bus.Listeners(eventId))
  {
    var before := bus.Listeners(eventId);
    var s := bus.Subscribe(eventId, None, subscriberId, newId);
    bus.Unsubscribe(s.id);
    var keep := OtherIds(newId);
    FilterAppend(before, [s], keep);
    FilterAllKept(before, keep);
    assert Filter([s], keep) == [] by {
      assert [s][..0] == [];
    }
  }
}
