/** messages/event_manager.go: the registered subscriptions and their counter. */
module EventManagement {
  import opened Types
  import opened Events

  /** An int32. */
  type SubscriptionID = x: int | -0x8000_0000 <= x < 0x8000_0000

  class EventManager {
    var subscriptions: map<SubscriptionID, Subscription>
    var numSubscriptions: int

    /** The counter that signalEvent reads without the lock counts the map. */
    ghost predicate Valid()
      reads this
    {
      numSubscriptions == |subscriptions|
    }

    constructor ()
      ensures Valid() && subscriptions == map[]
    {
      subscriptions := map[];
      numSubscriptions := 0;
    }

    /** Identifiers are assumed not to repeat. */
    method Subscribe(id: SubscriptionID, details: Details)
      requires Valid() && id !in subscriptions
      modifies this
      ensures Valid() && subscriptions == old(subscriptions)[id := NewSubscription(details)]
    {
      subscriptions := subscriptions[id := NewSubscription(details)];
      numSubscriptions := numSubscriptions + 1;
    }

    /** An identifier that is not registered is ignored. */
    method CancelSubscription(id: SubscriptionID)
      requires Valid()
      modifies this
      ensures Valid() && subscriptions == old(subscriptions) - {id}
    {
      if id in subscriptions {
        var rest := subscriptions - {id};
        assert subscriptions.Keys == rest.Keys + {id};
        subscriptions := rest;
        numSubscriptions := numSubscriptions - 1;
      }
    }

    /** Every subscription gets the event, in whatever order; returning early on a
        zero counter skips nobody. */
    method SignalEvent(kind: MessageType, view: View)
      requires Valid()
      modifies this
      ensures Valid()
      ensures subscriptions.Keys == old(subscriptions).Keys
      ensures forall id :: id in subscriptions ==> subscriptions[id] == Next(old(subscriptions)[id], Push(kind, view))
    {
      if numSubscriptions == 0 {
        return;
      }
      PushAll(Push(kind, view));
    }

    method PushAll(push: Turn)
      requires Valid()
      modifies this
      ensures Valid()
      ensures subscriptions.Keys == old(subscriptions).Keys
      ensures forall id :: id in subscriptions ==> subscriptions[id] == Next(old(subscriptions)[id], push)
    {
      hide Next;
      var rest := subscriptions.Keys;
      ghost var before := subscriptions;
      while rest != {}
        invariant rest <= subscriptions.Keys && subscriptions.Keys == before.Keys
        invariant numSubscriptions == |before|
        invariant forall id :: id in subscriptions ==>
                    subscriptions[id] == if id in rest then before[id] else Next(before[id], push)
        decreases rest
      {
        var id :| id in rest;
        rest := rest - {id};
        subscriptions := subscriptions[id := Next(subscriptions[id], push)];
      }
      assert |subscriptions| == |subscriptions.Keys| == |before.Keys| == |before|;
    }
  }
}
