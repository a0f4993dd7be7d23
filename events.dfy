/** The proxy's listener registry: callbacks, named by number, registered per event type in
    insertion order, and what firing a sequence of events invokes. */
module EventHub {
  import opened Simulator

  /** One invocation of a registered callback. */
  datatype Delivery = Delivery(eventType: EventType, callback: nat)

  /** The callbacks registered for `t`, in registration order. */
  function Callbacks(listeners: map<EventType, seq<nat>>, t: EventType): seq<nat>
  {
    if t in listeners then listeners[t] else []
  }

  /** The invocations that firing `t` makes: each of `callbacks`, in order. */
  function Deliveries(t: EventType, callbacks: seq<nat>): seq<Delivery>
  {
    if callbacks == [] then [] else [Delivery(t, callbacks[0])] + Deliveries(t, callbacks[1..])
  }

  /** Invoking one more callback extends the invocations by exactly that one. */
  lemma {:induction false} DeliveriesSnoc(t: EventType, callbacks: seq<nat>, c: nat)
    ensures Deliveries(t, callbacks + [c]) == Deliveries(t, callbacks) + [Delivery(t, c)]
  {
    if callbacks == [] {
      assert callbacks + [c] == [c];
    } else {
      assert (callbacks + [c])[1..] == callbacks[1..] + [c];
      DeliveriesSnoc(t, callbacks[1..], c);
    }
  }

  /** The invocations that firing each of `events` in turn makes. */
  function DeliveriesOf(listeners: map<EventType, seq<nat>>, events: seq<EventType>): seq<Delivery>
  {
    if events == [] then []
    else Deliveries(events[0], Callbacks(listeners, events[0])) + DeliveriesOf(listeners, events[1..])
  }

  lemma {:induction false} DeliveriesOfAppend(listeners: map<EventType, seq<nat>>, a: seq<EventType>, b: seq<EventType>)
    ensures DeliveriesOf(listeners, a + b) == DeliveriesOf(listeners, a) + DeliveriesOf(listeners, b)
  {
    if a == [] {
      assert a + b == b;
    } else {
      assert (a + b)[1..] == a[1..] + b;
      DeliveriesOfAppend(listeners, a[1..], b);
    }
  }

  lemma {:induction false} DeliveriesMembers(t: EventType, callbacks: seq<nat>, d: Delivery)
    ensures d in Deliveries(t, callbacks) <==> d.eventType == t && d.callback in callbacks
  {
    if callbacks != [] {
      DeliveriesMembers(t, callbacks[1..], d);
      assert callbacks == [callbacks[0]] + callbacks[1..];
    }
  }

  /** Firing `e` after `es`: a trace extended by `es` and then by `e` is extended by `es + [e]`. */
  lemma FireStep(listeners: map<EventType, seq<nat>>, es: seq<EventType>, e: EventType,
                 fired0: seq<EventType>, fired1: seq<EventType>, fired2: seq<EventType>,
                 delivered0: seq<Delivery>, delivered1: seq<Delivery>, delivered2: seq<Delivery>)
    requires fired1 == fired0 + es && delivered1 == delivered0 + DeliveriesOf(listeners, es)
    requires fired2 == fired1 + [e] && delivered2 == delivered1 + Deliveries(e, Callbacks(listeners, e))
    ensures fired2 == fired0 + (es + [e])
    ensures delivered2 == delivered0 + DeliveriesOf(listeners, es + [e])
  {
    DeliveriesOfSingle(listeners, e);
    TraceConcat(listeners, es, [e], fired0, fired1, fired2, delivered0, delivered1, delivered2);
  }

  lemma DeliveriesOfSingle(listeners: map<EventType, seq<nat>>, e: EventType)
    ensures DeliveriesOf(listeners, [e]) == Deliveries(e, Callbacks(listeners, e))
  {
    assert [e][1..] == [];
    assert DeliveriesOf(listeners, [e]) == Deliveries(e, Callbacks(listeners, e)) + DeliveriesOf(listeners, []);
  }

  /** Firing two events invokes the first one's callbacks, then the second one's. */
  lemma DeliveriesOfPair(listeners: map<EventType, seq<nat>>, a: EventType, b: EventType)
    ensures DeliveriesOf(listeners, [a, b]) ==
      Deliveries(a, Callbacks(listeners, a)) + Deliveries(b, Callbacks(listeners, b))
  {
    DeliveriesOfSingle(listeners, a);
    DeliveriesOfSingle(listeners, b);
    assert [a, b] == [a] + [b];
    DeliveriesOfAppend(listeners, [a], [b]);
  }

  /** A trace extended by `a` and then by `b` is extended by `a + b`. */
  lemma TraceConcat(listeners: map<EventType, seq<nat>>, a: seq<EventType>, b: seq<EventType>,
                    fired0: seq<EventType>, fired1: seq<EventType>, fired2: seq<EventType>,
                    delivered0: seq<Delivery>, delivered1: seq<Delivery>, delivered2: seq<Delivery>)
    requires fired1 == fired0 + a && delivered1 == delivered0 + DeliveriesOf(listeners, a)
    requires fired2 == fired1 + b && delivered2 == delivered1 + DeliveriesOf(listeners, b)
    ensures fired2 == fired0 + (a + b)
    ensures delivered2 == delivered0 + DeliveriesOf(listeners, a + b)
  {
    DeliveriesOfAppend(listeners, a, b);
  }

  /** Every invocation made by firing `events` belongs to one of them and to one of its callbacks. */
  lemma {:induction false} DeliveriesAreRegistered(listeners: map<EventType, seq<nat>>, events: seq<EventType>, d: Delivery)
    requires d in DeliveriesOf(listeners, events)
    ensures d.eventType in events && d.callback in Callbacks(listeners, d.eventType)
  {
    var first := Deliveries(events[0], Callbacks(listeners, events[0]));
    DeliveriesMembers(events[0], Callbacks(listeners, events[0]), d);
    if d !in first {
      DeliveriesAreRegistered(listeners, events[1..], d);
    }
  }
}
