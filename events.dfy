/**
 * Events, observers and parameters as the dispatch protocol sees them.
 *
 * A parameter's value is abstracted to the history of changes applied to it
 * (the realtime pass calls `Apply` once per event); an observer callback
 * (`onParameterUpdated`) is recorded as a `Delivery` of one event to one
 * observer.
 */
module Events {

  newtype byte = b: int | 0 <= b < 256

  /** A parameter observer; `realtime` is the affinity fixed at construction. */
  class Observer {
    const realtime: bool

    constructor (realtime: bool)
      ensures this.realtime == realtime
    {
      this.realtime := realtime;
    }
  }

  /** The mutation an event carries: one variant per event kind. */
  datatype Change =
    | Value(value: real)                    // Event: applyValue
    | ScaledValue(scaled: real)             // ScaledEvent: applyScaledValue
    | Data(data: array?<byte>, size: nat)   // DataEvent: applyData(data, size)

  /**
   * A parameter: a name, whether it is a data parameter (the variant tag
   * that `dynamic_cast<DataParameter *>` tests), its observers in
   * registration order, and the changes applied to it, oldest first.
   */
  class Parameter {
    const name: string
    const isData: bool
    const observers: seq<Observer>
    var applied: seq<Change>

    constructor (name: string, isData: bool, observers: seq<Observer>)
      ensures this.name == name && this.isData == isData && this.observers == observers
      ensures applied == []
    {
      this.name := name;
      this.isData := isData;
      this.observers := observers;
      applied := [];
    }

    /** The mutation step of an event: only the realtime pass calls it. */
    method Apply(change: Change)
      modifies this
      ensures applied == old(applied) + [change]
    {
      applied := applied + [change];
    }
  }

  /** A change request with its header: target, realtime flag and sender. */
  datatype Event = Event(parameter: Parameter, change: Change, isRealtime: bool, sender: Observer?)

  /** One invocation of `onParameterUpdated` on `observer` for `event`. */
  datatype Delivery = Delivery(observer: Observer, event: Event)

  /**
   * One notification pass of `e` in context `realtime`: every observer of the
   * list whose affinity matches and that is not the sender, in list order.
   */
  function Notify(observers: seq<Observer>, e: Event, realtime: bool): (ds: seq<Delivery>)
    ensures |ds| <= |observers|
  {
    if observers == [] then []
    else
      var o := observers[0];
      (if o.realtime == realtime && o != e.sender then [Delivery(o, e)] else [])
      + Notify(observers[1..], e, realtime)
  }

  /** The deliveries of one pass over a queue of events, in queue order. */
  function Deliveries(events: seq<Event>, realtime: bool): seq<Delivery>
  {
    if events == [] then []
    else
      var last := events[|events| - 1];
      Deliveries(events[..|events| - 1], realtime) + Notify(last.parameter.observers, last, realtime)
  }

  /** Every delivery of a pass is about `e`, to a matching observer that is not the sender. */
  lemma {:induction false} NotifySound(observers: seq<Observer>, e: Event, realtime: bool, d: Delivery)
    requires d in Notify(observers, e, realtime)
    ensures d.event == e && d.observer in observers
    ensures d.observer.realtime == realtime && d.observer != e.sender
  {
    var o := observers[0];
    var head := if o.realtime == realtime && o != e.sender then [Delivery(o, e)] else [];
    if d !in head {
      NotifySound(observers[1..], e, realtime, d);
    }
  }

  /** Every delivery of a queue pass is about a queued event, to a matching observer of its target. */
  lemma {:induction false} DeliveriesSound(events: seq<Event>, realtime: bool, d: Delivery)
    requires d in Deliveries(events, realtime)
    ensures d.event in events && d.observer in d.event.parameter.observers
    ensures d.observer.realtime == realtime && d.observer != d.event.sender
  {
    var last := events[|events| - 1];
    var init := events[..|events| - 1];
    if d in Deliveries(init, realtime) {
      DeliveriesSound(init, realtime, d);
    } else {
      NotifySound(last.parameter.observers, last, realtime, d);
    }
  }

  /**
   * Appending one event to a pass adds that event's notification pass,
   * stated after a prefix `base` of earlier callbacks.
   */
  lemma DeliveriesSnoc(base: seq<Delivery>, events: seq<Event>, e: Event, realtime: bool)
    ensures base + Deliveries(events + [e], realtime)
         == base + Deliveries(events, realtime) + Notify(e.parameter.observers, e, realtime)
  {
    assert (events + [e])[..|events|] == events;
  }

  /** The changes of `events` that target `p`, in queue order. */
  function ChangesFor(events: seq<Event>, p: Parameter): (cs: seq<Change>)
    ensures |cs| <= |events|
  {
    if events == [] then []
    else
      var last := events[|events| - 1];
      ChangesFor(events[..|events| - 1], p) + (if last.parameter == p then [last.change] else [])
  }

  /** Appending one event adds its change to the history of its own target, after `base`. */
  lemma ChangesForSnocTarget(base: seq<Change>, events: seq<Event>, e: Event)
    ensures base + ChangesFor(events + [e], e.parameter) == base + ChangesFor(events, e.parameter) + [e.change]
  {
    assert (events + [e])[..|events|] == events;
  }

  /** Appending one event leaves the changes for every other parameter alone. */
  lemma ChangesForSnocOthers(events: seq<Event>, e: Event)
    ensures forall p :: p != e.parameter ==> ChangesFor(events + [e], p) == ChangesFor(events, p)
  {
    assert (events + [e])[..|events|] == events;
  }

  /** The change of every queued event is among the changes the pass applies to its target. */
  lemma {:induction false} ChangeApplied(events: seq<Event>, e: Event)
    requires e in events
    ensures e.change in ChangesFor(events, e.parameter)
  {
    var last := events[|events| - 1];
    var init := events[..|events| - 1];
    if e != last {
      assert events == init + [last];
      ChangeApplied(init, e);
    }
  }

  /** The parameters targeted by a queue of events. */
  function Targets(events: seq<Event>): set<Parameter>
  {
    set e | e in events :: e.parameter
  }

  /** A pass over a single event applies exactly its change to its target. */
  lemma SingleEventChanges(e: Event)
    ensures e.parameter in Targets([e])
    ensures ChangesFor([e], e.parameter) == [e.change]
  {
    assert [e][..0] == [];
  }

  /** The events `o` was notified about, in delivery order. */
  function Received(ds: seq<Delivery>, o: Observer): seq<Event>
  {
    if ds == [] then []
    else (if ds[0].observer == o then [ds[0].event] else []) + Received(ds[1..], o)
  }

  /** How many times `o` is registered in an observer list. */
  function Occurrences(observers: seq<Observer>, o: Observer): nat
  {
    if observers == [] then 0
    else (if observers[0] == o then 1 else 0) + Occurrences(observers[1..], o)
  }

  function Repeat(e: Event, n: nat): (r: seq<Event>)
    ensures |r| == n && forall x :: x in r ==> x == e
  {
    if n == 0 then [] else [e] + Repeat(e, n - 1)
  }

  /**
   * Reference definition of what `o` must hear in context `realtime` for a
   * queue of events: each event once per registration of `o` on its target,
   * unless `o` has the other affinity or is the event's sender.
   */
  function Expected(events: seq<Event>, o: Observer, realtime: bool): seq<Event>
  {
    if events == [] then []
    else
      var last := events[|events| - 1];
      Expected(events[..|events| - 1], o, realtime)
      + (if o.realtime == realtime && o != last.sender
         then Repeat(last, Occurrences(last.parameter.observers, o)) else [])
  }

  lemma {:induction false} ReceivedAppend(a: seq<Delivery>, b: seq<Delivery>, o: Observer)
    ensures Received(a + b, o) == Received(a, o) + Received(b, o)
  {
    if a == [] {
      assert a + b == b;
    } else {
      var ab := a + b;
      var head := if a[0].observer == o then [a[0].event] else [];
      assert ab[0] == a[0];
      assert ab[1..] == a[1..] + b;
      assert Received(ab, o) == head + Received(a[1..] + b, o);
      ReceivedAppend(a[1..], b, o);
      assert Received(a, o) == head + Received(a[1..], o);
    }
  }

  /** One pass of one event: `o` hears it once per registration, or not at all. */
  lemma {:induction false} ReceivedNotify(observers: seq<Observer>, e: Event, realtime: bool, o: Observer)
    ensures Received(Notify(observers, e, realtime), o)
         == if o.realtime == realtime && o != e.sender then Repeat(e, Occurrences(observers, o)) else []
  {
    if observers != [] {
      var first := observers[0];
      var head := if first.realtime == realtime && first != e.sender then [Delivery(first, e)] else [];
      ReceivedAppend(head, Notify(observers[1..], e, realtime), o);
      ReceivedNotify(observers[1..], e, realtime, o);
      assert Received(head, o) == if first == o && o.realtime == realtime && o != e.sender then [e] else [] by {
        if head != [] { assert head[1..] == []; }
      }
    }
  }

  /**
   * A pass over a whole queue notifies `o` of exactly the events the
   * reference definition `Expected` lists, in queue order: no event is
   * coalesced, dropped or repeated.
   */
  lemma {:induction false} ReceivedDeliveries(events: seq<Event>, realtime: bool, o: Observer)
    ensures Received(Deliveries(events, realtime), o) == Expected(events, o, realtime)
  {
    if events != [] {
      var last := events[|events| - 1];
      var init := events[..|events| - 1];
      ReceivedAppend(Deliveries(init, realtime), Notify(last.parameter.observers, last, realtime), o);
      ReceivedDeliveries(init, realtime, o);
      ReceivedNotify(last.parameter.observers, last, realtime, o);
    }
  }

  /**
   * One change seen over both passes: an observer registered once on the
   * target is notified exactly once, in its own context; the sender is
   * notified zero times.
   */
  lemma NotifiedOnceUnlessSender(e: Event, o: Observer)
    requires Occurrences(e.parameter.observers, o) == 1
    ensures Received(Deliveries([e], o.realtime), o) == if o == e.sender then [] else [e]
    ensures Received(Deliveries([e], !o.realtime), o) == []
  {
    ReceivedDeliveries([e], o.realtime, o);
    ReceivedDeliveries([e], !o.realtime, o);
    assert [e][..0] == [];
  }

  lemma {:induction false} DeliveriesAppend(a: seq<Event>, b: seq<Event>, realtime: bool)
    ensures Deliveries(a + b, realtime) == Deliveries(a, realtime) + Deliveries(b, realtime)
  {
    if b == [] {
      assert a + b == a;
    } else {
      var last := b[|b| - 1];
      var init := b[..|b| - 1];
      var tail := Notify(last.parameter.observers, last, realtime);
      assert (a + b)[..|a + b| - 1] == a + init;
      assert (a + b)[|a + b| - 1] == last;
      assert Deliveries(a + b, realtime) == Deliveries(a + init, realtime) + tail;
      DeliveriesAppend(a, init, realtime);
      assert Deliveries(b, realtime) == Deliveries(init, realtime) + tail;
    }
  }

  /**
   * Last write wins: the newest change applied to `p` by a pass over
   * `events` is the change of the last event in queue order that targets `p`.
   */
  lemma {:induction false} LastEventWins(events: seq<Event>, p: Parameter, k: nat)
    requires k < |events| && events[k].parameter == p
    requires forall j :: k < j < |events| ==> events[j].parameter != p
    ensures ChangesFor(events, p) != []
    ensures ChangesFor(events, p)[|ChangesFor(events, p)| - 1] == events[k].change
  {
    if k < |events| - 1 {
      LastEventWins(events[..|events| - 1], p, k);
    }
  }
}
