/**
 * The event dispatcher: a FIFO queue of events, a killed flag, a count of
 * wake-up signals and the log of observer callbacks its processing made.
 * A realtime-mode dispatcher is drained by `ProcessAndRelay` (apply,
 * notify realtime observers, relay to the async dispatcher); an async-mode
 * dispatcher is drained by `Process` (notify async observers only).
 *
 * Next to each callback the dispatcher keeps, as ghost state, the history
 * of the event's parameter at the moment of the callback: what the observer
 * reads when it asks the parameter for its value.
 */
module Dispatch {
  import opened Events

  lemma AppendAssoc<T>(a: seq<T>, b: seq<T>, c: seq<T>)
    ensures a + b + c == a + (b + c)
  {
  }

  /** Moving the head of `rest` to the end of `done` keeps their concatenation. */
  lemma ConsumeFront<T>(done: seq<T>, rest: seq<T>)
    requires rest != []
    ensures done + [rest[0]] + rest[1..] == done + rest
    ensures rest[0] in done + rest
  {
    assert rest == [rest[0]] + rest[1..];
  }

  /** The snapshot every callback of one notification pass takes: `n` copies of one history. */
  function Copies(h: seq<Change>, n: nat): (r: seq<seq<Change>>)
    ensures |r| == n && forall i :: 0 <= i < n ==> r[i] == h
  {
    if n == 0 then [] else [h] + Copies(h, n - 1)
  }

  /** The newest change of history `h` is `c`. */
  ghost predicate EndsWith(h: seq<Change>, c: Change)
  {
    h != [] && h[|h| - 1] == c
  }

  /** One snapshot per callback, and each one's newest change is that of the callback's own event. */
  ghost predicate SawOwnChange(ds: seq<Delivery>, seen: seq<seq<Change>>)
  {
    |ds| == |seen| && forall k :: 0 <= k < |ds| ==> EndsWith(seen[k], ds[k].event.change)
  }

  /** One snapshot per callback, and each one is the present history of the callback's parameter. */
  ghost predicate SawCurrent(ds: seq<Delivery>, seen: seq<seq<Change>>)
    reads set d | d in ds :: d.event.parameter
  {
    |ds| == |seen| && forall k :: 0 <= k < |ds| ==> seen[k] == ds[k].event.parameter.applied
  }

  /** Every callback of one notification pass is about that pass's event. */
  lemma NotifyEvents(observers: seq<Observer>, e: Event, realtime: bool)
    ensures forall i :: 0 <= i < |Notify(observers, e, realtime)| ==> Notify(observers, e, realtime)[i].event == e
  {
    forall i | 0 <= i < |Notify(observers, e, realtime)|
      ensures Notify(observers, e, realtime)[i].event == e
    {
      NotifySound(observers, e, realtime, Notify(observers, e, realtime)[i]);
    }
  }

  lemma SawOwnChangeAppend(ds: seq<Delivery>, seen: seq<seq<Change>>, more: seq<Delivery>, e: Event, h: seq<Change>)
    requires SawOwnChange(ds, seen)
    requires forall i :: 0 <= i < |more| ==> more[i].event == e
    requires EndsWith(h, e.change)
    ensures SawOwnChange(ds + more, seen + Copies(h, |more|))
  {
  }

  lemma SawCurrentAppend(ds: seq<Delivery>, seen: seq<seq<Change>>, more: seq<Delivery>, e: Event)
    requires SawCurrent(ds, seen)
    requires forall i :: 0 <= i < |more| ==> more[i].event == e
    ensures SawCurrent(ds + more, seen + Copies(e.parameter.applied, |more|))
  {
  }

  lemma SawCurrentConcat(a: seq<Delivery>, sa: seq<seq<Change>>, b: seq<Delivery>, sb: seq<seq<Change>>)
    requires SawCurrent(a, sa) && SawCurrent(b, sb)
    ensures SawCurrent(a + b, sa + sb)
  {
  }

  class EventDispatcher {
    const isRealtime: bool
    var queue: seq<Event>
    var killed: bool
    var wakeups: nat
    var delivered: seq<Delivery>
    ghost var seen: seq<seq<Change>>

    constructor (isRealtime: bool)
      ensures this.isRealtime == isRealtime
      ensures queue == [] && !killed && wakeups == 0 && delivered == [] && seen == []
    {
      this.isRealtime := isRealtime;
      queue := [];
      killed := false;
      wakeups := 0;
      delivered := [];
      seen := [];
    }

    /** Append an event to the tail of the queue. */
    method Add(e: Event)
      modifies this
      ensures queue == old(queue) + [e]
      ensures killed == old(killed) && wakeups == old(wakeups) && delivered == old(delivered) && seen == old(seen)
    {
      queue := queue + [e];
    }

    /** Wake the consumer blocked in wait(), if any. */
    method Notify()
      modifies this
      ensures wakeups == old(wakeups) + 1
      ensures queue == old(queue) && killed == old(killed) && delivered == old(delivered) && seen == old(seen)
    {
      wakeups := wakeups + 1;
    }

    /** Mark the dispatcher killed so that its consumer loop exits; idempotent. */
    method Kill()
      modifies this
      ensures killed
      ensures queue == old(queue) && wakeups == old(wakeups) + 1 && delivered == old(delivered) && seen == old(seen)
    {
      killed := true;
      wakeups := wakeups + 1;
    }

    /**
     * Blocking wait of the async consumer, seen from the consumer: while it
     * was blocked, other threads added `arrived` and, if `kill`, killed it.
     */
    method Wait(arrived: seq<Event>, kill: bool)
      modifies this
      ensures queue == old(queue) + arrived
      ensures killed == (old(killed) || kill)
      ensures wakeups == old(wakeups) && delivered == old(delivered) && seen == old(seen)
    {
      queue := queue + arrived;
      killed := killed || kill;
    }

    /**
     * Async-mode drain: detach the queue, then notify the async observers
     * of each event in enqueue order.
     */
    method Process() returns (ghost snapshots: seq<seq<Change>>)
      requires !isRealtime
      modifies this
      ensures queue == []
      ensures delivered == old(delivered) + Deliveries(old(queue), false)
      ensures killed == old(killed) && wakeups == old(wakeups)
      ensures seen == old(seen) + snapshots && SawCurrent(Deliveries(old(queue), false), snapshots)
    {
      var rest := queue;
      queue := [];
      ghost var done: seq<Event> := [];
      snapshots := [];
      while rest != []
        invariant done + rest == old(queue)
        invariant queue == [] && killed == old(killed) && wakeups == old(wakeups)
        invariant delivered == old(delivered) + Deliveries(done, false)
        invariant seen == old(seen) + snapshots && SawCurrent(Deliveries(done, false), snapshots)
      {
        var e := rest[0];
        var ds := Events.Notify(e.parameter.observers, e, false);
        NotifyEvents(e.parameter.observers, e, false);
        SawCurrentAppend(Deliveries(done, false), snapshots, ds, e);
        DeliveriesSnoc(old(delivered), done, e, false);
        assert (done + [e])[..|done|] == done;
        AppendAssoc(old(seen), snapshots, Copies(e.parameter.applied, |ds|));
        delivered := delivered + ds;
        seen := seen + Copies(e.parameter.applied, |ds|);
        snapshots := snapshots + Copies(e.parameter.applied, |ds|);
        ConsumeFront(done, rest);
        done := done + [e];
        rest := rest[1..];
      }
      assert done + [] == done;
    }

    /**
     * The realtime handling of the next event `e` of a drain that has
     * handled `done` so far: apply its change, notify the realtime
     * observers, relay it to `relay` and wake that dispatcher. `initial`
     * holds the change histories of the drained parameters before the drain.
     */
    method HandleRealtime(e: Event, relay: EventDispatcher, ghost done: seq<Event>, ghost base: seq<Delivery>,
                          ghost relayBase: seq<Event>, ghost initial: map<Parameter, seq<Change>>,
                          ghost newSeen: seq<seq<Change>>) returns (ghost snapshots: seq<seq<Change>>)
      requires isRealtime && !relay.isRealtime && e.parameter in initial
      requires SawOwnChange(Deliveries(done, true), newSeen)
      requires delivered == base + Deliveries(done, true)
      requires relay.queue == relayBase + done
      requires forall p {:trigger ChangesFor(done, p)} :: p in initial ==> p.applied == initial[p] + ChangesFor(done, p)
      modifies this, relay, e.parameter
      ensures delivered == base + Deliveries(done + [e], true)
      ensures relay.queue == relayBase + (done + [e])
      ensures relay.wakeups == old(relay.wakeups) + 1
      ensures queue == old(queue) && killed == old(killed) && wakeups == old(wakeups)
      ensures relay.killed == old(relay.killed) && relay.delivered == old(relay.delivered) && relay.seen == old(relay.seen)
      ensures forall p {:trigger ChangesFor(done + [e], p)} :: p in initial ==> p.applied == initial[p] + ChangesFor(done + [e], p)
      ensures seen == old(seen) + snapshots && SawOwnChange(Deliveries(done + [e], true), newSeen + snapshots)
    {
      DeliveriesSnoc(base, done, e, true);
      ChangesForSnocTarget(initial[e.parameter], done, e);
      ChangesForSnocOthers(done, e);
      AppendAssoc(relayBase, done, [e]);
      e.parameter.Apply(e.change);
      var ds := Events.Notify(e.parameter.observers, e, true);
      NotifyEvents(e.parameter.observers, e, true);
      snapshots := Copies(e.parameter.applied, |ds|);
      SawOwnChangeAppend(Deliveries(done, true), newSeen, ds, e, e.parameter.applied);
      assert (done + [e])[..|done|] == done;
      delivered := delivered + ds;
      seen := seen + snapshots;
      relay.Add(e);
      relay.Notify();
    }

    /**
     * Realtime-mode drain: detach the queue, then for each event in enqueue
     * order apply its change, notify the realtime observers, and relay the
     * event to `relay` (the async dispatcher) with a wake-up signal.
     */
    method ProcessAndRelay(relay: EventDispatcher) returns (ghost snapshots: seq<seq<Change>>)
      requires isRealtime && !relay.isRealtime
      modifies this, relay, Targets(queue)
      ensures queue == [] && killed == old(killed) && wakeups == old(wakeups)
      ensures delivered == old(delivered) + Deliveries(old(queue), true)
      ensures relay.queue == old(relay.queue) + old(queue)
      ensures relay.wakeups == old(relay.wakeups) + |old(queue)|
      ensures relay.killed == old(relay.killed) && relay.delivered == old(relay.delivered)
      ensures forall p :: p in Targets(old(queue)) ==> p.applied == old(p.applied) + ChangesFor(old(queue), p)
      ensures seen == old(seen) + snapshots && SawOwnChange(Deliveries(old(queue), true), snapshots)
      ensures relay.seen == old(relay.seen)
    {
      ghost var initial := map p | p in Targets(queue) :: p.applied;
      assert forall p :: p in Targets(old(queue)) ==> p in initial && initial[p] == old(p.applied);
      var rest := queue;
      queue := [];
      ghost var done: seq<Event> := [];
      ghost var newSeen: seq<seq<Change>> := [];
      while rest != []
        invariant done + rest == old(queue)
        invariant queue == [] && killed == old(killed) && wakeups == old(wakeups)
        invariant delivered == old(delivered) + Deliveries(done, true)
        invariant seen == old(seen) + newSeen && SawOwnChange(Deliveries(done, true), newSeen)
        invariant relay.seen == old(relay.seen)
        invariant relay.queue == old(relay.queue) + done
        invariant relay.wakeups == old(relay.wakeups) + |done|
        invariant relay.killed == old(relay.killed) && relay.delivered == old(relay.delivered)
        invariant forall p {:trigger ChangesFor(done, p)} :: p in initial ==> p.applied == initial[p] + ChangesFor(done, p)
      {
        var e := rest[0];
        ConsumeFront(done, rest);
        ghost var snapshots := HandleRealtime(e, relay, done, old(delivered), old(relay.queue), initial, newSeen);
        AppendAssoc(old(seen), newSeen, snapshots);
        newSeen := newSeen + snapshots;
        done := done + [e];
        rest := rest[1..];
      }
      assert done + [] == done && done == old(queue);
      snapshots := newSeen;
    }
  }
}
