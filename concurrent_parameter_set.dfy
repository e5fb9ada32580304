/**
 * ConcurrentParameterSet: the thread-safe façade. Every `set*` entry point
 * builds an event flagged realtime and schedules it on the realtime
 * dispatcher; `ProcessRealtimeEvents` drains that dispatcher (apply, notify
 * realtime observers, relay to the async dispatcher); the background thread
 * runs `AsyncDispatcherCallback` on the async dispatcher; teardown kills the
 * async dispatcher and then joins the thread.
 */
module ConcurrentSet {
  import opened Events
  import opened Dispatch
  import opened AsyncConsumer
  import opened Registry

  /** One iteration of the guarded loop on a live dispatcher: wait, then process only if still live. */
  method GuardedIteration(dispatcher: EventDispatcher, w: Wake) returns (step: Step, ghost snapshots: seq<seq<Change>>)
    requires !dispatcher.isRealtime && !dispatcher.killed
    modifies dispatcher
    ensures step == Step(w.kill, !w.kill) && dispatcher.killed == w.kill
    ensures dispatcher.queue == if w.kill then old(dispatcher.queue) + w.arrived else []
    ensures dispatcher.delivered == old(dispatcher.delivered)
              + (if w.kill then [] else Deliveries(old(dispatcher.queue) + w.arrived, false))
    ensures dispatcher.wakeups == old(dispatcher.wakeups)
    ensures dispatcher.seen == old(dispatcher.seen) + snapshots
    ensures SawCurrent(if w.kill then [] else Deliveries(old(dispatcher.queue) + w.arrived, false), snapshots)
  {
    dispatcher.Wait(w.arrived, w.kill);
    if !dispatcher.killed {
      snapshots := dispatcher.Process();
      step := Step(false, true);
    } else {
      step := Step(true, false);
      snapshots := [];
      assert dispatcher.seen == old(dispatcher.seen) + [];
    }
  }

  /**
   * The background thread's body: while the dispatcher is not killed, wait,
   * then process only if it is still not killed. `script` lists what other
   * threads did during each wait.
   */
  method AsyncDispatcherCallback(dispatcher: EventDispatcher, script: seq<Wake>)
    returns (steps: seq<Step>, ghost snapshots: seq<seq<Change>>)
    requires !dispatcher.isRealtime
    modifies dispatcher
    ensures var r := GuardedRun(Start(old(dispatcher.killed), old(dispatcher.queue)), script);
      && steps == r.steps && dispatcher.killed == r.killed && dispatcher.queue == r.queue
      && dispatcher.delivered == old(dispatcher.delivered) + Deliveries(r.processed, false)
      && dispatcher.wakeups == old(dispatcher.wakeups)
      && dispatcher.seen == old(dispatcher.seen) + snapshots
      && SawCurrent(Deliveries(r.processed, false), snapshots)
  {
    ghost var c := Start(dispatcher.killed, dispatcher.queue);
    ghost var target := GuardedRun(c, script);
    steps := [];
    snapshots := [];
    var i := 0;
    while !dispatcher.killed && i < |script|
      invariant 0 <= i <= |script|
      invariant c.killed == dispatcher.killed && c.queue == dispatcher.queue && c.steps == steps
      invariant GuardedRun(c, script[i..]) == target
      invariant dispatcher.delivered == old(dispatcher.delivered) + Deliveries(c.processed, false)
      invariant dispatcher.wakeups == old(dispatcher.wakeups)
      invariant dispatcher.seen == old(dispatcher.seen) + snapshots
      invariant SawCurrent(Deliveries(c.processed, false), snapshots) && allocated(c)
    {
      GuardedRunStep(c, script, i);
      var w := script[i];
      var step;
      ghost var more;
      assert allocated(Deliveries(c.processed, false));
      step, more := GuardedIteration(dispatcher, w);
      GuardedStepDeliveries(c, w, old(dispatcher.delivered));
      GuardedStepProcessed(c, w);
      SawCurrentConcat(Deliveries(c.processed, false), snapshots,
                       if w.kill then [] else Deliveries(c.queue + w.arrived, false), more);
      AppendAssoc(old(dispatcher.seen), snapshots, more);
      c := GuardedStep(c, w);
      steps := steps + [step];
      snapshots := snapshots + more;
      i := i + 1;
    }
  }

  class ConcurrentParameterSet {
    const parameters: ParameterRegistry
    const asyncDispatcher: EventDispatcher
    const realtimeDispatcher: EventDispatcher
    var threadJoined: bool

    ghost predicate Valid()
      reads this, parameters
    {
      parameters.Valid() && realtimeDispatcher.isRealtime && !asyncDispatcher.isRealtime
    }

    /**
     * Every event waiting on the async queue has already been applied to its
     * parameter, so async observers read the new value when called.
     */
    ghost predicate AsyncQueueApplied()
      reads this, asyncDispatcher, Targets(asyncDispatcher.queue)
    {
      forall e :: e in asyncDispatcher.queue ==> e.change in e.parameter.applied
    }

    /** A new set: no parameters, both queues empty, the async thread running. */
    constructor (makeSafeName: string -> string)
      ensures Valid() && fresh(parameters) && fresh(asyncDispatcher) && fresh(realtimeDispatcher)
      ensures parameters.Size() == 0 && parameters.makeSafeName == makeSafeName
      ensures realtimeDispatcher.queue == [] && asyncDispatcher.queue == []
      ensures realtimeDispatcher.delivered == [] && asyncDispatcher.delivered == []
      ensures !asyncDispatcher.killed && !threadJoined
      ensures realtimeDispatcher.seen == [] && asyncDispatcher.seen == [] && AsyncQueueApplied()
    {
      parameters := new ParameterRegistry(makeSafeName);
      asyncDispatcher := new EventDispatcher(false);
      realtimeDispatcher := new EventDispatcher(true);
      threadJoined := false;
    }

    /**
     * Kill the async dispatcher, then join its thread. Events still queued
     * on it are discarded unprocessed.
     */
    method Destroy()
      requires Valid()
      modifies this, asyncDispatcher
      ensures asyncDispatcher.killed && threadJoined
      ensures asyncDispatcher.queue == old(asyncDispatcher.queue)
      ensures asyncDispatcher.delivered == old(asyncDispatcher.delivered)
    {
      asyncDispatcher.Kill();
      JoinAsyncThread();
    }

    /**
     * Joining returns once the thread body has returned, and the body's loop
     * only exits after it has seen the killed flag; joining a live
     * dispatcher's thread would block forever.
     */
    method JoinAsyncThread()
      requires asyncDispatcher.killed
      modifies this
      ensures threadJoined
    {
      threadJoined := true;
    }

    /**
     * Drain the realtime dispatcher on the calling (realtime) thread: each
     * change is applied before its realtime observers are called, and before
     * it is relayed to the async queue, which therefore keeps holding only
     * applied changes.
     */
    method ProcessRealtimeEvents() returns (ghost snapshots: seq<seq<Change>>)
      requires Valid()
      modifies realtimeDispatcher, asyncDispatcher, Targets(realtimeDispatcher.queue)
      ensures realtimeDispatcher.queue == []
      ensures realtimeDispatcher.delivered == old(realtimeDispatcher.delivered) + Deliveries(old(realtimeDispatcher.queue), true)
      ensures realtimeDispatcher.seen == old(realtimeDispatcher.seen) + snapshots
      ensures SawOwnChange(Deliveries(old(realtimeDispatcher.queue), true), snapshots)
      ensures asyncDispatcher.queue == old(asyncDispatcher.queue) + old(realtimeDispatcher.queue)
      ensures asyncDispatcher.wakeups == old(asyncDispatcher.wakeups) + |old(realtimeDispatcher.queue)|
      ensures asyncDispatcher.killed == old(asyncDispatcher.killed)
      ensures asyncDispatcher.delivered == old(asyncDispatcher.delivered) && asyncDispatcher.seen == old(asyncDispatcher.seen)
      ensures forall p :: p in Targets(old(realtimeDispatcher.queue)) ==>
                p.applied == old(p.applied) + ChangesFor(old(realtimeDispatcher.queue), p)
      ensures old(AsyncQueueApplied()) ==> AsyncQueueApplied()
    {
      ghost var relayed := realtimeDispatcher.queue;
      forall e | e in relayed
        ensures e.change in ChangesFor(relayed, e.parameter)
      {
        ChangeApplied(relayed, e);
      }
      snapshots := realtimeDispatcher.ProcessAndRelay(asyncDispatcher);
    }

    /**
     * The routing decision: a realtime event goes to the realtime queue; any
     * other goes to the async queue, followed by a wake-up signal.
     */
    method ScheduleEvent(e: Event)
      requires Valid()
      modifies realtimeDispatcher, asyncDispatcher
      ensures e.isRealtime ==>
                && realtimeDispatcher.queue == old(realtimeDispatcher.queue) + [e]
                && unchanged(asyncDispatcher)
      ensures !e.isRealtime ==>
                && asyncDispatcher.queue == old(asyncDispatcher.queue) + [e]
                && asyncDispatcher.wakeups == old(asyncDispatcher.wakeups) + 1
                && unchanged(realtimeDispatcher)
      ensures realtimeDispatcher.killed == old(realtimeDispatcher.killed)
      ensures realtimeDispatcher.wakeups == old(realtimeDispatcher.wakeups)
      ensures realtimeDispatcher.delivered == old(realtimeDispatcher.delivered) && realtimeDispatcher.seen == old(realtimeDispatcher.seen)
      ensures asyncDispatcher.killed == old(asyncDispatcher.killed)
      ensures asyncDispatcher.delivered == old(asyncDispatcher.delivered) && asyncDispatcher.seen == old(asyncDispatcher.seen)
      ensures AsyncQueueApplied() <==> old(AsyncQueueApplied()) && (e.isRealtime || e.change in e.parameter.applied)
    {
      if e.isRealtime {
        realtimeDispatcher.Add(e);
      } else {
        asyncDispatcher.Add(e);
        asyncDispatcher.Notify();
      }
    }

    /** Schedule a value change of `parameter` for the realtime thread. */
    method Set(parameter: Parameter, value: real, sender: Observer? := null)
      requires Valid()
      modifies realtimeDispatcher, asyncDispatcher
      ensures realtimeDispatcher.queue == old(realtimeDispatcher.queue) + [Event(parameter, Value(value), true, sender)]
      ensures realtimeDispatcher.killed == old(realtimeDispatcher.killed)
      ensures realtimeDispatcher.wakeups == old(realtimeDispatcher.wakeups)
      ensures realtimeDispatcher.delivered == old(realtimeDispatcher.delivered) && realtimeDispatcher.seen == old(realtimeDispatcher.seen)
      ensures unchanged(asyncDispatcher)
    {
      ScheduleEvent(Event(parameter, Value(value), true, sender));
    }

    /** By name: nothing is scheduled when the name does not resolve. */
    method SetByName(name: string, value: real, sender: Observer? := null)
      requires Valid()
      modifies realtimeDispatcher, asyncDispatcher
      ensures var p := parameters.GetByName(name);
        realtimeDispatcher.queue == old(realtimeDispatcher.queue) + (if p == null then [] else [Event(p, Value(value), true, sender)])
      ensures realtimeDispatcher.killed == old(realtimeDispatcher.killed)
      ensures realtimeDispatcher.wakeups == old(realtimeDispatcher.wakeups)
      ensures realtimeDispatcher.delivered == old(realtimeDispatcher.delivered) && realtimeDispatcher.seen == old(realtimeDispatcher.seen)
      ensures unchanged(asyncDispatcher)
    {
      var parameter := parameters.GetByName(name);
      if parameter != null {
        Set(parameter, value, sender);
      }
    }

    /** By index: the index must be below the size. */
    method SetAt(index: int, value: real, sender: Observer? := null)
      requires Valid()
      requires 0 <= index < parameters.Size()
      modifies realtimeDispatcher, asyncDispatcher
      ensures realtimeDispatcher.queue == old(realtimeDispatcher.queue)
                + [Event(parameters.GetAt(index), Value(value), true, sender)]
      ensures realtimeDispatcher.killed == old(realtimeDispatcher.killed)
      ensures realtimeDispatcher.wakeups == old(realtimeDispatcher.wakeups)
      ensures realtimeDispatcher.delivered == old(realtimeDispatcher.delivered) && realtimeDispatcher.seen == old(realtimeDispatcher.seen)
      ensures unchanged(asyncDispatcher)
    {
      Set(parameters.GetAt(index), value, sender);
    }

    /** Schedule a scaled-value change of `parameter` for the realtime thread. */
    method SetScaled(parameter: Parameter, value: real, sender: Observer? := null)
      requires Valid()
      modifies realtimeDispatcher, asyncDispatcher
      ensures realtimeDispatcher.queue == old(realtimeDispatcher.queue) + [Event(parameter, ScaledValue(value), true, sender)]
      ensures realtimeDispatcher.killed == old(realtimeDispatcher.killed)
      ensures realtimeDispatcher.wakeups == old(realtimeDispatcher.wakeups)
      ensures realtimeDispatcher.delivered == old(realtimeDispatcher.delivered) && realtimeDispatcher.seen == old(realtimeDispatcher.seen)
      ensures unchanged(asyncDispatcher)
    {
      ScheduleEvent(Event(parameter, ScaledValue(value), true, sender));
    }

    /** By name: nothing is scheduled when the name does not resolve. */
    method SetScaledByName(name: string, value: real, sender: Observer? := null)
      requires Valid()
      modifies realtimeDispatcher, asyncDispatcher
      ensures var p := parameters.GetByName(name);
        realtimeDispatcher.queue == old(realtimeDispatcher.queue) + (if p == null then [] else [Event(p, ScaledValue(value), true, sender)])
      ensures realtimeDispatcher.killed == old(realtimeDispatcher.killed)
      ensures realtimeDispatcher.wakeups == old(realtimeDispatcher.wakeups)
      ensures realtimeDispatcher.delivered == old(realtimeDispatcher.delivered) && realtimeDispatcher.seen == old(realtimeDispatcher.seen)
      ensures unchanged(asyncDispatcher)
    {
      var parameter := parameters.GetByName(name);
      if parameter != null {
        SetScaled(parameter, value, sender);
      }
    }

    /** By index: the index must be below the size. */
    method SetScaledAt(index: int, value: real, sender: Observer? := null)
      requires Valid()
      requires 0 <= index < parameters.Size()
      modifies realtimeDispatcher, asyncDispatcher
      ensures realtimeDispatcher.queue == old(realtimeDispatcher.queue)
                + [Event(parameters.GetAt(index), ScaledValue(value), true, sender)]
      ensures realtimeDispatcher.killed == old(realtimeDispatcher.killed)
      ensures realtimeDispatcher.wakeups == old(realtimeDispatcher.wakeups)
      ensures realtimeDispatcher.delivered == old(realtimeDispatcher.delivered) && realtimeDispatcher.seen == old(realtimeDispatcher.seen)
      ensures unchanged(asyncDispatcher)
    {
      SetScaled(parameters.GetAt(index), value, sender);
    }

    /**
     * Schedule a data change of `parameter`; null, or a parameter that is not
     * a data parameter, is left alone and nothing is scheduled.
     */
    method SetData(parameter: Parameter?, data: array?<byte>, dataSize: nat := 0, sender: Observer? := null)
      requires Valid()
      modifies realtimeDispatcher, asyncDispatcher
      ensures realtimeDispatcher.queue == old(realtimeDispatcher.queue)
                + (if parameter != null && parameter.isData then [Event(parameter, Data(data, dataSize), true, sender)] else [])
      ensures realtimeDispatcher.killed == old(realtimeDispatcher.killed)
      ensures realtimeDispatcher.wakeups == old(realtimeDispatcher.wakeups)
      ensures realtimeDispatcher.delivered == old(realtimeDispatcher.delivered) && realtimeDispatcher.seen == old(realtimeDispatcher.seen)
      ensures unchanged(asyncDispatcher)
    {
      if parameter != null && parameter.isData {
        ScheduleEvent(Event(parameter, Data(data, dataSize), true, sender));
      }
    }

    /** By name: nothing is scheduled when the name does not resolve or names no data parameter. */
    method SetDataByName(name: string, data: array?<byte>, dataSize: nat := 0, sender: Observer? := null)
      requires Valid()
      modifies realtimeDispatcher, asyncDispatcher
      ensures var p := parameters.GetByName(name);
        realtimeDispatcher.queue == old(realtimeDispatcher.queue)
          + (if p == null || !p.isData then [] else [Event(p, Data(data, dataSize), true, sender)])
      ensures realtimeDispatcher.killed == old(realtimeDispatcher.killed)
      ensures realtimeDispatcher.wakeups == old(realtimeDispatcher.wakeups)
      ensures realtimeDispatcher.delivered == old(realtimeDispatcher.delivered) && realtimeDispatcher.seen == old(realtimeDispatcher.seen)
      ensures unchanged(asyncDispatcher)
    {
      var parameter := parameters.GetByName(name);
      if parameter != null {
        SetData(parameter, data, dataSize, sender);
      }
    }

    /** By index: the index must be below the size. */
    method SetDataAt(index: nat, data: array?<byte>, dataSize: nat := 0, sender: Observer? := null)
      requires Valid()
      requires index < parameters.Size()
      modifies realtimeDispatcher, asyncDispatcher
      ensures var p := parameters.GetAt(index);
        realtimeDispatcher.queue == old(realtimeDispatcher.queue)
          + (if p.isData then [Event(p, Data(data, dataSize), true, sender)] else [])
      ensures realtimeDispatcher.killed == old(realtimeDispatcher.killed)
      ensures realtimeDispatcher.wakeups == old(realtimeDispatcher.wakeups)
      ensures realtimeDispatcher.delivered == old(realtimeDispatcher.delivered) && realtimeDispatcher.seen == old(realtimeDispatcher.seen)
      ensures unchanged(asyncDispatcher)
    {
      SetData(parameters.GetAt(index), data, dataSize, sender);
    }
  }

  /** One wake-up without a kill lets the guarded loop process everything queued. */
  lemma OneWakeDrainsQueue(queue: seq<Event>)
    ensures GuardedRun(Start(false, queue), [Wake([], false)]).processed == queue
  {
    assert [Wake([], false)][1..] == [];
  }

  /**
   * One change to a parameter observed by a realtime and an async
   * observer: the realtime pass calls the realtime observer once and the
   * async observer never; the async pass calls the async observer once,
   * unless it is the sender, and the realtime observer never.
   */
  lemma OneSetCounts(e: Event, realtimeObserver: Observer, asyncObserver: Observer)
    requires e.parameter.observers == [realtimeObserver, asyncObserver]
    requires realtimeObserver.realtime && !asyncObserver.realtime
    requires e.sender == null || e.sender == asyncObserver
    ensures |Received(Deliveries([e], true), realtimeObserver)| == 1
    ensures |Received(Deliveries([e], false), realtimeObserver)| == 0
    ensures |Received(Deliveries([e], true), asyncObserver)| == 0
    ensures |Received(Deliveries([e], false), asyncObserver)| == if e.sender == asyncObserver then 0 else 1
  {
    var obs := e.parameter.observers;
    assert obs[1..] == [asyncObserver] && obs[1..][1..] == [];
    assert Occurrences([], realtimeObserver) == 0 && Occurrences([], asyncObserver) == 0;
    assert Occurrences(obs[1..], realtimeObserver) == 0;
    assert Occurrences(obs[1..], asyncObserver) == 1;
    NotifiedOnceUnlessSender(e, realtimeObserver);
    NotifiedOnceUnlessSender(e, asyncObserver);
  }

  /**
   * One change to a parameter observed by a realtime and an async observer:
   * the realtime pass makes exactly one callback, to the realtime observer;
   * the async pass makes one, to the async observer, unless it is the sender.
   */
  lemma OneSetDeliveries(e: Event, realtimeObserver: Observer, asyncObserver: Observer)
    requires e.parameter.observers == [realtimeObserver, asyncObserver]
    requires realtimeObserver.realtime && !asyncObserver.realtime
    requires e.sender == null || e.sender == asyncObserver
    ensures Deliveries([e], true) == [Delivery(realtimeObserver, e)]
    ensures Deliveries([e], false) == if e.sender == asyncObserver then [] else [Delivery(asyncObserver, e)]
  {
    var obs := e.parameter.observers;
    assert obs[1..] == [asyncObserver] && obs[1..][1..] == [];
    assert Notify(obs[1..], e, true) == [] + [];
    assert Notify(obs, e, true) == [Delivery(realtimeObserver, e)] + [];
    assert Notify(obs[1..], e, false)
        == (if e.sender == asyncObserver then [] else [Delivery(asyncObserver, e)]) + [];
    assert Notify(obs, e, false) == [] + Notify(obs[1..], e, false);
    assert [e][..0] == [];
    assert Deliveries([e], true) == [] + Notify(obs, e, true);
    assert Deliveries([e], false) == [] + Notify(obs, e, false);
  }

  /**
   * A new set with one parameter "test" observed by a realtime and an async
   * observer.
   */
  method NewSetWithObservedParameter(makeSafeName: string -> string)
    returns (s: ConcurrentParameterSet, created: int, p: Parameter?, realtimeObserver: Observer, asyncObserver: Observer)
    ensures s.Valid() && fresh(s.realtimeDispatcher) && fresh(s.asyncDispatcher) && fresh(p)
    ensures created == 0
    ensures p != null && s.parameters.parameterList == [p]
    ensures p.observers == [realtimeObserver, asyncObserver] && p.applied == []
    ensures realtimeObserver.realtime && !asyncObserver.realtime
    ensures s.realtimeDispatcher.queue == [] && s.realtimeDispatcher.delivered == [] && s.realtimeDispatcher.seen == []
    ensures s.asyncDispatcher.queue == [] && !s.asyncDispatcher.killed && s.asyncDispatcher.delivered == []
    ensures s.asyncDispatcher.seen == []
  {
    s := new ConcurrentParameterSet(makeSafeName);
    created := s.parameters.Size();
    realtimeObserver := new Observer(true);
    asyncObserver := new Observer(false);
    var parameter := new Parameter("test", false, [realtimeObserver, asyncObserver]);
    p := s.parameters.Add(parameter);
  }

  /** set(p, true) with `sender`, then one processRealtimeEvents(). */
  method SetAndProcessRealtime(makeSafeName: string -> string, senderIsAsyncObserver: bool)
    returns (s: ConcurrentParameterSet, created: int, e: Event, realtimeObserver: Observer, asyncObserver: Observer)
    ensures s.realtimeDispatcher.isRealtime && !s.asyncDispatcher.isRealtime
    ensures fresh(s.realtimeDispatcher) && fresh(s.asyncDispatcher)
    ensures created == 0
    ensures e.parameter.observers == [realtimeObserver, asyncObserver]
    ensures realtimeObserver.realtime && !asyncObserver.realtime
    ensures e.sender == if senderIsAsyncObserver then asyncObserver else null
    ensures e.change == Value(1.0) && e.parameter.applied == [Value(1.0)]
    ensures s.realtimeDispatcher.delivered == Deliveries([e], true)
    ensures SawOwnChange(s.realtimeDispatcher.delivered, s.realtimeDispatcher.seen)
    ensures s.asyncDispatcher.queue == [e] && !s.asyncDispatcher.killed && s.asyncDispatcher.delivered == []
    ensures s.asyncDispatcher.seen == []
  {
    var p;
    s, created, p, realtimeObserver, asyncObserver := NewSetWithObservedParameter(makeSafeName);
    var sender := if senderIsAsyncObserver then asyncObserver else null;
    s.Set(p, 1.0, sender);
    e := Event(p, Value(1.0), true, sender);
    assert s.realtimeDispatcher.queue == [e];
    SingleEventChanges(e);
    ghost var snapshots := s.ProcessRealtimeEvents();
    assert [] + [e] == [e] && [] + [Value(1.0)] == [Value(1.0)];
    assert [] + Deliveries([e], true) == Deliveries([e], true);
    assert [] + snapshots == snapshots;
  }

  /**
   * The multithreaded test scenarios: after the realtime drain and one
   * wake-up of the async thread, p holds the new value and each observer
   * was called once, except an async sender, which was not called.
   */
  method SetAndDrain(makeSafeName: string -> string, senderIsAsyncObserver: bool)
    returns (created: int, applied: seq<Change>, realtimeCount: nat, asyncCount: nat,
             ghost realtimeSeen: seq<seq<Change>>, ghost asyncSeen: seq<seq<Change>>)
    ensures created == 0
    ensures applied == [Value(1.0)]
    ensures realtimeCount == 1
    ensures asyncCount == if senderIsAsyncObserver then 0 else 1
    ensures |realtimeSeen| == 1 && EndsWith(realtimeSeen[0], Value(1.0))
    ensures asyncSeen == if senderIsAsyncObserver then [] else [[Value(1.0)]]
  {
    var s, e, realtimeObserver, asyncObserver;
    s, created, e, realtimeObserver, asyncObserver := SetAndProcessRealtime(makeSafeName, senderIsAsyncObserver);
    applied := e.parameter.applied;
    OneWakeDrainsQueue([e]);
    OneSetDeliveries(e, realtimeObserver, asyncObserver);
    realtimeSeen := s.realtimeDispatcher.seen;
    ghost var realtimeDelivered := s.realtimeDispatcher.delivered;
    var steps;
    steps, asyncSeen := AsyncDispatcherCallback(s.asyncDispatcher, [Wake([], false)]);
    assert s.realtimeDispatcher.delivered == realtimeDelivered == Deliveries([e], true);
    assert s.asyncDispatcher.delivered == Deliveries([e], false);
    assert e.parameter.applied == [Value(1.0)];
    OneSetCounts(e, realtimeObserver, asyncObserver);
    realtimeCount := |Received(s.realtimeDispatcher.delivered, realtimeObserver)| + |Received(s.asyncDispatcher.delivered, realtimeObserver)|;
    asyncCount := |Received(s.realtimeDispatcher.delivered, asyncObserver)| + |Received(s.asyncDispatcher.delivered, asyncObserver)|;
  }

  /**
   * set(p, 1.0) and processRealtimeEvents(), then teardown's kill() while
   * the background thread waits: the thread sees the flag and does not
   * process, so the async observer is never called and the relayed event
   * stays queued.
   */
  method SetThenKillDuringWait(makeSafeName: string -> string)
    returns (steps: seq<Step>, realtimeCount: nat, asyncCount: nat, leftQueued: nat)
    ensures steps == [Step(true, false)]
    ensures realtimeCount == 1 && asyncCount == 0 && leftQueued == 1
  {
    var s, created, e, realtimeObserver, asyncObserver;
    s, created, e, realtimeObserver, asyncObserver := SetAndProcessRealtime(makeSafeName, false);
    ProcessAfterKillWitness([e], []);
    assert [e] + [] == [e];
    ghost var realtimeDelivered := s.realtimeDispatcher.delivered;
    ghost var asyncSeen;
    steps, asyncSeen := AsyncDispatcherCallback(s.asyncDispatcher, [Wake([], true)]);
    assert s.realtimeDispatcher.delivered == realtimeDelivered == Deliveries([e], true);
    assert s.asyncDispatcher.delivered == Deliveries([], false) == [];
    OneSetCounts(e, realtimeObserver, asyncObserver);
    realtimeCount := |Received(s.realtimeDispatcher.delivered, realtimeObserver)|;
    asyncCount := |Received(s.realtimeDispatcher.delivered, asyncObserver)| + |Received(s.asyncDispatcher.delivered, asyncObserver)|;
    leftQueued := |s.asyncDispatcher.queue|;
  }
}
