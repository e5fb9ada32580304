/**
 * PluginParameterSet: the older set. It owns the parameter registry and two
 * dispatchers; `set` takes the realtime flag from its caller (default
 * false), and scheduling appends to one queue without a wake-up signal. Its
 * background thread runs the unguarded consumer loop.
 */
module PluginSet {
  import opened Events
  import opened Dispatch
  import opened AsyncConsumer
  import opened Registry

  /** One iteration of the unguarded loop on a live dispatcher: wait, then process. */
  method UnguardedIteration(dispatcher: EventDispatcher, w: Wake) returns (step: Step, ghost snapshots: seq<seq<Change>>)
    requires !dispatcher.isRealtime && !dispatcher.killed
    modifies dispatcher
    ensures step == Step(w.kill, true) && dispatcher.killed == w.kill
    ensures dispatcher.queue == []
    ensures dispatcher.delivered == old(dispatcher.delivered) + Deliveries(old(dispatcher.queue) + w.arrived, false)
    ensures dispatcher.wakeups == old(dispatcher.wakeups)
    ensures dispatcher.seen == old(dispatcher.seen) + snapshots
    ensures SawCurrent(Deliveries(old(dispatcher.queue) + w.arrived, false), snapshots)
  {
    dispatcher.Wait(w.arrived, w.kill);
    var killedAfterWait := dispatcher.killed;
    snapshots := dispatcher.Process();
    step := Step(killedAfterWait, true);
  }

  /**
   * The background thread's body: while the dispatcher is not killed, wait,
   * then process, without looking at the flag again. `script` lists what
   * other threads did during each wait.
   */
  method AsyncDispatcherCallback(dispatcher: EventDispatcher, script: seq<Wake>)
    returns (steps: seq<Step>, ghost snapshots: seq<seq<Change>>)
    requires !dispatcher.isRealtime
    modifies dispatcher
    ensures var r := UnguardedRun(Start(old(dispatcher.killed), old(dispatcher.queue)), script);
      && steps == r.steps && dispatcher.killed == r.killed && dispatcher.queue == r.queue
      && dispatcher.delivered == old(dispatcher.delivered) + Deliveries(r.processed, false)
      && dispatcher.wakeups == old(dispatcher.wakeups)
      && dispatcher.seen == old(dispatcher.seen) + snapshots
      && SawCurrent(Deliveries(r.processed, false), snapshots)
  {
    ghost var c := Start(dispatcher.killed, dispatcher.queue);
    ghost var target := UnguardedRun(c, script);
    steps := [];
    snapshots := [];
    var i := 0;
    while !dispatcher.killed && i < |script|
      invariant 0 <= i <= |script|
      invariant c.killed == dispatcher.killed && c.queue == dispatcher.queue && c.steps == steps
      invariant UnguardedRun(c, script[i..]) == target
      invariant dispatcher.delivered == old(dispatcher.delivered) + Deliveries(c.processed, false)
      invariant dispatcher.wakeups == old(dispatcher.wakeups)
      invariant dispatcher.seen == old(dispatcher.seen) + snapshots
      invariant SawCurrent(Deliveries(c.processed, false), snapshots) && allocated(c)
    {
      UnguardedRunStep(c, script, i);
      var w := script[i];
      var step;
      ghost var more;
      assert allocated(Deliveries(c.processed, false));
      step, more := UnguardedIteration(dispatcher, w);
      UnguardedStepDeliveries(c, w, old(dispatcher.delivered));
      UnguardedStepProcessed(c, w);
      SawCurrentConcat(Deliveries(c.processed, false), snapshots, Deliveries(c.queue + w.arrived, false), more);
      AppendAssoc(old(dispatcher.seen), snapshots, more);
      c := UnguardedStep(c, w);
      steps := steps + [step];
      snapshots := snapshots + more;
      i := i + 1;
    }
  }

  class PluginParameterSet {
    const parameters: ParameterRegistry
    const asyncDispatcher: EventDispatcher
    const realtimeDispatcher: EventDispatcher

    ghost predicate Valid()
      reads this, parameters
    {
      parameters.Valid() && realtimeDispatcher.isRealtime && !asyncDispatcher.isRealtime
    }

    /** A new set: no parameters and both queues empty. */
    constructor (makeSafeName: string -> string)
      ensures Valid() && fresh(parameters) && fresh(asyncDispatcher) && fresh(realtimeDispatcher)
      ensures parameters.Size() == 0 && parameters.makeSafeName == makeSafeName
      ensures realtimeDispatcher.queue == [] && asyncDispatcher.queue == []
      ensures realtimeDispatcher.delivered == [] && asyncDispatcher.delivered == []
      ensures !asyncDispatcher.killed && asyncDispatcher.wakeups == 0
    {
      parameters := new ParameterRegistry(makeSafeName);
      asyncDispatcher := new EventDispatcher(false);
      realtimeDispatcher := new EventDispatcher(true);
    }

    /**
     * The routing decision: a realtime event goes to the realtime queue, any
     * other to the async queue; neither dispatcher is signalled.
     */
    method ScheduleEvent(e: Event)
      requires Valid()
      modifies realtimeDispatcher, asyncDispatcher
      ensures e.isRealtime ==>
                realtimeDispatcher.queue == old(realtimeDispatcher.queue) + [e] && unchanged(asyncDispatcher)
      ensures !e.isRealtime ==>
                asyncDispatcher.queue == old(asyncDispatcher.queue) + [e] && unchanged(realtimeDispatcher)
      ensures realtimeDispatcher.killed == old(realtimeDispatcher.killed)
      ensures realtimeDispatcher.wakeups == old(realtimeDispatcher.wakeups)
      ensures realtimeDispatcher.delivered == old(realtimeDispatcher.delivered) && realtimeDispatcher.seen == old(realtimeDispatcher.seen)
      ensures asyncDispatcher.killed == old(asyncDispatcher.killed)
      ensures asyncDispatcher.wakeups == old(asyncDispatcher.wakeups)
      ensures asyncDispatcher.delivered == old(asyncDispatcher.delivered) && asyncDispatcher.seen == old(asyncDispatcher.seen)
    {
      if e.isRealtime {
        realtimeDispatcher.Add(e);
      } else {
        asyncDispatcher.Add(e);
      }
    }

    /** Schedule a value change of `parameter` on the queue `realtime` selects. */
    method Set(parameter: Parameter, value: real, realtime: bool := false, sender: Observer? := null)
      requires Valid()
      modifies realtimeDispatcher, asyncDispatcher
      ensures realtime ==>
                realtimeDispatcher.queue == old(realtimeDispatcher.queue) + [Event(parameter, Value(value), true, sender)]
                && unchanged(asyncDispatcher)
      ensures !realtime ==>
                asyncDispatcher.queue == old(asyncDispatcher.queue) + [Event(parameter, Value(value), false, sender)]
                && unchanged(realtimeDispatcher)
      ensures realtimeDispatcher.killed == old(realtimeDispatcher.killed)
      ensures realtimeDispatcher.wakeups == old(realtimeDispatcher.wakeups)
      ensures realtimeDispatcher.delivered == old(realtimeDispatcher.delivered) && realtimeDispatcher.seen == old(realtimeDispatcher.seen)
      ensures asyncDispatcher.killed == old(asyncDispatcher.killed)
      ensures asyncDispatcher.wakeups == old(asyncDispatcher.wakeups)
      ensures asyncDispatcher.delivered == old(asyncDispatcher.delivered) && asyncDispatcher.seen == old(asyncDispatcher.seen)
    {
      ScheduleEvent(Event(parameter, Value(value), realtime, sender));
    }

    /** By name: nothing is scheduled, on either queue, when the name does not resolve. */
    method SetByName(name: string, value: real, realtime: bool := false, sender: Observer? := null)
      requires Valid()
      modifies realtimeDispatcher, asyncDispatcher
      ensures var p := parameters.GetByName(name);
        && realtimeDispatcher.queue == old(realtimeDispatcher.queue)
             + (if p != null && realtime then [Event(p, Value(value), true, sender)] else [])
        && asyncDispatcher.queue == old(asyncDispatcher.queue)
             + (if p != null && !realtime then [Event(p, Value(value), false, sender)] else [])
      ensures realtimeDispatcher.killed == old(realtimeDispatcher.killed)
      ensures realtimeDispatcher.wakeups == old(realtimeDispatcher.wakeups)
      ensures realtimeDispatcher.delivered == old(realtimeDispatcher.delivered) && realtimeDispatcher.seen == old(realtimeDispatcher.seen)
      ensures asyncDispatcher.killed == old(asyncDispatcher.killed)
      ensures asyncDispatcher.wakeups == old(asyncDispatcher.wakeups)
      ensures asyncDispatcher.delivered == old(asyncDispatcher.delivered) && asyncDispatcher.seen == old(asyncDispatcher.seen)
    {
      var parameter := parameters.GetByName(name);
      if parameter != null {
        Set(parameter, value, realtime, sender);
      }
    }

    /** By index: the index must be below the size. */
    method SetAt(index: int, value: real, realtime: bool := false, sender: Observer? := null)
      requires Valid()
      requires 0 <= index < parameters.Size()
      modifies realtimeDispatcher, asyncDispatcher
      ensures var p := parameters.GetAt(index);
        && realtimeDispatcher.queue == old(realtimeDispatcher.queue)
             + (if realtime then [Event(p, Value(value), true, sender)] else [])
        && asyncDispatcher.queue == old(asyncDispatcher.queue)
             + (if !realtime then [Event(p, Value(value), false, sender)] else [])
      ensures realtimeDispatcher.killed == old(realtimeDispatcher.killed)
      ensures realtimeDispatcher.wakeups == old(realtimeDispatcher.wakeups)
      ensures realtimeDispatcher.delivered == old(realtimeDispatcher.delivered) && realtimeDispatcher.seen == old(realtimeDispatcher.seen)
      ensures asyncDispatcher.killed == old(asyncDispatcher.killed)
      ensures asyncDispatcher.wakeups == old(asyncDispatcher.wakeups)
      ensures asyncDispatcher.delivered == old(asyncDispatcher.delivered) && asyncDispatcher.seen == old(asyncDispatcher.seen)
    {
      Set(parameters.GetAt(index), value, realtime, sender);
    }
  }

  /** A new set with one parameter "test" observed by one async observer. */
  method NewSetWithAsyncObserver(makeSafeName: string -> string)
    returns (s: PluginParameterSet, p: Parameter?, asyncObserver: Observer)
    ensures s.Valid() && fresh(s.asyncDispatcher) && fresh(s.realtimeDispatcher)
    ensures p != null && s.parameters.parameterList == [p]
    ensures p.observers == [asyncObserver] && !asyncObserver.realtime
    ensures s.asyncDispatcher.queue == [] && !s.asyncDispatcher.killed && s.asyncDispatcher.delivered == []
  {
    s := new PluginParameterSet(makeSafeName);
    asyncObserver := new Observer(false);
    var parameter := new Parameter("test", false, [asyncObserver]);
    p := s.parameters.Add(parameter);
  }

  /** One async event for a parameter with a single async observer: that observer hears it once. */
  lemma SingleObserverHearsOnce(e: Event, asyncObserver: Observer)
    requires e.parameter.observers == [asyncObserver] && !asyncObserver.realtime && e.sender == null
    ensures |Received(Deliveries([e], false), asyncObserver)| == 1
  {
    assert e.parameter.observers[1..] == [];
    NotifiedOnceUnlessSender(e, asyncObserver);
  }

  /**
   * set(p, 1.0) with the default (async) routing, then kill() while the
   * background thread waits: the thread sees the flag and still processes,
   * so p's async observer is called after the kill.
   */
  method SetThenKillDuringWait(makeSafeName: string -> string) returns (steps: seq<Step>, asyncCount: nat)
    ensures steps == [Step(true, true)]
    ensures asyncCount == 1
  {
    var s, p, asyncObserver := NewSetWithAsyncObserver(makeSafeName);
    s.Set(p, 1.0);
    var e := Event(p, Value(1.0), false, null);
    assert s.asyncDispatcher.queue == [e];
    ProcessAfterKillWitness([e], []);
    assert [e] + [] == [e];
    ghost var snapshots;
    steps, snapshots := AsyncDispatcherCallback(s.asyncDispatcher, [Wake([], true)]);
    assert s.asyncDispatcher.delivered == Deliveries([e], false);
    SingleObserverHearsOnce(e, asyncObserver);
    asyncCount := |Received(s.asyncDispatcher.delivered, asyncObserver)|;
  }
}
