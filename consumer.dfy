/**
 * The async consumer loop as a sequential step relation over the
 * dispatcher's killed flag and queue.
 *
 * The thread blocks in wait(); what other threads do meanwhile is a `Wake`:
 * events added to the queue and whether kill() was called. A run consumes
 * a script of wakes, one per return from wait(); the loop stops when it
 * sees the killed flag, or when the script ends (the thread is then still
 * blocked in wait()). Each iteration records a `Step`: whether the flag was
 * set when wait() returned and whether process() ran.
 */
module AsyncConsumer {
  import opened Events

  datatype Wake = Wake(arrived: seq<Event>, kill: bool)

  datatype Step = Step(killedAfterWait: bool, processed: bool)

  datatype Consumer = Consumer(killed: bool, queue: seq<Event>, processed: seq<Event>, steps: seq<Step>)

  /** The consumer's state when wait() returns after `w`. */
  function Woken(c: Consumer, w: Wake): Consumer
  {
    c.(killed := c.killed || w.kill, queue := c.queue + w.arrived)
  }

  /** process(): every queued event is handled, in order, and the queue is emptied. */
  function Drained(c: Consumer): Consumer
  {
    c.(queue := [], processed := c.processed + c.queue)
  }

  /**
   * The loop of ConcurrentParameterSet: while not killed, wait, then process
   * only if the flag is still clear.
   */
  function GuardedRun(c: Consumer, script: seq<Wake>): Consumer
    decreases |script|
  {
    if c.killed || script == [] then c
    else GuardedRun(GuardedStep(c, script[0]), script[1..])
  }

  /** One iteration of the guarded loop: wait, then process only if the flag is clear. */
  function GuardedStep(c: Consumer, wake: Wake): Consumer
  {
    var w := Woken(c, wake);
    if w.killed then w.(steps := w.steps + [Step(true, false)])
    else Drained(w).(steps := w.steps + [Step(false, true)])
  }

  /** The loop of PluginParameterSet: while not killed, wait, then process unconditionally. */
  function UnguardedRun(c: Consumer, script: seq<Wake>): Consumer
    decreases |script|
  {
    if c.killed || script == [] then c
    else UnguardedRun(UnguardedStep(c, script[0]), script[1..])
  }

  /** One iteration of the unguarded loop: wait, then process whatever the flag says. */
  function UnguardedStep(c: Consumer, wake: Wake): Consumer
  {
    var w := Woken(c, wake);
    Drained(w).(steps := w.steps + [Step(w.killed, true)])
  }

  /** A live guarded loop with wakes left runs one step, then continues on the rest of the script. */
  lemma GuardedRunStep(c: Consumer, script: seq<Wake>, i: nat)
    requires !c.killed && i < |script|
    ensures GuardedRun(c, script[i..]) == GuardedRun(GuardedStep(c, script[i]), script[i + 1..])
  {
    assert script[i..][1..] == script[i + 1..];
  }

  /** A live unguarded loop with wakes left runs one step, then continues on the rest of the script. */
  lemma UnguardedRunStep(c: Consumer, script: seq<Wake>, i: nat)
    requires !c.killed && i < |script|
    ensures UnguardedRun(c, script[i..]) == UnguardedRun(UnguardedStep(c, script[i]), script[i + 1..])
  {
    assert script[i..][1..] == script[i + 1..];
  }

  /** What one guarded step adds to the async callbacks of everything processed so far. */
  lemma GuardedStepDeliveries(c: Consumer, w: Wake, base: seq<Delivery>)
    ensures base + Deliveries(c.processed, false)
            + (if Woken(c, w).killed then [] else Deliveries(c.queue + w.arrived, false))
         == base + Deliveries(GuardedStep(c, w).processed, false)
  {
    DeliveriesAppend(c.processed, c.queue + w.arrived, false);
  }

  /** The async callbacks of a guarded step's processed events, without a prefix. */
  lemma GuardedStepProcessed(c: Consumer, w: Wake)
    ensures Deliveries(GuardedStep(c, w).processed, false)
         == Deliveries(c.processed, false) + (if Woken(c, w).killed then [] else Deliveries(c.queue + w.arrived, false))
  {
    DeliveriesAppend(c.processed, c.queue + w.arrived, false);
    if Woken(c, w).killed {
      assert Deliveries(c.processed, false) + [] == Deliveries(c.processed, false);
    }
  }

  /** The async callbacks of an unguarded step's processed events, without a prefix. */
  lemma UnguardedStepProcessed(c: Consumer, w: Wake)
    ensures Deliveries(UnguardedStep(c, w).processed, false)
         == Deliveries(c.processed, false) + Deliveries(c.queue + w.arrived, false)
  {
    DeliveriesAppend(c.processed, c.queue + w.arrived, false);
  }

  /** What one unguarded step adds to the async callbacks of everything processed so far. */
  lemma UnguardedStepDeliveries(c: Consumer, w: Wake, base: seq<Delivery>)
    ensures base + Deliveries(c.processed, false) + Deliveries(c.queue + w.arrived, false)
         == base + Deliveries(UnguardedStep(c, w).processed, false)
  {
    DeliveriesAppend(c.processed, c.queue + w.arrived, false);
  }

  /** The state a consumer thread starts in. */
  function Start(killed: bool, queue: seq<Event>): Consumer
  {
    Consumer(killed, queue, [], [])
  }

  /** Index of the first wake that kills, or the script's length if none does. */
  function KillAt(script: seq<Wake>): (k: nat)
    ensures k <= |script|
    ensures k < |script| ==> script[k].kill
    ensures forall j :: 0 <= j < k ==> !script[j].kill
  {
    if script == [] then 0
    else if script[0].kill then 0
    else 1 + KillAt(script[1..])
  }

  /** All events added by a script of wakes, in order. */
  function Arrivals(script: seq<Wake>): seq<Event>
  {
    if script == [] then [] else script[0].arrived + Arrivals(script[1..])
  }

  lemma ArrivalsCons(script: seq<Wake>, n: nat)
    requires 0 < n <= |script|
    ensures Arrivals(script[..n]) == script[0].arrived + Arrivals(script[1..][..n - 1])
  {
    assert script[..n][1..] == script[1..][..n - 1];
  }

  /** No step processes after observing the flag, and no step follows one that observed it. */
  ghost predicate KillRespected(c: Consumer)
  {
    && (forall i :: 0 <= i < |c.steps| ==> (c.steps[i].processed <==> !c.steps[i].killedAfterWait))
    && (forall i :: 0 <= i < |c.steps| && c.steps[i].killedAfterWait ==> i == |c.steps| - 1 && c.killed)
  }

  lemma {:induction false} GuardedRunRespectsKill(c: Consumer, script: seq<Wake>)
    requires KillRespected(c)
    ensures KillRespected(GuardedRun(c, script))
    decreases |script|
  {
    if !c.killed && script != [] {
      var next := GuardedStep(c, script[0]);
      assert KillRespected(next);
      GuardedRunRespectsKill(next, script[1..]);
    }
  }

  /**
   * Safety of the guarded loop: process() runs in exactly the steps where
   * the flag was clear after wait(); the loop exits right after the step
   * that sees the flag; it stops only when killed or out of wakes.
   */
  lemma GuardedNeverProcessesAfterKill(killed: bool, queue: seq<Event>, script: seq<Wake>)
    ensures var r := GuardedRun(Start(killed, queue), script);
      && (forall i :: 0 <= i < |r.steps| ==> (r.steps[i].processed <==> !r.steps[i].killedAfterWait))
      && (forall i :: 0 <= i < |r.steps| - 1 ==> !r.steps[i].killedAfterWait)
      && (r.killed || |r.steps| == |script|)
  {
    GuardedRunRespectsKill(Start(killed, queue), script);
    GuardedRunLength(Start(killed, queue), script);
  }

  lemma {:induction false} GuardedRunLength(c: Consumer, script: seq<Wake>)
    ensures var r := GuardedRun(c, script); r.killed || |r.steps| == |c.steps| + |script|
    decreases |script|
  {
    if !c.killed && script != [] {
      GuardedRunLength(GuardedStep(c, script[0]), script[1..]);
    }
  }

  /**
   * What the guarded loop does with the events, for a live consumer and the
   * first killing wake `k`: every event queued before that wake is processed
   * once, in FIFO order; the events added during the killing wake (and, if
   * it is the very first wake, those queued before it) are left queued,
   * never processed; the loop ends killed exactly when some wake kills, after
   * k + 1 iterations.
   */
  lemma {:induction false} GuardedRunOutcome(c: Consumer, script: seq<Wake>)
    requires !c.killed
    ensures var r := GuardedRun(c, script); var k := KillAt(script);
      && r.processed == c.processed + (if k == 0 then [] else c.queue + Arrivals(script[..k]))
      && r.queue == (if k == 0 then c.queue else []) + (if k < |script| then script[k].arrived else [])
      && r.killed == (k < |script|)
      && |r.steps| == |c.steps| + (if k < |script| then k + 1 else |script|)
    decreases |script|
  {
    if script != [] {
      var w := Woken(c, script[0]);
      if !w.killed {
        var next := GuardedStep(c, script[0]);
        GuardedRunOutcome(next, script[1..]);
        var k := KillAt(script);
        assert KillAt(script[1..]) == k - 1;
        ArrivalsCons(script, k);
        if k == 1 {
          assert script[1..][..0] == [];
        }
      }
    }
  }

  /**
   * What the unguarded loop does: with n the number of wakes it consumes
   * (up to and including the killing one), it processes every event queued
   * up to and including the killing wake, and leaves nothing queued.
   */
  lemma {:induction false} UnguardedRunOutcome(c: Consumer, script: seq<Wake>)
    requires !c.killed
    ensures var r := UnguardedRun(c, script); var k := KillAt(script);
      var n := if k < |script| then k + 1 else |script|;
      && r.processed == c.processed + (if n == 0 then [] else c.queue + Arrivals(script[..n]))
      && r.queue == (if n == 0 then c.queue else [])
      && r.killed == (k < |script|)
      && |r.steps| == |c.steps| + n
    decreases |script|
  {
    if script != [] {
      var w := Woken(c, script[0]);
      var next := UnguardedStep(c, script[0]);
      var k := KillAt(script);
      var n := if k < |script| then k + 1 else |script|;
      ArrivalsCons(script, n);
      if !w.killed {
        UnguardedRunOutcome(next, script[1..]);
        assert KillAt(script[1..]) == k - 1;
        if n == 1 {
          assert script[1..][..0] == [];
        }
      } else {
        assert script[1..][..0] == [];
      }
    }
  }

  /** Without a kill the two loops behave identically. */
  lemma {:induction false} LoopsAgreeWithoutKill(c: Consumer, script: seq<Wake>)
    requires !c.killed
    requires forall j :: 0 <= j < |script| ==> !script[j].kill
    ensures GuardedRun(c, script) == UnguardedRun(c, script)
    decreases |script|
  {
    if script != [] {
      LoopsAgreeWithoutKill(GuardedStep(c, script[0]), script[1..]);
    }
  }

  /**
   * The difference: when kill() and the last additions happen during the
   * same wait, the unguarded loop processes the whole queue after the kill
   * was observed, while the guarded loop processes nothing and leaves it queued.
   */
  lemma ProcessAfterKillWitness(queue: seq<Event>, arrived: seq<Event>)
    ensures var r := UnguardedRun(Start(false, queue), [Wake(arrived, true)]);
      r.processed == queue + arrived && r.steps == [Step(true, true)] && r.killed
    ensures var r := GuardedRun(Start(false, queue), [Wake(arrived, true)]);
      r.processed == [] && r.queue == queue + arrived && r.steps == [Step(true, false)] && r.killed
  {
    assert [Wake(arrived, true)][1..] == [];
  }
}
