# PluginParameters: cross-thread parameter-change dispatch

This project models the sequential logic underneath the PluginParameters
library's cross-thread delivery of parameter changes, and proves properties
of that model in Dafny.

The model covers three classes.

- **`ConcurrentParameterSet`** (module `ConcurrentSet`). Every
  `set`/`setScaled`/`setData` overload resolves its target and builds an
  event flagged realtime. `scheduleEvent` routes the event to one of two
  event dispatchers. `processRealtimeEvents` drains the realtime dispatcher.
  That drain applies each change, notifies the realtime observers, and
  relays the event to the async dispatcher with a wake-up signal. A
  background loop drains the async dispatcher. It waits, then re-checks the
  killed flag before processing. Teardown kills the async dispatcher, then
  joins its thread.
- **`PluginParameterSet`**. Its parameter registry is the class
  `Registry.ParameterRegistry`: an insertion-ordered list plus a map keyed
  by safe name. The module `PluginSet` holds its own routing (the caller
  picks the queue, and no wake-up is sent) and its background loop, which
  does not re-check the flag.
- **`BlobParameter`** (module `Blob`). A data slot made of a buffer and a
  size, plus a trace model of the allocator calls in `setValue`.

The event dispatcher, events, parameters and observers are support modules.

- `Events`: events, parameters, the observer-notification pass, and a
  reference definition of what each observer must hear.
- `Dispatch`: the event dispatcher, as a class with a FIFO queue, a killed
  flag, a wake-up count and a log of observer callbacks. A ghost log
  parallel to the callbacks records the target parameter's history of
  applied changes at the moment of each callback. That is what an observer
  reading `getValue()` inside its callback would see.
- `AsyncConsumer`: the two consumer loops as pure step relations. Whatever
  other threads do during each `wait()` is given as a script of wakes.

The consumer *methods* (`ConcurrentSet.AsyncDispatcherCallback` and
`PluginSet.AsyncDispatcherCallback`) are `while` loops over a real
dispatcher object. Each is proved equal to its step relation. The theorems
about the loops are lemmas about those step relations.

## Model

| member | source | states |
|---|---|---|
| Events.Parameter.Apply | include/ConcurrentParameterSet.h:114-116 | applying a change appends it to the parameter's history and changes nothing else |
| Events.NotifySound | include/ConcurrentParameterSet.h:122-125 | every callback of one notification pass is about that event and goes to an observer of the target with the pass's affinity, never to the sender |
| Events.DeliveriesSound | include/ConcurrentParameterSet.h:113-125 | every callback of a pass over a queue is about a queued event and goes to a matching observer of its target other than its sender |
| Events.ReceivedNotify | include/ConcurrentParameterSet.h:122-125 | in one pass, an observer hears the event once per registration if its affinity matches and it is not the sender, otherwise not at all |
| Events.ReceivedDeliveries | include/ConcurrentParameterSet.h:113-125 | what an observer hears from a pass over a queue is exactly the reference list `Expected`, in queue order; nothing is coalesced, dropped or repeated |
| Events.NotifiedOnceUnlessSender | test/MultithreadedTest.cpp:170-187 | an observer registered once hears one change once in its own context (never if it is the sender) and never in the other context |
| Events.ChangeApplied | include/ConcurrentParameterSet.h:113-118 | the change of every event in a queue is among the changes a pass over that queue applies to its target, so every event the realtime pass relays is already applied |
| Events.LastEventWins | include/ConcurrentParameterSet.h:113-118 | the newest change applied to a parameter by a pass is that of the last queued event targeting it |
| Dispatch.EventDispatcher.constructor | include/ConcurrentParameterSet.h:67-68 | a new dispatcher has the given mode, an empty queue, is not killed and has made no callbacks |
| Dispatch.EventDispatcher.Add | include/ConcurrentParameterSet.h:297-305 | the event is appended at the tail of the queue; the flag, wake-ups and callbacks are unchanged |
| Dispatch.EventDispatcher.Notify | include/ConcurrentParameterSet.h:303 | one more wake-up signal; the queue, flag and callbacks are unchanged |
| Dispatch.EventDispatcher.Kill | include/ConcurrentParameterSet.h:101 | the flag is set (idempotently) and the consumer is woken; the queue is unchanged |
| Dispatch.EventDispatcher.Wait | include/ConcurrentParameterSet.h:44 | on return, the queue has the events added meanwhile appended, and the flag is set if a kill happened meanwhile |
| Dispatch.EventDispatcher.Process | include/ConcurrentParameterSet.h:48-50 | the async drain empties the queue and notifies async observers of each event in enqueue order, excluding senders; each callback sees the target's current history of applied changes |
| Dispatch.EventDispatcher.ProcessAndRelay | include/ConcurrentParameterSet.h:109-125 | the realtime drain empties the queue; each targeted parameter gets exactly its queued changes in order; realtime observers are notified in order, excluding senders; every event is relayed, in order, to the async queue with one wake-up each; a change is applied before the realtime observers hear of it, so the history each realtime callback sees ends with that callback's own change |
| AsyncConsumer.GuardedRunRespectsKill | include/ConcurrentParameterSet.h:43-51 | the guarded loop keeps the invariant: a step processes exactly when the flag was clear after wait(), and a step that saw the flag is the last one |
| AsyncConsumer.GuardedNeverProcessesAfterKill | include/ConcurrentParameterSet.h:43-51 | from any start, process() never runs in a step that observed the kill; no step follows that one; the loop ends only killed or out of wakes |
| AsyncConsumer.GuardedRunLength | include/ConcurrentParameterSet.h:43-51 | a loop that is not killed has run one step per wake |
| AsyncConsumer.GuardedRunOutcome | include/ConcurrentParameterSet.h:40-52 | the guarded loop processes, in FIFO order, exactly the events queued before the first killing wake; the events of the killing wake stay queued unprocessed; it ends killed iff some wake kills, after that wake |
| AsyncConsumer.UnguardedRunOutcome | include/PluginParameterSet.h:39-45 | the unguarded loop processes every event queued up to and including the killing wake, and leaves nothing queued |
| AsyncConsumer.LoopsAgreeWithoutKill | include/PluginParameterSet.h:39-45 | without a kill, the unguarded loop behaves exactly like the guarded one |
| AsyncConsumer.ProcessAfterKillWitness | include/PluginParameterSet.h:41-44 | for a kill during a wait, the unguarded loop processes the whole queue in a step that saw the flag; the guarded loop processes nothing and leaves the queue intact |
| Registry.ParameterRegistry.constructor | include/PluginParameterSet.h:172-177 | a new registry is valid, with an empty list and map |
| Registry.ParameterRegistry.Size | include/PluginParameterSet.h:97 | the size is the list's length, and the map holds as many safe names |
| Registry.ParameterRegistry.GetAt | include/PluginParameterSet.h:123 | the parameter at an index below the size is the list entry, and it is also what its own safe name maps to |
| Registry.ParameterRegistry.GetByName | include/PluginParameterSet.h:137-140 | a lookup by name finds a registered parameter with the same safe name, or null exactly when no registered parameter has that safe name |
| Registry.ParameterRegistry.AtIndex | include/PluginParameterSet.h:115 | `operator[](i)` equals `get(i)` |
| Registry.ParameterRegistry.AtName | include/PluginParameterSet.h:130 | `operator[](name)` equals `get(name)` |
| Registry.ParameterRegistry.Add | include/PluginParameterSet.h:82-92 | null, or a parameter whose name already resolves, gives null and leaves list and map unchanged; otherwise it returns the parameter, appends it at index old size, maps its safe name to it, and it then resolves by name |
| Registry.ParameterRegistry.Clear | include/PluginParameterSet.h:100-106 | afterwards the size is 0 and no name resolves |
| ConcurrentSet.AsyncDispatcherCallback | include/ConcurrentParameterSet.h:40-52 | running the guarded loop on the async dispatcher leaves exactly the flag, queue and step record of `GuardedRun`, and it makes the async callbacks for exactly the events `GuardedRun` processes |
| ConcurrentSet.ConcurrentParameterSet.constructor | include/ConcurrentParameterSet.h:67-69 | a new set has size 0, two fresh empty dispatchers, and a live async dispatcher whose thread is not joined |
| ConcurrentSet.ConcurrentParameterSet.Destroy | include/ConcurrentParameterSet.h:100-103 | teardown kills the async dispatcher, then joins the thread; queued async events are left unprocessed |
| ConcurrentSet.ConcurrentParameterSet.JoinAsyncThread | include/ConcurrentParameterSet.h:102 | joining requires that the dispatcher has been killed |
| ConcurrentSet.ConcurrentParameterSet.ProcessRealtimeEvents | include/ConcurrentParameterSet.h:109-125 | drains the realtime dispatcher with the guarantees of `ProcessAndRelay`, relaying to the async dispatcher: each realtime callback sees a history ending with its own change (apply before notify); the async callbacks are untouched; and it keeps the set's invariant that every event waiting on the async queue has already been applied to its parameter |
| ConcurrentSet.ConcurrentParameterSet.ScheduleEvent | include/ConcurrentParameterSet.h:297-305 | a realtime event is appended to the realtime queue and the async dispatcher is untouched; any other event is appended to the async queue with one wake-up and the realtime dispatcher is untouched; the invariant that every async-queued event is already applied holds afterwards exactly when it held before and the new event is realtime or already applied (a protected method, so only the relay and subclasses call it) |
| ConcurrentSet.ConcurrentParameterSet.Set | include/ConcurrentParameterSet.h:168-171 | exactly one value event, flagged realtime and carrying the sender, is appended to the realtime queue; the async dispatcher is untouched |
| ConcurrentSet.ConcurrentParameterSet.SetByName | include/ConcurrentParameterSet.h:127-133 | if the name resolves, the value event for that parameter is appended to the realtime queue; otherwise both queues are unchanged |
| ConcurrentSet.ConcurrentParameterSet.SetAt | include/ConcurrentParameterSet.h:149-152 | for an index below the size, the value event for the parameter at that index is appended to the realtime queue |
| ConcurrentSet.ConcurrentParameterSet.SetScaled | include/ConcurrentParameterSet.h:228-231 | exactly one scaled-value event, flagged realtime, is appended to the realtime queue; the async dispatcher is untouched |
| ConcurrentSet.ConcurrentParameterSet.SetScaledByName | include/ConcurrentParameterSet.h:187-193 | if the name resolves, the scaled-value event is appended to the realtime queue; otherwise both queues are unchanged |
| ConcurrentSet.ConcurrentParameterSet.SetScaledAt | include/ConcurrentParameterSet.h:209-212 | for an index below the size, the scaled-value event for that parameter is appended to the realtime queue |
| ConcurrentSet.ConcurrentParameterSet.SetData | include/ConcurrentParameterSet.h:288-294 | for a data parameter, exactly one data event flagged realtime is appended to the realtime queue; for a null pointer or any other parameter the `dynamic_cast` fails and nothing is scheduled |
| ConcurrentSet.ConcurrentParameterSet.SetDataByName | include/ConcurrentParameterSet.h:247-253 | a data event is scheduled only when the name resolves to a data parameter; otherwise both queues are unchanged |
| ConcurrentSet.ConcurrentParameterSet.SetDataAt | include/ConcurrentParameterSet.h:269-272 | for an index below the size, a data event is scheduled exactly when the parameter there is a data parameter |
| ConcurrentSet.OneWakeDrainsQueue | include/ConcurrentParameterSet.h:43-50 | one wake-up without a kill makes the guarded loop process everything queued |
| ConcurrentSet.OneSetCounts | test/MultithreadedTest.cpp:150-187 | for a parameter observed by one realtime and one async observer, one change reaches the realtime observer once, only in the realtime pass, and the async observer once, only in the async pass, or never if it is the sender |
| ConcurrentSet.OneSetDeliveries | test/MultithreadedTest.cpp:150-187 | for one event on a parameter observed by one realtime and one async observer, the realtime pass makes exactly one callback, to the realtime observer, and the async pass exactly one to the async observer, or none if it is the sender |
| ConcurrentSet.NewSetWithObservedParameter | test/MultithreadedTest.cpp:85-106 | a freshly constructed set has size 0; adding a new parameter returns it non-null, and it is then the only registered parameter, with nothing applied and no callbacks made |
| ConcurrentSet.SetAndProcessRealtime | test/MultithreadedTest.cpp:103-112 | after `set(p, true)` and one `processRealtimeEvents()`, the change has been applied to p exactly once, and the event is queued for async notification |
| ConcurrentSet.SetAndDrain | test/MultithreadedTest.cpp:128-189 | after the realtime drain and one wake-up of the async thread, p has the new value, the realtime observer was called once, and the async observer once, or zero times when it is the sender; the value each observer reads in its callback is already the new value 1.0, as the cached-value assertions at lines 144 and 146 demand |
| ConcurrentSet.SetThenKillDuringWait | include/ConcurrentParameterSet.h:45-50 | if teardown's kill coincides with the wake-up, the async thread does not process: the async observer is never called and the relayed event stays queued |
| PluginSet.AsyncDispatcherCallback | include/PluginParameterSet.h:39-45 | running the unguarded loop on the async dispatcher leaves exactly the flag, queue and step record of `UnguardedRun`, and it makes the async callbacks for exactly the events `UnguardedRun` processes |
| PluginSet.PluginParameterSet.constructor | include/PluginParameterSet.h:54-64 | a new set has size 0 and two fresh empty dispatchers |
| PluginSet.PluginParameterSet.ScheduleEvent | include/PluginParameterSet.h:162-169 | a realtime event goes only to the realtime queue and any other only to the async queue; no dispatcher is signalled |
| PluginSet.PluginParameterSet.Set | include/PluginParameterSet.h:156-159 | one value event carrying the caller's realtime flag (default false) and sender is appended to the queue that flag selects; the other dispatcher is untouched |
| PluginSet.PluginParameterSet.SetByName | include/PluginParameterSet.h:143-149 | if the name resolves, the value event goes to the queue the flag selects; otherwise both queues are unchanged |
| PluginSet.PluginParameterSet.SetAt | include/PluginParameterSet.h:151-154 | for an index below the size, the value event for that parameter goes to the queue the flag selects |
| PluginSet.NewSetWithAsyncObserver | include/PluginParameterSet.h:54-92 | adding a new parameter to a new set returns it non-null and makes it the only registered parameter; the async dispatcher is empty, live and has made no callbacks |
| PluginSet.SetThenKillDuringWait | include/PluginParameterSet.h:41-44 | after `set(p, 1.0)` with default routing and a kill during the wait, the thread's only step saw the flag and still processed, so p's async observer is called once after the kill |
| Blob.BlobParameter.constructor | include/BlobParameter.h:35-37 | the given buffer reference and size are stored as is, without a copy; the range is 0 to 1 with default 0 |
| Blob.BlobParameter.GetDisplayText | include/BlobParameter.h:41-43 | the text is "(Data)" exactly when a buffer is stored and its size is positive, and "(Null)" otherwise |
| Blob.BlobParameter.GetScaledValue | include/BlobParameter.h:45-47 | the scaled value is always 0 |
| Blob.BlobParameter.GetData | include/BlobParameter.h:49-51 | returns the stored buffer itself |
| Blob.BlobParameter.GetDataSize | include/BlobParameter.h:53-55 | returns the stored size |
| Blob.BlobParameter.SetScaledValue | include/BlobParameter.h:57 | changes nothing; the scaled value stays 0 |
| Blob.BlobParameter.SetValue | include/BlobParameter.h:59-70 | null input or size 0 leaves the buffer and size unchanged; otherwise the new buffer is freshly allocated and not the caller's, holds exactly the caller's first `inDataSize` bytes (also when the input is the stored buffer itself), the size is the input size, and the display text becomes "(Data)"; the caller's bytes are unchanged. This is the corrected copy-first order (see Findings): as written, self-assignment reads freed memory |
| Blob.SetValueAsWritten | include/BlobParameter.h:59-70 | the allocator calls of setValue as written are empty exactly for null input or size 0 |
| Blob.SetValueCopyFirst | include/BlobParameter.h:59-70 | the allocator calls with copy first and release last are empty exactly for null input or size 0 |
| Blob.AsWrittenUseAfterFreeIffSelfAssignment | include/BlobParameter.h:63-69 | the order as written reads a freed buffer exactly when a buffer is stored, and non-empty input is that same buffer |
| Blob.CopyFirstNeverUseAfterFree | include/BlobParameter.h:63-69 | copying before releasing never reads a freed buffer, for every input |
| Blob.SelfAssignmentWitness | include/BlobParameter.h:63-69 | a concrete self-assignment of a 4-byte buffer reads freed memory as written, and does not with copy first |

## Left out

- Threads, the lock guard, thread names and priorities, `detach` and `join`,
  and the blocking in `wait()`/`notify()` are not modelled. What other
  threads do during one `wait()` is an input (a `Wake`). A wake with no
  arrivals and no kill stands for a spurious or empty wake-up.
- The startup sleep (`SLEEP_AFTER_CREATION_MS`) and the lost-wake-up race
  are timing properties, so they are left out. The model counts wake-up
  signals but does not make delivery depend on them.
- EventDispatcher.h, Event.h, Parameter.h, ParameterSet.h and
  PluginParameter.h are not part of this model. They are modelled as
  follows:
  - The dispatcher's drain semantics follow the doc comments of
    `ConcurrentParameterSet::set` and the multithreaded tests.
  - `ConcurrentParameterSet`'s inherited container (`add`, `size`, `get`)
    reuses `Registry.ParameterRegistry`.
  - A parameter's value is its history of applied changes. `applyValue`
    and the other apply operations are not modelled further.
  - "true" for a boolean parameter is the value 1.0.
- `makeSafeName` and `getSafeName` are not part of this model. The
  registry takes the safe-name function as a construction argument, and
  every registry fact holds for any such function.
- Parameter values are Dafny reals. Floating-point rounding and scaling are
  not modelled.
- `addObserver` is not modelled. Each parameter's observer list is fixed
  when the parameter is created, because observers only change outside
  dispatch.
- Memory management is not modelled. This covers:
  - the `delete` of parameters in `clear()` and in the destructors;
  - the heap allocation and destruction of events;
  - whether a data event copies the caller's buffer (the data event
    carries the buffer reference).
- The conditional-compilation flags are taken as enabled.
- AsyncConsumer.UnguardedRunOutcome: a kill is modelled only as arriving
  during `wait()`. A kill that lands while `process()` runs, or between
  `process()` and the loop test, makes the source leave at the loop head
  with whatever arrived meanwhile still queued. The model attributes such
  a kill to the next wake, where the unguarded loop processes once more.
  So "leaves nothing queued" and the step count hold only for kills that
  arrive during a wait.
- AsyncConsumer.GuardedRunOutcome: the guarded loop holds the
  dispatcher's lock everywhere except inside `wait()`
  (include/ConcurrentParameterSet.h:41), so a `kill()` that takes the same
  lock can only land during a wait, as modelled. Whether `kill()` takes it
  is decided in EventDispatcher.h, which is not part of this model. If it
  does not, a kill during `process()` leaves the source at the loop head,
  whereas the model sees it at the next wake and records one more step.
  Both leave the later events unprocessed.
- PluginSet.PluginParameterSet: its destructor is not modelled. It joins a
  thread that was detached in the constructor, without killing the async
  dispatcher. How that behaves depends on EventDispatcherThread, which is
  not part of this model.
- Registry.ParameterRegistry.GetAt: an index at or past the size makes
  `vector::at` throw. The model requires a valid index instead, as the
  doc comment demands of callers.
- ConcurrentSet.ConcurrentParameterSet.SetAt: an out-of-range index throws
  in `vector::at`. It is modelled as a precondition.
- ConcurrentSet.ConcurrentParameterSet.SetScaledAt: an out-of-range index
  throws in `vector::at`. It is modelled as a precondition.
- ConcurrentSet.ConcurrentParameterSet.SetDataAt: an out-of-range index
  throws in `vector::at`. It is modelled as a precondition.
- PluginSet.PluginParameterSet.SetAt: an out-of-range index throws in
  `vector::at`. It is modelled as a precondition.
- ConcurrentSet.ConcurrentParameterSet.Set: the model takes a non-null
  parameter. Passing a null pointer, or a parameter from another set, is
  not modelled.
- Blob.BlobParameter.SetValue: follows the corrected copy-first order of
  the Findings table, not the order as written. As written, setting a blob
  to its own buffer reads freed memory; `Blob.SetValueAsWritten` models
  that order and its defect.
- Blob.BlobParameter.SetValue: the caller must supply at least
  `inDataSize` bytes. `memcpy` reads that many bytes and the source cannot
  check it.
- Blob.BlobParameter: `void *` buffers are modelled as byte arrays. The
  `Parameter` base class contributes only its range constants.

## Findings

| source | as written | input that shows it | evidently intended | confidence | as-written member | corrected member |
|---|---|---|---|---|---|---|
| include/PluginParameterSet.h:41-44 | after `wait()` returns, `process()` runs without re-checking the killed flag | one event queued and `kill()` called on the async dispatcher, while the thread waits, by code outside these files (PluginParameterSet.h itself never calls `kill()`; its destructor at lines 66-67 only joins): the loop's only step sees the flag set and still notifies the async observers | re-check the flag after `wait()` and skip `process()` once killed, as include/ConcurrentParameterSet.h:48 does | medium, not executed | AsyncConsumer.UnguardedRun (AsyncConsumer.ProcessAfterKillWitness, AsyncConsumer.UnguardedRunOutcome, PluginSet.SetThenKillDuringWait) | AsyncConsumer.GuardedRun (AsyncConsumer.GuardedNeverProcessesAfterKill, AsyncConsumer.GuardedRunOutcome, ConcurrentSet.AsyncDispatcherCallback) |
| include/BlobParameter.h:63-69 | the stored buffer is freed before the input is copied | `setValue(getData(), getDataSize())` on a blob holding 4 bytes: `memcpy` reads the buffer just freed | allocate and copy first, then release the old buffer | medium, not executed | Blob.SetValueAsWritten (Blob.AsWrittenUseAfterFreeIffSelfAssignment, Blob.SelfAssignmentWitness) | Blob.SetValueCopyFirst (Blob.CopyFirstNeverUseAfterFree, Blob.BlobParameter.SetValue) |
