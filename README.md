# s7connector poll scheduler, connection holder and endpoint pools in Dafny

This project models the scheduling core of the s7connector library for
Siemens S7 controllers:

- `S7BaseAsyncConnection`: a connection with the states `Idle`, `Active` and `Closed`.
  - It polls a registry of items on a scheduled executor.
  - It stops through a deferred deactivation task.
  - It queues writes as tasks behind cancellable futures.
- `S7BaseConnectionHolder`: the simpler variant, keyed on one `job` handle and on whether the executor is shut down.
- The reference-counted pools `S7TCPAsyncConnectionPool` and `S7TCPEndpointPool`.
- The value and error types these use: `ItemKey`, `S7Exception`, and the default methods of `S7AsyncConnection` and `S7Endpoint`.

Everything is sequential. The executor is an explicit map of pending tasks
plus a shut-down flag, and running a task is an explicit call naming its
handle, the way the library's unit tests run the captured `Runnable`.
Other modelling choices:

- **Connector.** The connect factory and the controller connector are an oracle `Plc(connect, read, write)`.
- **Logs.** Every callback invocation (item consumer, item error consumer, global exception consumer, state listener) is appended to an `events` log. Every connector call is appended to a `calls` log.
- **Iteration order.** The order in which the `ConcurrentHashMap` of items is iterated is a parameter `order` that enumerates the registry.

Modules:

- **`JavaHash`**: Java's 32-bit `int`, `Objects.hash`, `String.hashCode`, and the argument of `equals(Object)` (`JavaObject`).
- **`ItemKeys`, `S7Exceptions`, `Connector`, `Api`**: the value types, the connector interface, the item registry and the interface default methods.
- **`Scheduling`**: the `ScheduledExecutorService` as used here.
  - Submitting after shutdown is rejected.
  - Shutdown drops periodic tasks.
  - A periodic task whose run throws is not run again.
- **`Cycles`**: one poll and one write as pure functions. `Full` is the asynchronous connection, which checks for a missing exception consumer; `Simplified` is the holder, which calls it unchecked.
- **`AsyncLifecycle`, `HolderLifecycle`**: the two scheduling state machines as pure transitions, with their invariants (`Consistent`) and their properties over arbitrary runs.
- **`AsyncConnection`, `ConnectionHolder`**: the two classes. Their fields are updated in place, and each method's new state is tied to the pure transition or cycle it performs.
- **`EndpointPools`**: both pools as one class, `RefCountPool`, since their code is the same.
  - The value-compared `Key` and the reference-compared `EndpointKey` are its key types.
  - `Acquire` is the pool as written; `AcquireCorrected` starts a new key's counter at 1.
- **`AsyncScenarios`, `PoolScenarios`**: the unit tests of `S7BaseAsyncConnection` and pool usage sequences, replayed on the model.

Two points where the code does something other than what its own structure suggests; the model follows the code:

- **Pool counters.** `releaseEndpoint` closes an endpoint when its counter reaches zero (`S7TCPAsyncConnectionPool.java:87-95`), so a new entry should start with count 1. `acquireEndpoint` never stores a counter (see Findings).
- **Holder connection failure.** The asynchronous connection reports a failed connection attempt to the global consumer and tries again on the next poll; its log message says "retry next poll" (`S7BaseAsyncConnection.java:254-262`). `S7BaseConnectionHolder.poll` has no such handler: its RuntimeException leaves the periodic task, and the executor drops the task. `start` does not restart polling, because `job` is still set. Only a `setPeriod` with a different `Duration` schedules a new poll (`HolderLifecycle.PollFailureStopsPolling`).

## Model

| member | source | states |
|---|---|---|
| JavaHash.Wrap32 | src/main/java/com/github/s7connector/api/ItemKey.java:44-46 | the result is the 32-bit two's-complement value congruent to the input modulo 2^32, and an in-range value is unchanged |
| ItemKeys.ConstructorGetters | src/main/java/com/github/s7connector/api/ItemKey.java:9-30 | the getters return exactly the four values given to the constructor |
| ItemKeys.Equals | src/main/java/com/github/s7connector/api/ItemKey.java:33-41 | no contract of its own; stated by `ItemKeys.EqualsIsFieldEquality` and `ItemKeys.EqualsNullOtherClassAndSelf` |
| ItemKeys.EqualsIsFieldEquality | src/main/java/com/github/s7connector/api/ItemKey.java:33-41 | `equals` holds exactly when the argument is an ItemKey with the same area, area number, byte count and offset |
| ItemKeys.EqualsNullOtherClassAndSelf | src/main/java/com/github/s7connector/api/ItemKey.java:34-35 | `equals(null)` and `equals` with an object of another class are false; a key equals itself |
| ItemKeys.HashCode | src/main/java/com/github/s7connector/api/ItemKey.java:43-46 | no contract of its own; stated by `ItemKeys.EqualKeysHashEqual` |
| ItemKeys.EqualKeysHashEqual | src/main/java/com/github/s7connector/api/ItemKey.java:44-46 | keys that are `equals` have the same `hashCode` |
| S7Exceptions.NewS7Exception | src/main/java/com/github/s7connector/exception/S7Exception.java:38-40 | the no-argument constructor leaves the code at RESULT_OK and no message |
| S7Exceptions.WithMessage | src/main/java/com/github/s7connector/exception/S7Exception.java:48-51 | the message constructor keeps the message, code RESULT_OK |
| S7Exceptions.WithMessageAndCause | src/main/java/com/github/s7connector/exception/S7Exception.java:61-64 | message and cause kept, code RESULT_OK |
| S7Exceptions.WithCause | src/main/java/com/github/s7connector/exception/S7Exception.java:72-75 | cause kept, code RESULT_OK |
| S7Exceptions.WithErrorCode | src/main/java/com/github/s7connector/exception/S7Exception.java:84-88 | the int constructor stores the given code, with the library's text for it as message |
| S7Exceptions.GetErrorCode | src/main/java/com/github/s7connector/exception/S7Exception.java:90-95 | empty exactly when the code is RESULT_OK, otherwise the code |
| S7Exceptions.MessageConstructorsHaveNoCode | src/main/java/com/github/s7connector/exception/S7Exception.java:38-75 | every constructor other than the int one yields an exception whose `getErrorCode` is empty |
| S7Exceptions.ErrorCodeRoundTrip | src/main/java/com/github/s7connector/exception/S7Exception.java:84-95 | `getErrorCode` returns the code given to the int constructor, unless that code is RESULT_OK |
| Api.Register | src/main/java/com/github/s7connector/impl/S7BaseAsyncConnection.java:146-153 | `addItem` maps the key to the new processor, replacing any entry for an equal key, and leaves every other entry alone |
| Api.Unregister | src/main/java/com/github/s7connector/impl/S7BaseAsyncConnection.java:156-158 | `removeItem` removes the key's entry and no other; an absent key leaves the registry unchanged |
| Api.DefaultAddItem | src/main/java/com/github/s7connector/api/S7AsyncConnection.java:27-33 | the five-argument `addItem` delegates with a key `equals` to `new ItemKey(area, n, bytes, offset)`, with no error consumer |
| Api.DefaultRemoveItem | src/main/java/com/github/s7connector/api/S7AsyncConnection.java:41-46 | the four-argument `removeItem` delegates with a key `equals` to `new ItemKey(area, n, bytes, offset)` |
| Api.DefaultWrite | src/main/java/com/github/s7connector/api/S7AsyncConnection.java:54-59 | the four-argument `write` delegates with the key's byte count equal to the value's length and the value unchanged |
| Api.AddThenRemoveSameEntry | src/main/java/com/github/s7connector/api/S7Endpoint.java:13-32 | the default `addItem` and `removeItem` with the same four arguments address the same registry entry: removing after adding leaves no entry for that key |
| Scheduling.Executor.Submit | src/main/java/com/github/s7connector/impl/S7BaseAsyncConnection.java:95 | submission is rejected exactly when the executor is shut down; otherwise the task is pending under a fresh handle and nothing else changes |
| Scheduling.Executor.Cancel | src/main/java/com/github/s7connector/impl/S7BaseAsyncConnection.java:79 | cancel succeeds exactly when the task is still pending, and removes only that task |
| Scheduling.Executor.Shutdown | src/main/java/com/github/s7connector/impl/S7BaseAsyncConnection.java:137-138 | shutdown marks the executor shut down, counts the call and keeps exactly the one-shot tasks |
| Scheduling.Executor.Finish | src/main/java/com/github/s7connector/impl/S7BaseConnectionHolder.java:158-167 | after a run a task stays pending exactly when it is periodic and did not throw; other tasks are untouched |
| Scheduling.Duration.constructor | src/main/java/com/github/s7connector/impl/S7BaseAsyncConnection.java:32 | a period keeps its length |
| Cycles.ReadCycle | src/main/java/com/github/s7connector/impl/S7BaseAsyncConnection.java:267-297 | one `doRead` pass: a pass that closed the connection has stopped, and it makes at most one read per item plus the close. Its full behaviour is proved in `Cycles.CycleWithoutStop` (no stopping item: every item read once in order, events exactly the items' own) and `Cycles.CycleStopsAtFirstIntolerable` (the pass stops at the first item it does not tolerate) |
| Cycles.Reads | src/main/java/com/github/s7connector/impl/S7BaseAsyncConnection.java:269-274 | one read call per item, in iteration order, with the item's key |
| Cycles.ItemStep | src/main/java/com/github/s7connector/impl/S7BaseAsyncConnection.java:269-296 | no contract of its own; the lambda for one item in both `doRead`s (also S7BaseConnectionHolder.java:171-186); stated by `Cycles.StepAppends`, `Cycles.StepAtTolerated` and `Cycles.StepAtIntolerable` |
| Cycles.StepAppends | src/main/java/com/github/s7connector/impl/S7BaseAsyncConnection.java:269-296 | the lambda for one item, applied to a pass that has not stopped, appends what it does on its own |
| Cycles.StepAtTolerated | src/main/java/com/github/s7connector/impl/S7BaseAsyncConnection.java:270-283 | an item whose outcome is tolerated adds one read and the item's own events and does not stop the pass |
| Cycles.StepAtIntolerable | src/main/java/com/github/s7connector/impl/S7BaseAsyncConnection.java:284-295 | an item whose outcome is not tolerated adds its read and stops the pass, and on a connection fault notifies the global consumer and closes |
| Cycles.CycleWithoutStop | src/main/java/com/github/s7connector/impl/S7BaseAsyncConnection.java:267-297 | error isolation: while no item stops the pass, every item is read once in order and the events are exactly each item's own (bytes to its consumer, an S7Exception to its error consumer) |
| Cycles.StoppedStaysStopped | src/main/java/com/github/s7connector/impl/S7BaseAsyncConnection.java:271 | once the error flag is set, the remaining items are neither read nor delivered |
| Cycles.CycleStopsAtFirstIntolerable | src/main/java/com/github/s7connector/impl/S7BaseAsyncConnection.java:284-295 | the pass stops at the first connection-level fault: items before it behave as in isolation, the fault is reported to the global consumer once if set, the connection is closed, and later items are skipped |
| Cycles.IsolatedEventsAreItemScoped | src/main/java/com/github/s7connector/impl/S7BaseAsyncConnection.java:275-283 | item-level errors never reach the global exception consumer |
| Cycles.ProfilesAgreeWhenConsumersSet | src/main/java/com/github/s7connector/impl/S7BaseConnectionHolder.java:169-187 | with every error consumer and the global consumer set, the holder's pass is the asynchronous connection's pass |
| Cycles.CycleNeverConnects | src/main/java/com/github/s7connector/impl/S7BaseAsyncConnection.java:267-297 | a read pass never opens a connection |
| Cycles.Poll | src/main/java/com/github/s7connector/impl/S7BaseAsyncConnection.java:231-265 | `poll` connects only when no connection is held. When connecting fails, nothing is read and no connection is kept; the asynchronous connection reports "Connection is broken" to the global consumer if one is set, while the holder notifies no one and throws. Otherwise the poll is exactly the read pass `ReadCycle` over the live connection, preceded by `Connect` if one was opened, and the connection is dropped exactly when the pass closed it |
| Cycles.AttemptWrite | src/main/java/com/github/s7connector/impl/S7BaseAsyncConnection.java:299-311 | no contract of its own; `doWrite` of both classes (also S7BaseConnectionHolder.java:189-201); stated by `Cycles.WriteReachesConnectorOnce` |
| Cycles.WriteReachesConnectorOnce | src/main/java/com/github/s7connector/impl/S7BaseAsyncConnection.java:299-311 | a write with a connection reaches the connector exactly once with the key's area, area number and offset and the value, and fails exactly when the connector's write fails, with that error; without a connection it fails with the broken-connection error |
| AsyncLifecycle.Start | src/main/java/com/github/s7connector/impl/S7BaseAsyncConnection.java:86-97 | `start` acts only from `Idle` |
| AsyncLifecycle.Stop | src/main/java/com/github/s7connector/impl/S7BaseAsyncConnection.java:99-128 | `stop` acts only while `Active` with no deactivation pending |
| AsyncLifecycle.Close | src/main/java/com/github/s7connector/impl/S7BaseAsyncConnection.java:131-143 | `close` is a no-op once `Closed` |
| AsyncLifecycle.SetPeriod | src/main/java/com/github/s7connector/impl/S7BaseAsyncConnection.java:75-83 | as written: nothing happens unless the period object differs and a poll handle is held |
| AsyncLifecycle.SetPeriodCorrected | src/main/java/com/github/s7connector/impl/S7BaseAsyncConnection.java:75-83 | corrected: additionally nothing happens while a deactivation is pending |
| AsyncLifecycle.Reschedule | src/main/java/com/github/s7connector/impl/S7BaseAsyncConnection.java:79-80 | cancelling and rescheduling the poll keeps the executor well formed |
| AsyncLifecycle.Write | src/main/java/com/github/s7connector/impl/S7BaseAsyncConnection.java:188-189 | `write` outside `Active` throws IllegalStateException("Connection not active") and changes nothing |
| AsyncLifecycle.Deactivate | src/main/java/com/github/s7connector/impl/S7BaseAsyncConnection.java:105-124 | the deactivation task enters exactly one state, `Idle` or `Closed`, never `Active` |
| AsyncLifecycle.RunTask | src/main/java/com/github/s7connector/impl/S7BaseAsyncConnection.java:245-265 | running any pending task keeps the executor well formed |
| AsyncLifecycle.CancelWrite | src/main/java/com/github/s7connector/impl/S7BaseAsyncConnection.java:175-183 | cancelling a pending write task removes it |
| AsyncLifecycle.Apply | src/main/java/com/github/s7connector/impl/S7BaseAsyncConnection.java:86-200 | every public call keeps the executor well formed |
| AsyncLifecycle.Run | src/main/java/com/github/s7connector/impl/S7BaseAsyncConnection.java:86-200 | every run keeps the executor well formed |
| AsyncLifecycle.InitialConsistent | src/main/java/com/github/s7connector/impl/S7BaseAsyncConnection.java:42-50 | a new connection (`Idle`, no handles, close flag off) satisfies the invariant |
| AsyncLifecycle.StartKeepsConsistent | src/main/java/com/github/s7connector/impl/S7BaseAsyncConnection.java:86-97 | `start` keeps the invariant and the single-poll property and throws nothing |
| AsyncLifecycle.StopKeepsConsistent | src/main/java/com/github/s7connector/impl/S7BaseAsyncConnection.java:99-128 | `stop` keeps the invariant and the single-poll property and throws nothing |
| AsyncLifecycle.CloseKeepsConsistent | src/main/java/com/github/s7connector/impl/S7BaseAsyncConnection.java:131-143 | `close` keeps the invariant and the single-poll property and throws nothing |
| AsyncLifecycle.SetPeriodKeepsConsistent | src/main/java/com/github/s7connector/impl/S7BaseAsyncConnection.java:75-83 | both `setPeriod` versions keep the invariant; only the corrected one keeps the single-poll property |
| AsyncLifecycle.WriteKeepsConsistent | src/main/java/com/github/s7connector/impl/S7BaseAsyncConnection.java:171-200 | `write` keeps the invariant and throws only outside `Active` |
| AsyncLifecycle.RunTaskKeepsConsistent | src/main/java/com/github/s7connector/impl/S7BaseAsyncConnection.java:105-124 | running any task, including the deactivation, keeps the invariant and the single-poll property |
| AsyncLifecycle.CancelWriteKeepsConsistent | src/main/java/com/github/s7connector/impl/S7BaseAsyncConnection.java:173-183 | cancelling a write keeps the invariant |
| AsyncLifecycle.StepKeepsConsistent | src/main/java/com/github/s7connector/impl/S7BaseAsyncConnection.java:86-200 | every call keeps the invariant, and the only exception a caller sees is `write`'s "Connection not active" |
| AsyncLifecycle.RunKeepsConsistent | src/main/java/com/github/s7connector/impl/S7BaseAsyncConnection.java:86-200 | over any run the invariant holds and the only exception thrown is "Connection not active"; without the as-written `setPeriod` at most one poll stays live |
| AsyncLifecycle.ShutdownAtMostOnce | src/main/java/com/github/s7connector/impl/S7BaseAsyncConnection.java:131-143 | over any run of a new connection the executor is shut down at most once, and exactly when `Closed` with no deactivation pending |
| AsyncLifecycle.ClosedIsTerminal | src/main/java/com/github/s7connector/impl/S7BaseAsyncConnection.java:132 | no call leaves `Closed`, and every state reported afterwards is `Closed` |
| AsyncLifecycle.SinglePollMeansOnePoll | src/main/java/com/github/s7connector/impl/S7BaseAsyncConnection.java:42-44 | under the single-poll property at most one periodic task is pending, and none in `Idle` |
| AsyncLifecycle.StartFromIdle | src/main/java/com/github/s7connector/impl/S7BaseAsyncConnection.java:86-97 | `start` from `Idle` enters `Active`, reports it once and schedules exactly one periodic poll, held as `pollJob` |
| AsyncLifecycle.StopQueuesDeactivation | src/main/java/com/github/s7connector/impl/S7BaseAsyncConnection.java:99-128 | `stop` cancels the poll and queues one deactivation; the state stays `Active`, so a `start` meanwhile does nothing |
| AsyncLifecycle.StopThenDeactivateEndsIdle | src/main/java/com/github/s7connector/impl/S7BaseAsyncConnection.java:105-124 | after `stop`, the deactivation task ends in `Idle` with no handle held, no poll left and the executor running |
| AsyncLifecycle.CloseFromIdle | src/main/java/com/github/s7connector/impl/S7BaseAsyncConnection.java:131-143 | `close` from `Idle` shuts the executor down once, enters `Closed`, and a second `close` does nothing |
| AsyncLifecycle.CloseFromActive | src/main/java/com/github/s7connector/impl/S7BaseAsyncConnection.java:131-143 | `close` from `Active` enters `Closed` at once and sets the close flag; the deactivation then shuts the executor down exactly once and leaves no poll |
| AsyncLifecycle.OrphanPollAfterSetPeriod | src/main/java/com/github/s7connector/impl/S7BaseAsyncConnection.java:75-83 | as written, `setPeriod` during a pending deactivation leaves a poll running in `Idle`, and a later `start` runs two |
| AsyncLifecycle.CorrectedRunsKeepOnePoll | src/main/java/com/github/s7connector/impl/S7BaseAsyncConnection.java:75-83 | with the corrected `setPeriod`, no run of a new connection ever has more than one poll, and none in `Idle` |
| AsyncConnection.Notices | src/main/java/com/github/s7connector/impl/S7BaseAsyncConnection.java:52-56 | the listener receives each entered state in order, and nothing when no listener is set |
| AsyncConnection.Settle | src/main/java/com/github/s7connector/impl/S7BaseAsyncConnection.java:190-198 | a pending future completes normally exactly when the write succeeded, otherwise exceptionally with the error; a settled future is unchanged |
| AsyncConnection.S7BaseAsyncConnection.constructor | src/main/java/com/github/s7connector/impl/S7BaseAsyncConnection.java:32-50 | period one second, empty registry, no connection or consumers, `Idle` with no handles |
| AsyncConnection.S7BaseAsyncConnection.SetState | src/main/java/com/github/s7connector/impl/S7BaseAsyncConnection.java:52-56 | the state is set and the listener, if any, is told |
| AsyncConnection.S7BaseAsyncConnection.SetStateListener | src/main/java/com/github/s7connector/impl/S7BaseAsyncConnection.java:63-65 | the listener is replaced |
| AsyncConnection.S7BaseAsyncConnection.Start | src/main/java/com/github/s7connector/impl/S7BaseAsyncConnection.java:86-97 | the new scheduling state is `AsyncLifecycle.Start` of the old one and the listener sees the states entered |
| AsyncConnection.S7BaseAsyncConnection.Stop | src/main/java/com/github/s7connector/impl/S7BaseAsyncConnection.java:99-128 | the new scheduling state is `AsyncLifecycle.Stop` of the old one |
| AsyncConnection.S7BaseAsyncConnection.Close | src/main/java/com/github/s7connector/impl/S7BaseAsyncConnection.java:131-143 | the new scheduling state is `AsyncLifecycle.Close` of the old one, including the nested `stop` |
| AsyncConnection.S7BaseAsyncConnection.SetPeriod | src/main/java/com/github/s7connector/impl/S7BaseAsyncConnection.java:75-83 | the period is stored when it is a different object, and the scheduling state follows `AsyncLifecycle.SetPeriod` |
| AsyncConnection.S7BaseAsyncConnection.SetPeriodCorrected | src/main/java/com/github/s7connector/impl/S7BaseAsyncConnection.java:75-83 | as `SetPeriod`, following the corrected transition |
| AsyncConnection.S7BaseAsyncConnection.ReschedulePoll | src/main/java/com/github/s7connector/impl/S7BaseAsyncConnection.java:79-80 | the held poll is cancelled and replaced by a new periodic poll |
| AsyncConnection.S7BaseAsyncConnection.AddItem | src/main/java/com/github/s7connector/impl/S7BaseAsyncConnection.java:146-148 | the item is registered with no error consumer |
| AsyncConnection.S7BaseAsyncConnection.AddItemWithErrorConsumer | src/main/java/com/github/s7connector/impl/S7BaseAsyncConnection.java:151-153 | the item is registered with the given error consumer |
| AsyncConnection.S7BaseAsyncConnection.RemoveItem | src/main/java/com/github/s7connector/impl/S7BaseAsyncConnection.java:156-158 | the item's entry is removed |
| AsyncConnection.S7BaseAsyncConnection.SetExceptionConsumer | src/main/java/com/github/s7connector/impl/S7BaseAsyncConnection.java:161-163 | the global consumer is set |
| AsyncConnection.S7BaseAsyncConnection.RemoveExceptionConsumer | src/main/java/com/github/s7connector/impl/S7BaseAsyncConnection.java:166-168 | the global consumer is cleared |
| AsyncConnection.S7BaseAsyncConnection.AddItemAt | src/main/java/com/github/s7connector/api/S7AsyncConnection.java:27-33 | the registry changes as the delegated `addItem` on the built key |
| AsyncConnection.S7BaseAsyncConnection.RemoveItemAt | src/main/java/com/github/s7connector/api/S7AsyncConnection.java:41-46 | the registry changes as the delegated `removeItem` on the built key |
| AsyncConnection.S7BaseAsyncConnection.Write | src/main/java/com/github/s7connector/impl/S7BaseAsyncConnection.java:171-200 | outside `Active` it throws and creates no future; otherwise it returns a new pending future whose task is the one write task queued |
| AsyncConnection.S7BaseAsyncConnection.WriteAt | src/main/java/com/github/s7connector/api/S7AsyncConnection.java:54-59 | `write` on the key whose byte count is the value's length |
| AsyncConnection.S7BaseAsyncConnection.CancelWrite | src/main/java/com/github/s7connector/impl/S7BaseAsyncConnection.java:173-183 | the future's cancel succeeds only if it was not completed; only then is its task cancelled, and the result is that task's cancel, so a successful cancel means the write never reaches the connector |
| AsyncConnection.S7BaseAsyncConnection.StartConnection | src/main/java/com/github/s7connector/impl/S7BaseAsyncConnection.java:206-216 | the factory is asked only when no connection is held; a held connection is never replaced |
| AsyncConnection.S7BaseAsyncConnection.CloseConnection | src/main/java/com/github/s7connector/impl/S7BaseAsyncConnection.java:218-229 | a held connection is closed once and forgotten; with none nothing is called; afterwards none is held |
| AsyncConnection.S7BaseAsyncConnection.CheckConnection | src/main/java/com/github/s7connector/impl/S7BaseAsyncConnection.java:231-243 | the action may run exactly when a connection was held or the factory produced one |
| AsyncConnection.S7BaseAsyncConnection.ReadItem | src/main/java/com/github/s7connector/impl/S7BaseAsyncConnection.java:270-295 | one item's lambda with the error flag clear, as `Cycles.ItemStep` for the full profile: bytes to the consumer, a protocol error to the item's error consumer if set, a connection-level failure to the global consumer if set, then the connection closed and the flag raised |
| AsyncConnection.S7BaseAsyncConnection.DoRead | src/main/java/com/github/s7connector/impl/S7BaseAsyncConnection.java:267-297 | the loop over the items produces exactly `Cycles.ReadCycle` for the full profile: its events, its calls, and the connection dropped when it closed |
| AsyncConnection.S7BaseAsyncConnection.Poll | src/main/java/com/github/s7connector/impl/S7BaseAsyncConnection.java:245-265 | events, calls and connection are those of `Cycles.Poll` for the full profile |
| AsyncConnection.S7BaseAsyncConnection.DoWrite | src/main/java/com/github/s7connector/impl/S7BaseAsyncConnection.java:299-311 | calls, connection and error are those of `Cycles.AttemptWrite`, with an IOException("Connection is broken") when no connection can be made |
| AsyncConnection.S7BaseAsyncConnection.RunPoll | src/main/java/com/github/s7connector/impl/S7BaseAsyncConnection.java:245-265 | a run of the periodic poll task leaves it scheduled (`AsyncLifecycle.RunTask`) and has the read cycle's effect on events, calls and connection |
| AsyncConnection.S7BaseAsyncConnection.Deactivate | src/main/java/com/github/s7connector/impl/S7BaseAsyncConnection.java:105-124 | the connection is closed, the scheduling state follows `AsyncLifecycle.RunTask`, and the listener sees the state entered |
| AsyncConnection.S7BaseAsyncConnection.RunWrite | src/main/java/com/github/s7connector/impl/S7BaseAsyncConnection.java:190-198 | the write is attempted and its future settled with the outcome |
| AsyncConnection.S7BaseAsyncConnection.RunTask | src/main/java/com/github/s7connector/impl/S7BaseAsyncConnection.java:245-265 | running a task is a poll, the deactivation or a write, each with the effect stated for it |
| AsyncScenarios.ReadScenario | src/test/java/com/github/s7connector/test/S7BaseAsyncConnectionTest.java:22-54 | after `start`, one poll connects, reads the item and hands `[0,1,0,1]` to its consumer |
| AsyncScenarios.WriteScenario | src/test/java/com/github/s7connector/test/S7BaseAsyncConnectionTest.java:57-90 | a write while `Active` calls the connector's write once with `(DB, 0, 1, [1,0,1,0])` and completes its future |
| AsyncScenarios.StartThriceScenario | src/test/java/com/github/s7connector/test/S7BaseAsyncConnectionTest.java:122-133 | three starts schedule one poll and report `Active` once; no connection is opened before the poll runs, which connects once |
| AsyncScenarios.StopScenario | src/test/java/com/github/s7connector/test/S7BaseAsyncConnectionTest.java:135-145 | `stop` and its deactivation end in `Idle` with exactly one connector close |
| AsyncScenarios.CloseFromIdleScenario | src/test/java/com/github/s7connector/test/S7BaseAsyncConnectionTest.java:149-165 | `close` from `Idle` shuts the executor down once |
| AsyncScenarios.CloseFromRunningScenario | src/test/java/com/github/s7connector/test/S7BaseAsyncConnectionTest.java:168-203 | `close` while running, then the deactivation: one connector close and one executor shutdown |
| AsyncScenarios.SetPeriodDuringStopScenario | src/main/java/com/github/s7connector/impl/S7BaseAsyncConnection.java:75-83 | as written: start, stop, setPeriod and the deactivation leave the poll on handle 2 live in `Idle`; a restart has polls 2 and 3 |
| AsyncScenarios.SetPeriodCorrectedDuringStopScenario | src/main/java/com/github/s7connector/impl/S7BaseAsyncConnection.java:75-83 | corrected: the same sequence leaves no poll in `Idle` and one after the restart |
| HolderLifecycle.Start | src/main/java/com/github/s7connector/impl/S7BaseConnectionHolder.java:59-66 | `start` after shutdown throws "Endpoint is closed"; with a `job` held it does nothing |
| HolderLifecycle.Write | src/main/java/com/github/s7connector/impl/S7BaseConnectionHolder.java:94-102 | `write` with no `job` throws "Endpoint not started" and changes nothing |
| HolderLifecycle.Close | src/main/java/com/github/s7connector/impl/S7BaseConnectionHolder.java:105-112 | `close` shuts a running executor down once and forgets `job`; otherwise it does nothing |
| HolderLifecycle.SetPeriod | src/main/java/com/github/s7connector/impl/S7BaseConnectionHolder.java:48-56 | nothing happens unless the period object differs and a `job` is held |
| HolderLifecycle.RunTask | src/main/java/com/github/s7connector/impl/S7BaseConnectionHolder.java:158-167 | running a task never changes `job` and throws nothing to a caller |
| HolderLifecycle.CancelWrite | src/main/java/com/github/s7connector/impl/S7BaseConnectionHolder.java:98-101 | cancelling a pending write task removes it |
| HolderLifecycle.Apply | src/main/java/com/github/s7connector/impl/S7BaseConnectionHolder.java:48-112 | every call keeps the executor well formed |
| HolderLifecycle.Run | src/main/java/com/github/s7connector/impl/S7BaseConnectionHolder.java:48-112 | every run keeps the executor well formed |
| HolderLifecycle.InitialConsistent | src/main/java/com/github/s7connector/impl/S7BaseConnectionHolder.java:42 | a new holder satisfies the invariant |
| HolderLifecycle.StepKeepsConsistent | src/main/java/com/github/s7connector/impl/S7BaseConnectionHolder.java:48-112 | every call keeps the invariant; the only exceptions are `start` after `close` and `write` before `start` |
| HolderLifecycle.RunKeepsConsistent | src/main/java/com/github/s7connector/impl/S7BaseConnectionHolder.java:105-112 | over any run the invariant holds and the executor is shut down at most once |
| HolderLifecycle.StartIsIdempotent | src/main/java/com/github/s7connector/impl/S7BaseConnectionHolder.java:59-66 | `start` schedules one poll; a second `start` changes nothing |
| HolderLifecycle.CloseIsFinal | src/main/java/com/github/s7connector/impl/S7BaseConnectionHolder.java:105-112 | `close` shuts down once and leaves no poll; a second `close` changes nothing and a later `start` throws "Endpoint is closed" |
| HolderLifecycle.WriteWhenStarted | src/main/java/com/github/s7connector/impl/S7BaseConnectionHolder.java:94-102 | with a `job` held, `write` queues exactly one one-shot write task under a fresh handle |
| HolderLifecycle.PollFailureStopsPolling | src/main/java/com/github/s7connector/impl/S7BaseConnectionHolder.java:144-167 | a poll that throws is dropped while `job` still names it, so no poll is pending and `start` does nothing; only a `setPeriod` with a new period reschedules |
| ConnectionHolder.S7BaseConnectionHolder.constructor | src/main/java/com/github/s7connector/impl/S7BaseConnectionHolder.java:32-42 | period one second, empty registry, no connection, no consumer, no `job` |
| ConnectionHolder.S7BaseConnectionHolder.SetPeriod | src/main/java/com/github/s7connector/impl/S7BaseConnectionHolder.java:48-56 | the period is stored when it is a different object; the scheduling state follows `HolderLifecycle.SetPeriod` |
| ConnectionHolder.S7BaseConnectionHolder.Start | src/main/java/com/github/s7connector/impl/S7BaseConnectionHolder.java:59-66 | the scheduling state and exception follow `HolderLifecycle.Start` |
| ConnectionHolder.S7BaseConnectionHolder.AddItem | src/main/java/com/github/s7connector/impl/S7BaseConnectionHolder.java:69-71 | the item is registered with no error consumer |
| ConnectionHolder.S7BaseConnectionHolder.AddItemWithErrorConsumer | src/main/java/com/github/s7connector/impl/S7BaseConnectionHolder.java:74-76 | the item is registered with the given error consumer |
| ConnectionHolder.S7BaseConnectionHolder.RemoveItem | src/main/java/com/github/s7connector/impl/S7BaseConnectionHolder.java:79-81 | the item's entry is removed |
| ConnectionHolder.S7BaseConnectionHolder.SetExceptionConsumer | src/main/java/com/github/s7connector/impl/S7BaseConnectionHolder.java:84-86 | the global consumer is set |
| ConnectionHolder.S7BaseConnectionHolder.RemoveExceptionConsumer | src/main/java/com/github/s7connector/impl/S7BaseConnectionHolder.java:89-91 | the global consumer is cleared |
| ConnectionHolder.S7BaseConnectionHolder.AddItemAt | src/main/java/com/github/s7connector/api/S7Endpoint.java:13-19 | the registry changes as the delegated `addItem` on the built key |
| ConnectionHolder.S7BaseConnectionHolder.RemoveItemAt | src/main/java/com/github/s7connector/api/S7Endpoint.java:27-32 | the registry changes as the delegated `removeItem` on the built key |
| ConnectionHolder.S7BaseConnectionHolder.Write | src/main/java/com/github/s7connector/impl/S7BaseConnectionHolder.java:94-102 | without `job` it throws and returns no future; otherwise the future is the one write task queued |
| ConnectionHolder.S7BaseConnectionHolder.WriteAt | src/main/java/com/github/s7connector/api/S7Endpoint.java:40-45 | `write` on the key whose byte count is the value's length |
| ConnectionHolder.S7BaseConnectionHolder.CancelWrite | src/main/java/com/github/s7connector/impl/S7BaseConnectionHolder.java:98-101 | cancel succeeds exactly when the write task is still pending, and then the write never runs |
| ConnectionHolder.S7BaseConnectionHolder.Close | src/main/java/com/github/s7connector/impl/S7BaseConnectionHolder.java:105-112 | the scheduling state follows `HolderLifecycle.Close` |
| ConnectionHolder.S7BaseConnectionHolder.StartConnection | src/main/java/com/github/s7connector/impl/S7BaseConnectionHolder.java:118-129 | the factory is asked only when no connection is held |
| ConnectionHolder.S7BaseConnectionHolder.CloseConnection | src/main/java/com/github/s7connector/impl/S7BaseConnectionHolder.java:131-142 | idempotent: a held connection is closed once and forgotten; afterwards none is held |
| ConnectionHolder.S7BaseConnectionHolder.CheckConnection | src/main/java/com/github/s7connector/impl/S7BaseConnectionHolder.java:144-156 | the action may run exactly when a connection was held or the factory produced one |
| ConnectionHolder.S7BaseConnectionHolder.ReadItem | src/main/java/com/github/s7connector/impl/S7BaseConnectionHolder.java:172-185 | one item's lambda, as `Cycles.ItemStep` for the simplified profile, including the NullPointerException of a missing consumer |
| ConnectionHolder.S7BaseConnectionHolder.DoRead | src/main/java/com/github/s7connector/impl/S7BaseConnectionHolder.java:169-187 | the loop over the items produces exactly `Cycles.ReadCycle` for the simplified profile |
| ConnectionHolder.S7BaseConnectionHolder.Poll | src/main/java/com/github/s7connector/impl/S7BaseConnectionHolder.java:158-167 | events, calls, connection and whether it threw are those of `Cycles.Poll` for the simplified profile |
| ConnectionHolder.S7BaseConnectionHolder.DoWrite | src/main/java/com/github/s7connector/impl/S7BaseConnectionHolder.java:189-201 | calls, connection and error are those of `Cycles.AttemptWrite`, with a RuntimeException("Connection is broken") when no connection can be made |
| ConnectionHolder.S7BaseConnectionHolder.RunTask | src/main/java/com/github/s7connector/impl/S7BaseConnectionHolder.java:158-167 | a poll that throws is dropped by the executor; a write settles its future with the outcome |
| EndpointPools.KeyEquals | src/main/java/com/github/s7connector/impl/S7TCPAsyncConnectionPool.java:50-60 | no contract of its own; stated by `EndpointPools.KeyEqualsIsFieldEquality` |
| EndpointPools.KeyHashCode | src/main/java/com/github/s7connector/impl/S7TCPAsyncConnectionPool.java:62-65 | no contract of its own; stated by `EndpointPools.EqualPoolKeysHashEqual` |
| EndpointPools.KeyEqualsIsFieldEquality | src/main/java/com/github/s7connector/impl/S7TCPAsyncConnectionPool.java:50-60 | `Key.equals` holds exactly when the argument is a Key with the same host, controller type, rack, slot and port |
| EndpointPools.EqualPoolKeysHashEqual | src/main/java/com/github/s7connector/impl/S7TCPAsyncConnectionPool.java:62-65 | equal Keys have equal `hashCode` |
| EndpointPools.EndpointKey.constructor | src/main/java/com/github/s7connector/api/EndpointKey.java:13-20 | the five fields are kept and the period is 500 ms |
| EndpointPools.EndpointKey.WithTimings | src/main/java/com/github/s7connector/api/EndpointKey.java:22-29 | the five fields and the given period are kept |
| EndpointPools.PooledEndpoint.constructor | src/main/java/com/github/s7connector/impl/S7TCPAsyncConnectionPool.java:79 | a new endpoint for the key, not yet closed |
| EndpointPools.PooledEndpoint.Close | src/main/java/com/github/s7connector/impl/S7TCPAsyncConnectionPool.java:89 | `close` is counted |
| EndpointPools.RefCountPool.constructor | src/main/java/com/github/s7connector/impl/S7TCPAsyncConnectionPool.java:69-70 | both maps start empty |
| EndpointPools.RefCountPool.Acquire | src/main/java/com/github/s7connector/impl/S7TCPAsyncConnectionPool.java:72-83 | a pooled key returns the stored endpoint and increments its counter, or fails with a NullPointerException when it has none; an absent key gets one new endpoint stored without a counter |
| EndpointPools.RefCountPool.AcquireCorrected | src/main/java/com/github/s7connector/impl/S7TCPAsyncConnectionPool.java:72-83 | as `Acquire`, but a new key's counter starts at 1, so every pooled key has a positive counter |
| EndpointPools.RefCountPool.Release | src/main/java/com/github/s7connector/impl/S7TCPAsyncConnectionPool.java:85-97 | an unknown key is a no-op; a missing counter is a NullPointerException; reaching 0 closes that endpoint once and removes the key from both maps; otherwise only the counter changes |
| PoolScenarios.AsWrittenSecondAcquireFails | src/main/java/com/github/s7connector/impl/S7TCPAsyncConnectionPool.java:72-87 | as written, the second acquire of a key and its release both fail on the missing counter |
| PoolScenarios.SharedEndpointClosedOnce | src/main/java/com/github/s7connector/impl/S7TCPAsyncConnectionPool.java:72-97 | corrected: two acquires share one endpoint, the first release keeps it open and the second closes it exactly once, leaving the pool empty |
| PoolScenarios.EqualFieldKeysAreDistinct | src/main/java/com/github/s7connector/impl/S7TCPEndpointPool.java:16-17 | two EndpointKeys with identical fields get two distinct endpoints |
| PoolScenarios.ReleaseUnknownIsNoOp | src/main/java/com/github/s7connector/impl/S7TCPAsyncConnectionPool.java:86 | releasing a key that is not pooled throws nothing and closes nothing |

## Left out

- Concurrency: `synchronized`, `connectionLock`, `volatile`, the thread safety of `ConcurrentHashMap` and the atomicity of `AtomicInteger`. The model is one sequential interleaving in which the caller chooses when a queued task runs.
- Timing: the initial delay and the period of `scheduleAtFixedRate`, and `Duration.toMillis`. A period is an object compared by reference, as `setPeriod` does.
- `mayInterruptIfRunning`: a task is cancelled only while pending, so interruption never arises.
- The TCP subclasses (`S7TCPAsyncConnection`, `S7TCPConnectionHolder`) only supply the executor and the socket connector. They are the connect factory `Plc.connect`.
- `S7TCPEndpoint` is not part of this model. The pool treats the endpoint as an opaque object whose `close` is counted.
- `S7EndpointPool` is a two-method interface with no logic. `EndpointKey`'s getters are not modelled separately; the key is a class with constant fields.
- Logging (slf4j), and what `Nodave.strerror` returns. A code-carrying exception's message is an abstract `NodaveError(code)`.
- `RESULT_OK`'s concrete value is a constant of the model.
- Consumers and listeners that throw: every callback returns normally. The `try`/`catch` around the consumers in `S7BaseAsyncConnection` therefore has no effect in the model.
- An exception thrown by the connector's `close` is only logged in the source. The model's close always succeeds, with the same effect: the connection is forgotten.
- Null keys, null item consumers and a null host. The hash of an enumeration constant is a parameter.
- Strings are sequences of Unicode scalar values, not of UTF-16 code units. `JavaHash.StringHash` therefore agrees with `String.hashCode` only for characters in the Basic Multilingual Plane; a character outside it is one code unit in the model instead of a surrogate pair.
- Aliasing of the written array: Java's `write` captures the caller's `byte[]` in the queued task, which reads it only when it runs (`S7BaseAsyncConnection.java:190-192`, `S7BaseConnectionHolder.java:98-100`), so a caller who changes the array before then changes what is written. The model copies the value into the `WriteJob` as an immutable sequence when the write is queued.
- `RejectedExecutionException` is modelled. From a consistent state no submission is rejected (`AsyncLifecycle.StepKeepsConsistent`), so its branches are never reached.
- ConnectionHolder.S7BaseConnectionHolder.RunTask: requires that the task is not a deactivation task. The holder never queues one (`HolderLifecycle.Consistent`).
- `getState`, `getStateListener` and `getPeriod` are field reads. They are not separate members.

## Findings

| source | as written | input that shows it | evidently intended | confidence | as-written member | corrected member |
|---|---|---|---|---|---|---|
| src/main/java/com/github/s7connector/impl/S7BaseAsyncConnection.java:75-83 | `setPeriod` reschedules whenever a poll handle is held, even while a deactivation is pending; the deactivation then forgets `pollJob` without cancelling the new poll | `start`, `stop`, `setPeriod(new Duration)`, run the deactivation: `Idle` with a periodic poll still scheduled; a later `start` runs two polls | reschedule only a live poll (no deactivation pending), so at most one poll exists and none in `Idle` | not executed | AsyncLifecycle.OrphanPollAfterSetPeriod | AsyncLifecycle.CorrectedRunsKeepOnePoll |
| src/main/java/com/github/s7connector/impl/S7TCPAsyncConnectionPool.java:72-83 | `acquireEndpoint` stores a new endpoint but never puts a counter into `acquires`; the same holds in src/main/java/com/github/s7connector/impl/S7TCPEndpointPool.java:20-31 | acquire a key twice, or acquire then release it: `acquires.get(key)` is null and the call throws NullPointerException | a new key starts with counter 1, so the endpoint is shared and closed by the last release | not executed | PoolScenarios.AsWrittenSecondAcquireFails | EndpointPools.RefCountPool.AcquireCorrected |
