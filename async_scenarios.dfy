/**
 * The unit scenarios of `S7BaseAsyncConnection`, replayed on the model
 * with a controller that always connects (as connector 7), answers every
 * read with `[0, 1, 0, 1]` and accepts every write.
 */
module AsyncScenarios {
  import opened Wrappers
  import opened JavaHash
  import opened ItemKeys
  import opened S7Exceptions
  import opened Connector
  import opened Api
  import opened Scheduling
  import opened AsyncConnection
  import opened Cycles
  import L = AsyncLifecycle

  /** Stands for `DaveArea.DB`. */
  const DB: Area := Area(0)

  const LINK: ConnId := 7

  function Controller(): Plc
  {
    Plc(Some(LINK), _ => Bytes([0, 1, 0, 1]), (_, _, _, _) => Written)
  }

  /** A new connection after one `start`: `Active`, polling on handle 0. */
  const Started: L.Lifecycle := L.Lifecycle(Active, Some(0), None, false, Executor(map[0 := Task(PollJob, true)], false, 0, 1))

  /** A new connection with state listener `listener` after one `start`. */
  method StartedWith(listener: Option<ConsumerId>) returns (c: S7BaseAsyncConnection)
    ensures fresh(c) && c.Valid() && c.Life() == Started
    ensures c.items == map[] && c.connection.None? && c.exceptionConsumer.None? && c.stateConsumer == listener
    ensures c.calls == [] && c.events == Notices(listener, [Active]) && c.futures == map[] && c.nextFuture == 0
  {
    c := new S7BaseAsyncConnection();
    c.SetStateListener(listener);
    var thrown := c.Start();
    assert L.Start(L.Initial) == L.Transition(Started, [Active], None);
  }

  /** The first poll of a started connection with no items: it connects and reports nothing. */
  method FirstPoll(c: S7BaseAsyncConnection)
    requires c.Valid() && c.Life() == Started
    requires c.items == map[] && c.connection.None? && c.exceptionConsumer.None?
    modifies c
    ensures c.Valid() && c.Life() == Started && c.stateConsumer == old(c.stateConsumer)
    ensures c.connection == Some(LINK) && c.calls == old(c.calls) + [Connect] && c.events == old(c.events)
  {
    assert L.RunTask(Started, 0) == L.Unchanged(Started);
    assert Cycles.Poll(Full, None, Controller(), map[], [], None) == PollResult(Some(LINK), [Connect], [], false);
    c.RunPoll(0, Controller(), []);
  }

  /** A started connection polls its one item and hands the bytes read to the item's consumer. */
  method ReadScenario() returns (events: seq<Event>, calls: seq<ConnectorCall>)
    ensures events == [Delivered(1, [0, 1, 0, 1])]
    ensures calls == [Connect, Read(LINK, ItemKey(DB, 0, 0, 0))]
  {
    var c := StartedWith(None);
    c.AddItemAt(DB, 0, 0, 0, 1);
    var key := ItemKey(DB, 0, 0, 0);
    assert c.items == map[key := Processor(1, None)];
    CycleWithoutStop(Full, [key], c.items, LINK, Controller().read, None);
    assert [key][..0] == [];
    assert L.RunTask(Started, 0) == L.Unchanged(Started);
    c.RunPoll(0, Controller(), [key]);
    events, calls := c.events, c.calls;
  }

  /** A write queued while `Active` reaches the connector once with the key's fields and the value, and completes its future. */
  method WriteScenario() returns (calls: seq<ConnectorCall>, status: FutureStatus)
    ensures calls == [Connect, Write(LINK, DB, 0, 1, [1, 0, 1, 0])]
    ensures status == Completed
  {
    var c := StartedWith(None);
    var f, _ := c.WriteAt(DB, 0, 1, [1, 0, 1, 0]);
    var key := ItemKey(DB, 0, 4, 1);
    assert f == Some(0) && c.executor.pending[1] == Task(WriteJob(key, [1, 0, 1, 0], 0), false);
    assert c.futures[0] == WriteFuture(Pending, Some(1)) && c.connection.None?;
    assert AttemptWrite(None, Controller(), key, [1, 0, 1, 0], Io(IoFailure(BROKEN)))
        == WriteAttempt(Some(LINK), [Connect, ConnectorCall.Write(LINK, DB, 0, 1, [1, 0, 1, 0])], None);
    c.RunWrite(1, Controller());
    calls, status := c.calls, c.futures[f.value].status;
  }

  /** After `stop` on `Started`: the poll cancelled, the deactivation queued on handle 1. */
  const Stopping: L.Lifecycle := L.Lifecycle(Active, Some(0), Some(1), false, Executor(map[1 := Task(DeactivateJob, false)], false, 0, 2))

  /** After the deactivation queued by `stop` has run. */
  const Idled: L.Lifecycle := L.Lifecycle(Idle, None, None, false, Executor(map[], false, 0, 2))

  /** After `close` on `Started`: `Closed` at once, the deactivation still queued. */
  const Closing: L.Lifecycle := Stopping.(state := Closed, closeFlag := true)

  /** After the deactivation queued by `close` has run: the executor shut down once. */
  const ClosedDown: L.Lifecycle := L.Lifecycle(Closed, None, None, true, Executor(map[], true, 1, 2))

  /**
   * Three `start`s schedule one poll, report `Active` once and open no
   * connection; the first poll connects and the state stays `Active`.
   */
  method StartThriceScenario() returns (polls: set<Handle>, callsBeforePoll: seq<ConnectorCall>,
                                        calls: seq<ConnectorCall>, events: seq<Event>, state: State)
    ensures polls == {0}
    ensures callsBeforePoll == []
    ensures calls == [Connect]
    ensures events == [StateChanged(5, Active)]
    ensures state == Active
  {
    var c := StartedWith(Some(5));
    assert L.Start(Started) == L.Unchanged(Started);
    var thrown := c.Start();
    assert c.Life() == Started;
    thrown := c.Start();
    assert c.Life() == Started;
    L.PeriodicHandlesOfPolls(Started.exec, {0});
    polls, callsBeforePoll := PeriodicHandles(c.executor), c.calls;
    FirstPoll(c);
    calls, events, state := c.calls, c.events, c.state;
  }

  /**
   * `stop` after a poll: its deactivation task closes the connector once
   * and ends in `Idle`; the listener sees `Active` then `Idle`.
   */
  method StopScenario() returns (calls: seq<ConnectorCall>, events: seq<Event>, state: State)
    ensures calls == [Connect, Close(LINK)]
    ensures events == [StateChanged(5, Active), StateChanged(5, Idle)]
    ensures state == Idle
  {
    var c := StartedWith(Some(5));
    FirstPoll(c);
    var thrown := c.Stop();
    assert L.Stop(Started) == L.Transition(Stopping, [], None);
    assert c.Life() == Stopping;
    assert L.RunTask(Stopping, 1) == L.Transition(Idled, [Idle], None);
    c.Deactivate(1);
    calls, events, state := c.calls, c.events, c.state;
  }

  /** `close` from `Idle` shuts the executor down once. */
  method CloseFromIdleScenario() returns (shutdowns: nat, state: State)
    ensures shutdowns == 1 && state == Closed
  {
    var c := new S7BaseAsyncConnection();
    var thrown := c.Close();
    shutdowns, state := c.executor.shutdownCalls, c.state;
  }

  /** `close` while running: the deactivation task closes the connector once and shuts the executor down once. */
  method CloseFromRunningScenario() returns (calls: seq<ConnectorCall>, shutdowns: nat, state: State)
    ensures calls == [Connect, Close(LINK)]
    ensures shutdowns == 1 && state == Closed
  {
    var c := StartedWith(None);
    FirstPoll(c);
    var thrown := c.Close();
    assert L.Close(Started) == L.Transition(Closing, [Closed], None);
    assert c.Life() == Closing;
    assert L.RunTask(Closing, 1) == L.Transition(ClosedDown, [Closed], None);
    c.Deactivate(1);
    calls, shutdowns, state := c.calls, c.executor.shutdownCalls, c.state;
  }

  /** `Stopping` after the as-written `setPeriod` rescheduled the poll on handle 2. */
  const Rescheduled: L.Lifecycle := Stopping.(pollJob := Some(2), exec := Executor(map[1 := Task(DeactivateJob, false), 2 := Task(PollJob, true)], false, 0, 3))

  /** `Idle` with the rescheduled poll still pending. */
  const Orphaned: L.Lifecycle := L.Lifecycle(Idle, None, None, false, Executor(map[2 := Task(PollJob, true)], false, 0, 3))

  /** The transitions the two `setPeriod` scenarios go through. */
  lemma SetPeriodDuringStopSteps()
    ensures L.Stop(Started) == L.Transition(Stopping, [], None)
    ensures L.SetPeriod(Stopping, true) == L.Transition(Rescheduled, [], None)
    ensures L.SetPeriodCorrected(Stopping, true) == L.Transition(Stopping, [], None)
    ensures L.RunTask(Rescheduled, 1) == L.Transition(Orphaned, [Idle], None)
    ensures L.Start(Orphaned).next.exec == Executor(map[2 := Task(PollJob, true), 3 := Task(PollJob, true)], false, 0, 4)
    ensures PeriodicHandles(Orphaned.exec) == {2}
    ensures PeriodicHandles(L.Start(Orphaned).next.exec) == {2, 3}
  {
    L.PeriodicHandlesOfPolls(Orphaned.exec, {2});
    L.PeriodicHandlesOfPolls(L.Start(Orphaned).next.exec, {2, 3});
  }

  /**
   * `setPeriod` with a new `Duration` while the deactivation is pending, as
   * written: a poll outlives `stop`, and a later `start` runs two polls.
   */
  method SetPeriodDuringStopScenario() returns (idlePolls: set<Handle>, restartedPolls: set<Handle>)
    ensures idlePolls == {2} && restartedPolls == {2, 3}
  {
    SetPeriodDuringStopSteps();
    var c := StartedWith(None);
    var thrown := c.Stop();
    assert c.Life() == Stopping;
    var d := new Duration(2000);
    thrown := c.SetPeriod(d);
    assert c.Life() == Rescheduled;
    c.Deactivate(1);
    assert c.Life() == Orphaned;
    idlePolls := PeriodicHandles(c.executor);
    thrown := c.Start();
    assert c.executor == L.Start(Orphaned).next.exec;
    restartedPolls := PeriodicHandles(c.executor);
  }

  /** The same calls with the corrected `setPeriod`: one poll after the restart. */
  method SetPeriodCorrectedDuringStopScenario() returns (idlePolls: set<Handle>, restartedPolls: set<Handle>)
    ensures idlePolls == {} && restartedPolls == {2}
  {
    var c := StartedWith(None);
    var thrown := c.Stop();
    assert c.Life() == Stopping;
    var d := new Duration(2000);
    thrown := c.SetPeriodCorrected(d);
    assert c.Life() == Stopping;
    c.Deactivate(1);
    assert c.Life() == L.Lifecycle(Idle, None, None, false, Executor(map[], false, 0, 2));
    L.PeriodicHandlesOfPolls(c.executor, {});
    idlePolls := PeriodicHandles(c.executor);
    thrown := c.Start();
    assert c.executor == Executor(map[2 := Task(PollJob, true)], false, 0, 3);
    L.PeriodicHandlesOfPolls(c.executor, {2});
    restartedPolls := PeriodicHandles(c.executor);
  }
}
