/**
 * `S7BaseAsyncConnection`: an item registry polled on a single-thread
 * scheduled executor, with the connection state machine of
 * `AsyncLifecycle`, a lazily opened controller connection, and writes
 * queued as tasks behind cancellable futures.
 */
module AsyncConnection {
  import opened Wrappers
  import opened JavaHash
  import opened ItemKeys
  import opened S7Exceptions
  import opened Connector
  import opened Api
  import opened Scheduling
  import opened Cycles
  import L = AsyncLifecycle

  /** A write future: its status and the handle of its queued task (`fRef`). */
  datatype WriteFuture = WriteFuture(status: FutureStatus, task: Option<Handle>)

  /** The state listener's invocations for the states entered, in order. */
  function Notices(listener: Option<ConsumerId>, entered: seq<State>): (r: seq<Event>)
    ensures listener.None? ==> r == []
    ensures listener.Some? ==> |r| == |entered| && forall i :: 0 <= i < |r| ==> r[i] == StateChanged(listener.value, entered[i])
  {
    if listener.None? then []
    else seq(|entered|, i requires 0 <= i < |entered| => StateChanged(listener.value, entered[i]))
  }

  /**
   * What a future becomes when its task finishes: `complete` and
   * `completeExceptionally` change only a future still pending.
   */
  function Settle(w: WriteFuture, error: Option<Thrown>): (r: WriteFuture)
    ensures r.task == w.task
    ensures !w.status.Pending? ==> r == w
    ensures w.status.Pending? ==> (r.status.Completed? <==> error.None?) && (error.Some? ==> r.status == Failed(error.value))
  {
    if !w.status.Pending? then w
    else if error.None? then w.(status := Completed)
    else w.(status := Failed(error.value))
  }

  class S7BaseAsyncConnection {
    var period: Duration
    var items: Registry
    var exceptionConsumer: Option<ConsumerId>
    var connection: Option<ConnId>
    var pollJob: Option<Handle>
    var deactivateJob: Option<Handle>
    var state: State
    var stateConsumer: Option<ConsumerId>
    var closeFlag: bool
    /** The executor `getExecutor()` returns. */
    var executor: Executor
    /** The write futures handed out so far. */
    var futures: map<FutureId, WriteFuture>
    var nextFuture: FutureId
    /** Invocations of the caller's consumers and listener, in order. */
    var events: seq<Event>
    /** Calls made on the connect factory and on connectors, in order. */
    var calls: seq<ConnectorCall>

    /** The scheduling part of the state. */
    function Life(): L.Lifecycle
      reads this
    {
      L.Lifecycle(state, pollJob, deactivateJob, closeFlag, executor)
    }

    /** Handles are issued in order, and every queued write has its future. */
    ghost predicate Valid()
      reads this
    {
      && executor.Valid()
      && (forall f :: f in futures ==> f < nextFuture)
      && (forall h :: h in executor.pending && executor.pending[h].job.WriteJob? ==> executor.pending[h].job.future in futures)
    }

    constructor()
      ensures Valid() && Life() == L.Initial
      ensures items == map[] && connection.None? && exceptionConsumer.None? && stateConsumer.None?
      ensures futures == map[] && nextFuture == 0 && events == [] && calls == [] && period.millis == 1000
    {
      period := new Duration(1000);
      items := map[];
      exceptionConsumer := None;
      connection := None;
      pollJob := None;
      deactivateJob := None;
      state := Idle;
      stateConsumer := None;
      closeFlag := false;
      executor := Fresh;
      futures := map[];
      nextFuture := 0;
      events := [];
      calls := [];
    }

    /** `setState`: record the state and tell the listener, if one is set. */
    method SetState(s: State)
      modifies this`state, this`events
      ensures state == s && events == old(events) + Notices(stateConsumer, [s])
    {
      state := s;
      if stateConsumer.Some? {
        events := events + [StateChanged(stateConsumer.value, s)];
      }
    }

    method SetStateListener(listener: Option<ConsumerId>)
      modifies this`stateConsumer
      ensures stateConsumer == listener
    {
      stateConsumer := listener;
    }

    method Start() returns (thrown: Option<Thrown>)
      requires Valid()
      modifies this`state, this`events, this`deactivateJob, this`pollJob, this`executor
      ensures Valid()
      ensures var t := L.Start(old(Life()));
        Life() == t.next && thrown == t.thrown && events == old(events) + Notices(stateConsumer, t.entered)
    {
      thrown := None;
      if state == Idle {
        SetState(Active);
        if deactivateJob.Some? {
          var c := executor.Cancel(deactivateJob.value);
          executor := c.0;
          deactivateJob := None;
        }
        var s := executor.Submit(PollJob, true);
        if s.Rejected? {
          thrown := Some(RejectedExecution);
          return;
        }
        executor := s.exec;
        pollJob := Some(s.handle);
      }
    }

    method Stop() returns (thrown: Option<Thrown>)
      requires Valid()
      modifies this`state, this`events, this`deactivateJob, this`executor
      ensures Valid()
      ensures var t := L.Stop(old(Life()));
        Life() == t.next && thrown == t.thrown && events == old(events) + Notices(stateConsumer, t.entered)
    {
      thrown := None;
      if state == Active && deactivateJob.None? {
        if pollJob.Some? {
          var c := executor.Cancel(pollJob.value);
          executor := c.0;
          var s := executor.Submit(DeactivateJob, false);
          if s.Rejected? {
            thrown := Some(RejectedExecution);
            return;
          }
          executor := s.exec;
          deactivateJob := Some(s.handle);
        } else {
          SetState(Idle);
        }
      }
    }

    method Close() returns (thrown: Option<Thrown>)
      requires Valid()
      modifies this`state, this`events, this`deactivateJob, this`executor, this`closeFlag
      ensures Valid()
      ensures var t := L.Close(old(Life()));
        Life() == t.next && thrown == t.thrown && events == old(events) + Notices(stateConsumer, t.entered)
    {
      thrown := None;
      if state != Closed {
        if state == Active {
          thrown := Stop();
          if thrown.Some? {
            return;
          }
        }
        if deactivateJob.None? {
          executor := executor.Shutdown();
        } else {
          closeFlag := true;
        }
        SetState(Closed);
      }
    }

    /** `setPeriod` as written; see `SetPeriodCorrected`. */
    method SetPeriod(p: Duration) returns (thrown: Option<Thrown>)
      requires Valid()
      modifies this`period, this`pollJob, this`executor
      ensures Valid()
      ensures old(period) != p ==> period == p
      ensures old(period) == p ==> period == old(period)
      ensures var t := L.SetPeriod(old(Life()), old(period) != p);
        Life() == t.next && thrown == t.thrown
    {
      thrown := None;
      if period != p {
        period := p;
        if pollJob.Some? {
          thrown := ReschedulePoll();
        }
      }
    }

    /** `setPeriod` rescheduling only a live poll (no deactivation pending). */
    method SetPeriodCorrected(p: Duration) returns (thrown: Option<Thrown>)
      requires Valid()
      modifies this`period, this`pollJob, this`executor
      ensures Valid()
      ensures old(period) != p ==> period == p
      ensures old(period) == p ==> period == old(period)
      ensures var t := L.SetPeriodCorrected(old(Life()), old(period) != p);
        Life() == t.next && thrown == t.thrown
    {
      thrown := None;
      if period != p {
        period := p;
        if pollJob.Some? && deactivateJob.None? {
          thrown := ReschedulePoll();
        }
      }
    }

    method ReschedulePoll() returns (thrown: Option<Thrown>)
      requires Valid() && pollJob.Some?
      modifies this`pollJob, this`executor
      ensures Valid()
      ensures var t := L.Reschedule(old(Life()));
        Life() == t.next && thrown == t.thrown
    {
      thrown := None;
      var c := executor.Cancel(pollJob.value);
      executor := c.0;
      var s := executor.Submit(PollJob, true);
      if s.Rejected? {
        thrown := Some(RejectedExecution);
        return;
      }
      executor := s.exec;
      pollJob := Some(s.handle);
    }

    /** `addItem(key, consumer)`: registers the item with no error consumer. */
    method AddItem(key: ItemKey, consumer: ConsumerId)
      modifies this`items
      ensures items == Register(old(items), key, Processor(consumer, None))
    {
      items := items[key := Processor(consumer, None)];
    }

    /** `addItem(key, consumer, exceptionConsumer)`. */
    method AddItemWithErrorConsumer(key: ItemKey, consumer: ConsumerId, errorConsumer: Option<ConsumerId>)
      modifies this`items
      ensures items == Register(old(items), key, Processor(consumer, errorConsumer))
    {
      items := items[key := Processor(consumer, errorConsumer)];
    }

    method RemoveItem(key: ItemKey)
      modifies this`items
      ensures items == Unregister(old(items), key)
    {
      items := items - {key};
    }

    method SetExceptionConsumer(consumer: ConsumerId)
      modifies this`exceptionConsumer
      ensures exceptionConsumer == Some(consumer)
    {
      exceptionConsumer := Some(consumer);
    }

    method RemoveExceptionConsumer()
      modifies this`exceptionConsumer
      ensures exceptionConsumer.None?
    {
      exceptionConsumer := None;
    }

    /** `addItem(area, areaNumber, bytes, offset, consumer)`, the interface's default method. */
    method AddItemAt(area: Area, areaNumber: Int32, bytes: Int32, offset: Int32, consumer: ConsumerId)
      modifies this`items
      ensures items == ApplyToRegistry(old(items), DefaultAddItem(area, areaNumber, bytes, offset, consumer))
    {
      var c := DefaultAddItem(area, areaNumber, bytes, offset, consumer);
      AddItem(c.key, c.consumer);
    }

    /** `removeItem(area, areaNumber, bytes, offset)`, the interface's default method. */
    method RemoveItemAt(area: Area, areaNumber: Int32, bytes: Int32, offset: Int32)
      modifies this`items
      ensures items == ApplyToRegistry(old(items), DefaultRemoveItem(area, areaNumber, bytes, offset))
    {
      var c := DefaultRemoveItem(area, areaNumber, bytes, offset);
      RemoveItem(c.key);
    }

    /**
     * `write(key, value)`: outside `Active` an IllegalStateException and
     * nothing queued; otherwise a new pending future whose task is the one
     * write task queued.
     */
    method Write(key: ItemKey, value: ByteArray) returns (future: Option<FutureId>, thrown: Option<Thrown>)
      requires Valid()
      modifies this`executor, this`futures, this`nextFuture
      ensures Valid()
      ensures var t := L.Write(old(Life()), key, value, old(nextFuture));
        Life() == t.next && thrown == t.thrown
      ensures future.Some? <==> thrown.None?
      ensures future.Some? ==>
        && future.value == old(nextFuture) && future.value !in old(futures)
        && futures == old(futures)[future.value := WriteFuture(Pending, Some(old(executor.nextHandle)))]
        && executor.pending[old(executor.nextHandle)] == Task(WriteJob(key, value, future.value), false)
      ensures future.None? ==> futures == old(futures)
    {
      future := None;
      if state != Active {
        thrown := Some(IllegalState(L.NOT_ACTIVE));
        return;
      }
      var f := nextFuture;
      var s := executor.Submit(WriteJob(key, value, f), false);
      if s.Rejected? {
        thrown := Some(RejectedExecution);
        return;
      }
      thrown := None;
      executor := s.exec;
      futures := futures[f := WriteFuture(Pending, Some(s.handle))];
      nextFuture := nextFuture + 1;
      future := Some(f);
    }

    /** `write(area, areaNumber, offset, value)`, the interface's default method: `write` on the key covering `value`. */
    method WriteAt(area: Area, areaNumber: Int32, offset: Int32, value: ByteArray)
      returns (future: Option<FutureId>, thrown: Option<Thrown>)
      requires Valid()
      modifies this`executor, this`futures, this`nextFuture
      ensures Valid()
      ensures var key := DefaultWrite(area, areaNumber, offset, value).key;
        var t := L.Write(old(Life()), key, value, old(nextFuture));
        && key == ItemKey(area, areaNumber, |value|, offset)
        && Life() == t.next && thrown == t.thrown
        && (future.Some? <==> thrown.None?)
        && (future.Some? ==>
              && future.value == old(nextFuture)
              && futures == old(futures)[future.value := WriteFuture(Pending, Some(old(executor.nextHandle)))]
              && executor.pending[old(executor.nextHandle)] == Task(WriteJob(key, value, future.value), false))
        && (future.None? ==> futures == old(futures))
    {
      var c := DefaultWrite(area, areaNumber, offset, value);
      future, thrown := Write(c.key, c.value);
    }

    /**
     * The write future's `cancel`: the future's own cancel succeeds when it
     * was pending (or already cancelled); only then is its queued task
     * cancelled, and the result is that task's cancel. A successful cancel
     * means the write never reaches the connector.
     */
    method CancelWrite(f: FutureId) returns (r: bool)
      requires Valid() && f in futures
      modifies this`executor, this`futures
      ensures Valid()
      ensures var w := old(futures[f]);
        && futures == (if w.status.Pending? then old(futures)[f := w.(status := Cancelled)] else old(futures))
        && (if (w.status.Pending? || w.status.Cancelled?) && w.task.Some? then
              && executor == old(executor).Cancel(w.task.value).0
              && (r <==> w.task.value in old(executor.pending))
              && w.task.value !in executor.pending
            else executor == old(executor) && !r)
    {
      var w := futures[f];
      var superCancelled := w.status.Pending? || w.status.Cancelled?;
      if w.status.Pending? {
        futures := futures[f := w.(status := Cancelled)];
      }
      if superCancelled {
        if w.task.Some? {
          var c := executor.Cancel(w.task.value);
          executor := c.0;
          r := c.1;
        } else {
          r := false;
        }
      } else {
        r := false;
      }
    }

    /** `startConnection`: ask the factory only when no connection is held. */
    method StartConnection(plc: Plc)
      modifies this`connection, this`calls
      ensures old(connection).Some? ==> connection == old(connection) && calls == old(calls)
      ensures old(connection).None? ==> connection == plc.connect && calls == old(calls) + [Connect]
    {
      if connection.None? {
        calls := calls + [Connect];
        connection := plc.connect;
      }
    }

    /** `closeConnection`: close a held connection (its errors are only logged) and forget it. */
    method CloseConnection()
      modifies this`connection, this`calls
      ensures connection.None?
      ensures calls == old(calls) + (if old(connection).Some? then [ConnectorCall.Close(old(connection).value)] else [])
    {
      if connection.Some? {
        calls := calls + [ConnectorCall.Close(connection.value)];
        connection := None;
      }
    }

    /** The connection part of `checkConnectionAndDo`: whether the action may run. */
    method CheckConnection(plc: Plc) returns (live: bool)
      modifies this`connection, this`calls
      ensures live <==> connection.Some?
      ensures live <==> old(connection).Some? || plc.connect.Some?
      ensures connection == (if old(connection).Some? then old(connection) else plc.connect)
      ensures calls == old(calls) + (if old(connection).Some? then [] else [Connect])
    {
      if connection.None? {
        StartConnection(plc);
      }
      live := connection.Some?;
    }

    /**
     * The `forEach` body for one item on the open connection, once the error
     * flag is known to be clear: read it and hand the outcome to its
     * consumer, or on a connection-level failure notify the global consumer
     * and close. `failed` is the error flag afterwards.
     */
    method ReadItem(key: ItemKey, proc: Processor, read: ItemKey -> ReadOutcome) returns (failed: bool)
      requires connection.Some?
      modifies this`events, this`calls, this`connection
      ensures var d := ItemStep(Full, Untouched, key, proc, old(connection).value, read, exceptionConsumer);
        && events == old(events) + d.events && calls == old(calls) + d.calls
        && failed == d.stopped && connection == (if d.dropped then None else old(connection))
    {
      failed := false;
      var outcome := read(key);
      calls := calls + [Read(connection.value, key)];
      match outcome {
        case Bytes(data) =>
          events := events + [Delivered(proc.consumer, data)];
        case ReadFailed(S7Failure(e)) =>
          if proc.errorConsumer.Some? {
            events := events + [ItemFailed(proc.errorConsumer.value, e)];
          }
        case ReadFailed(IoFailure(m)) =>
          failed := true;
          if exceptionConsumer.Some? {
            events := events + [GlobalFailed(exceptionConsumer.value, IoFailure(m))];
          }
          CloseConnection();
      }
    }

    /**
     * `doRead`: every registered item in the iteration order `order`, until
     * a connection-level failure sets the error flag.
     */
    method DoRead(order: seq<ItemKey>, read: ItemKey -> ReadOutcome)
      requires Enumerates(order, items) && connection.Some?
      modifies this`events, this`calls, this`connection
      ensures var c := ReadCycle(Full, order, items, old(connection).value, read, exceptionConsumer);
        && events == old(events) + c.events && calls == old(calls) + c.calls
        && connection == (if c.dropped then None else old(connection))
    {
      var conn := connection.value;
      var error := false;
      var i := 0;
      while i < |order|
        invariant 0 <= i <= |order|
        invariant var c := ReadCycle(Full, order[..i], items, conn, read, exceptionConsumer);
          && events == old(events) + c.events && calls == old(calls) + c.calls
          && error == c.stopped && connection == (if c.dropped then None else Some(conn))
      {
        ReadCycleExtend(Full, order, items, conn, read, exceptionConsumer, i);
        ghost var before := ReadCycle(Full, order[..i], items, conn, read, exceptionConsumer);
        if !error {
          StepAppends(Full, before, order[i], items[order[i]], conn, read, exceptionConsumer);
          error := ReadItem(order[i], items[order[i]], read);
        }
        i := i + 1;
      }
      assert order[..i] == order;
    }

    /**
     * `poll`: `checkConnectionAndDo(doRead)`; a failed connection attempt
     * is reported to the global consumer, if one is set.
     */
    method Poll(plc: Plc, order: seq<ItemKey>)
      requires Enumerates(order, items)
      modifies this`events, this`calls, this`connection
      ensures var r := Cycles.Poll(Full, old(connection), plc, items, order, exceptionConsumer);
        connection == r.connection && calls == old(calls) + r.calls && events == old(events) + r.events
    {
      var live := CheckConnection(plc);
      if live {
        DoRead(order, plc.read);
      } else if exceptionConsumer.Some? {
        events := events + [GlobalFailed(exceptionConsumer.value, IoFailure(BROKEN))];
      }
    }

    /** `doWrite`: the connector's write through `checkConnectionAndDo`, rethrowing its IOException. */
    method DoWrite(plc: Plc, key: ItemKey, value: ByteArray) returns (error: Option<Thrown>)
      modifies this`calls, this`connection
      ensures var w := AttemptWrite(old(connection), plc, key, value, Io(IoFailure(BROKEN)));
        connection == w.connection && calls == old(calls) + w.calls && error == w.error
    {
      var live := CheckConnection(plc);
      if !live {
        return Some(Io(IoFailure(BROKEN)));
      }
      calls := calls + [ConnectorCall.Write(connection.value, key.area, key.areaNumber, key.offset, value)];
      match plc.write(key.area, key.areaNumber, key.offset, value) {
        case Written => error := None;
        case WriteFailed(e) => error := Some(Io(e));
      }
    }

    /** The deactivation task `h` (the lambda queued by `stop`). */
    method Deactivate(h: Handle)
      requires Valid() && h in executor.pending && executor.pending[h].job.DeactivateJob?
      modifies this`executor, this`connection, this`calls, this`pollJob, this`deactivateJob, this`state, this`events
      ensures Valid()
      ensures var t := L.RunTask(old(Life()), h);
        && Life() == t.next
        && connection.None?
        && calls == old(calls) + (if old(connection).Some? then [ConnectorCall.Close(old(connection).value)] else [])
        && events == old(events) + Notices(stateConsumer, t.entered)
    {
      ghost var t := L.Deactivate(Life(), h);
      assert L.RunTask(Life(), h) == t;
      executor := executor.Finish(h, false);
      CloseConnection();
      if deactivateJob.Some? {
        pollJob := None;
        deactivateJob := None;
      }
      if closeFlag {
        executor := executor.Shutdown();
        SetState(Closed);
      } else {
        SetState(Idle);
      }
      assert Life() == t.next;
    }

    /** A run of the periodic poll task `h`: one read cycle; the task stays scheduled. */
    method RunPoll(h: Handle, plc: Plc, order: seq<ItemKey>)
      requires Valid() && h in executor.pending && executor.pending[h].job.PollJob? && Enumerates(order, items)
      modifies this`executor, this`connection, this`calls, this`events
      ensures Valid()
      ensures Life() == L.RunTask(old(Life()), h).next
      ensures var r := Cycles.Poll(Full, old(connection), plc, items, order, exceptionConsumer);
        connection == r.connection && calls == old(calls) + r.calls && events == old(events) + r.events
    {
      executor := executor.Finish(h, false);
      Poll(plc, order);
    }

    /** A write task `h`: `doWrite`, then settle the future with its outcome. */
    method RunWrite(h: Handle, plc: Plc)
      requires Valid() && h in executor.pending && executor.pending[h].job.WriteJob?
      modifies this`executor, this`connection, this`calls, this`futures
      ensures Valid()
      ensures Life() == L.RunTask(old(Life()), h).next
      ensures var j := old(executor.pending[h].job);
        var w := AttemptWrite(old(connection), plc, j.key, j.value, Io(IoFailure(BROKEN)));
        && connection == w.connection && calls == old(calls) + w.calls
        && futures == old(futures)[j.future := Settle(old(futures[j.future]), w.error)]
    {
      var job := executor.pending[h].job;
      executor := executor.Finish(h, false);
      var error := DoWrite(plc, job.key, job.value);
      futures := futures[job.future := Settle(futures[job.future], error)];
    }

    /**
     * The executor runs the pending task `h` against the controller `plc`,
     * with the registry iterated in `order`: a poll, the deactivation
     * (close the connection, then finish `stop`), or a write whose outcome
     * settles its future.
     */
    method RunTask(h: Handle, plc: Plc, order: seq<ItemKey>)
      requires Valid() && h in executor.pending && Enumerates(order, items)
      modifies this`executor, this`connection, this`calls, this`events, this`futures,
               this`pollJob, this`deactivateJob, this`state
      ensures Valid()
      ensures Life() == L.RunTask(old(Life()), h).next
      ensures old(executor.pending[h].job).PollJob? ==>
        var r := Cycles.Poll(Full, old(connection), plc, items, order, exceptionConsumer);
        && connection == r.connection && calls == old(calls) + r.calls && events == old(events) + r.events
        && futures == old(futures)
      ensures old(executor.pending[h].job).DeactivateJob? ==>
        && connection.None?
        && calls == old(calls) + (if old(connection).Some? then [ConnectorCall.Close(old(connection).value)] else [])
        && events == old(events) + Notices(stateConsumer, L.RunTask(old(Life()), h).entered)
        && futures == old(futures)
      ensures old(executor.pending[h].job).WriteJob? ==>
        var j := old(executor.pending[h].job);
        var w := AttemptWrite(old(connection), plc, j.key, j.value, Io(IoFailure(BROKEN)));
        && connection == w.connection && calls == old(calls) + w.calls && events == old(events)
        && futures == old(futures)[j.future := Settle(old(futures[j.future]), w.error)]
    {
      var job := executor.pending[h].job;
      match job {
        case PollJob =>
          RunPoll(h, plc, order);
        case DeactivateJob =>
          Deactivate(h);
        case WriteJob(_, _, _) =>
          RunWrite(h, plc);
      }
    }
  }
}
