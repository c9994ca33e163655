/**
 * `S7BaseConnectionHolder`: the item registry and lazy connection of
 * `AsyncConnection` on the simpler scheduling of `HolderLifecycle`. A
 * missing consumer is called anyway (the NullPointerException ends the
 * pass), a failed connection attempt escapes the poll task, and a write's
 * future is the write task itself.
 */
module ConnectionHolder {
  import opened Wrappers
  import opened JavaHash
  import opened ItemKeys
  import opened S7Exceptions
  import opened Connector
  import opened Api
  import opened Scheduling
  import opened Cycles
  import H = HolderLifecycle

  class S7BaseConnectionHolder {
    var period: Duration
    var items: Registry
    var exceptionConsumer: Option<ConsumerId>
    var connection: Option<ConnId>
    var job: Option<Handle>
    /** The executor `getExecutor()` returns. */
    var executor: Executor
    /** The status of each write future handed out, by task handle. */
    var outcomes: map<Handle, FutureStatus>
    /** Invocations of the caller's consumers, in order. */
    var events: seq<Event>
    /** Calls made on the connect factory and on connectors, in order. */
    var calls: seq<ConnectorCall>

    function Life(): H.HolderLife
      reads this
    {
      H.HolderLife(job, executor)
    }

    /** Every queued write has its future, under the task's own handle. */
    ghost predicate Valid()
      reads this
    {
      && executor.Valid()
      && (forall h :: h in executor.pending && executor.pending[h].job.WriteJob? ==> h in outcomes)
    }

    constructor()
      ensures Valid() && Life() == H.Initial
      ensures items == map[] && connection.None? && exceptionConsumer.None?
      ensures outcomes == map[] && events == [] && calls == [] && period.millis == 1000
    {
      period := new Duration(1000);
      items := map[];
      exceptionConsumer := None;
      connection := None;
      job := None;
      executor := Fresh;
      outcomes := map[];
      events := [];
      calls := [];
    }

    method SetPeriod(p: Duration) returns (thrown: Option<Thrown>)
      requires Valid()
      modifies this`period, this`job, this`executor
      ensures Valid()
      ensures old(period) != p ==> period == p
      ensures old(period) == p ==> period == old(period)
      ensures var s := H.SetPeriod(old(Life()), old(period) != p);
        Life() == s.next && thrown == s.thrown
    {
      thrown := None;
      if period != p {
        period := p;
        if job.Some? {
          var c := executor.Cancel(job.value);
          executor := c.0;
          var s := executor.Submit(PollJob, true);
          if s.Rejected? {
            thrown := Some(RejectedExecution);
            return;
          }
          executor := s.exec;
          job := Some(s.handle);
        }
      }
    }

    method Start() returns (thrown: Option<Thrown>)
      requires Valid()
      modifies this`job, this`executor
      ensures Valid()
      ensures var s := H.Start(old(Life()));
        Life() == s.next && thrown == s.thrown
    {
      thrown := None;
      if executor.isShutdown {
        thrown := Some(IllegalState(H.ENDPOINT_CLOSED));
        return;
      }
      if job.None? {
        var s := executor.Submit(PollJob, true);
        if s.Rejected? {
          thrown := Some(RejectedExecution);
          return;
        }
        executor := s.exec;
        job := Some(s.handle);
      }
    }

    method AddItem(key: ItemKey, consumer: ConsumerId)
      modifies this`items
      ensures items == Register(old(items), key, Processor(consumer, None))
    {
      items := items[key := Processor(consumer, None)];
    }

    method AddItemWithErrorConsumer(key: ItemKey, consumer: ConsumerId, errorConsumer: Option<ConsumerId>)
      modifies this`items
      ensures items == Register(old(items), key, Processor(consumer, errorConsumer))
    {
      items := items[key := Processor(consumer, errorConsumer)];
    }

    method RemoveItem(key: ItemKey)
      modifies this`items
      ensures items == Unregister(old(items), key)
    {
      items := items - {key};
    }

    method SetExceptionConsumer(consumer: ConsumerId)
      modifies this`exceptionConsumer
      ensures exceptionConsumer == Some(consumer)
    {
      exceptionConsumer := Some(consumer);
    }

    method RemoveExceptionConsumer()
      modifies this`exceptionConsumer
      ensures exceptionConsumer.None?
    {
      exceptionConsumer := None;
    }

    /** `addItem(area, areaNumber, bytes, offset, consumer)`, the `S7Endpoint` default method. */
    method AddItemAt(area: Area, areaNumber: Int32, bytes: Int32, offset: Int32, consumer: ConsumerId)
      modifies this`items
      ensures items == ApplyToRegistry(old(items), DefaultAddItem(area, areaNumber, bytes, offset, consumer))
    {
      var c := DefaultAddItem(area, areaNumber, bytes, offset, consumer);
      AddItem(c.key, c.consumer);
    }

    /** `removeItem(area, areaNumber, bytes, offset)`, the `S7Endpoint` default method. */
    method RemoveItemAt(area: Area, areaNumber: Int32, bytes: Int32, offset: Int32)
      modifies this`items
      ensures items == ApplyToRegistry(old(items), DefaultRemoveItem(area, areaNumber, bytes, offset))
    {
      var c := DefaultRemoveItem(area, areaNumber, bytes, offset);
      RemoveItem(c.key);
    }

    /**
     * `write(key, value)`: refused before `start`; otherwise one write task,
     * whose handle is the returned future, pending.
     */
    method Write(key: ItemKey, value: ByteArray) returns (future: Option<Handle>, thrown: Option<Thrown>)
      requires Valid()
      modifies this`executor, this`outcomes
      ensures Valid()
      ensures var s := H.Write(old(Life()), key, value);
        Life() == s.next && thrown == s.thrown
      ensures future.Some? <==> thrown.None?
      ensures future.Some? ==>
        && future.value == old(executor.nextHandle)
        && outcomes == old(outcomes)[future.value := Pending]
        && executor.pending[future.value] == Task(WriteJob(key, value, future.value), false)
      ensures future.None? ==> outcomes == old(outcomes)
    {
      future := None;
      if job.None? {
        thrown := Some(IllegalState(H.NOT_STARTED));
        return;
      }
      var s := executor.Submit(WriteJob(key, value, executor.nextHandle), false);
      if s.Rejected? {
        thrown := Some(RejectedExecution);
        return;
      }
      thrown := None;
      executor := s.exec;
      outcomes := outcomes[s.handle := Pending];
      future := Some(s.handle);
    }

    /** `write(area, areaNumber, offset, value)`, the `S7Endpoint` default method: `write` on the key covering `value`. */
    method WriteAt(area: Area, areaNumber: Int32, offset: Int32, value: ByteArray)
      returns (future: Option<Handle>, thrown: Option<Thrown>)
      requires Valid()
      modifies this`executor, this`outcomes
      ensures Valid()
      ensures var key := DefaultWrite(area, areaNumber, offset, value).key;
        var s := H.Write(old(Life()), key, value);
        && key == ItemKey(area, areaNumber, |value|, offset)
        && Life() == s.next && thrown == s.thrown
        && (future.Some? <==> thrown.None?)
        && (future.Some? ==> future.value in executor.pending && executor.pending[future.value] == Task(WriteJob(key, value, future.value), false))
    {
      var c := DefaultWrite(area, areaNumber, offset, value);
      future, thrown := Write(c.key, c.value);
    }

    /** The returned future's `cancel`: true, and the write never runs, exactly when the task was still queued. */
    method CancelWrite(h: Handle) returns (r: bool)
      requires Valid() && h in outcomes
      modifies this`executor, this`outcomes
      ensures Valid()
      ensures Life() == H.CancelWrite(old(Life()), h).next
      ensures r <==> h in old(executor.pending) && old(executor.pending[h].job).WriteJob?
      ensures r ==> outcomes == old(outcomes)[h := Cancelled] && h !in executor.pending
      ensures !r ==> outcomes == old(outcomes)
    {
      r := false;
      if h in executor.pending && executor.pending[h].job.WriteJob? {
        var c := executor.Cancel(h);
        executor := c.0;
        r := c.1;
        outcomes := outcomes[h := Cancelled];
      }
    }

    /** `close`: shut the executor down and forget `job`, unless already shut down. */
    method Close() returns (thrown: Option<Thrown>)
      requires Valid()
      modifies this`job, this`executor
      ensures Valid()
      ensures var s := H.Close(old(Life()));
        Life() == s.next && thrown == s.thrown
    {
      thrown := None;
      if !executor.isShutdown {
        executor := executor.Shutdown();
        job := None;
      }
    }

    method StartConnection(plc: Plc)
      modifies this`connection, this`calls
      ensures old(connection).Some? ==> connection == old(connection) && calls == old(calls)
      ensures old(connection).None? ==> connection == plc.connect && calls == old(calls) + [Connect]
    {
      if connection.None? {
        calls := calls + [Connect];
        connection := plc.connect;
      }
    }

    /** `closeConnection`: idempotent; closes only a held connection and always leaves none. */
    method CloseConnection()
      modifies this`connection, this`calls
      ensures connection.None?
      ensures calls == old(calls) + (if old(connection).Some? then [ConnectorCall.Close(old(connection).value)] else [])
    {
      if connection.Some? {
        calls := calls + [ConnectorCall.Close(connection.value)];
        connection := None;
      }
    }

    /** The connection part of `checkConnectionAndDo`: whether the action may run. */
    method CheckConnection(plc: Plc) returns (live: bool)
      modifies this`connection, this`calls
      ensures live <==> connection.Some?
      ensures live <==> old(connection).Some? || plc.connect.Some?
      ensures connection == (if old(connection).Some? then old(connection) else plc.connect)
      ensures calls == old(calls) + (if old(connection).Some? then [] else [Connect])
    {
      if connection.None? {
        StartConnection(plc);
      }
      live := connection.Some?;
    }

    /**
     * The `forEach` body for one item on the connection `conn`: read it and
     * hand the outcome to its consumer. `npe`: a NullPointerException from a
     * missing consumer leaves the loop.
     */
    method ReadItem(key: ItemKey, proc: Processor, read: ItemKey -> ReadOutcome) returns (stopped: bool, npe: bool)
      requires connection.Some?
      modifies this`events, this`calls, this`connection
      ensures var d := ItemStep(Simplified, Untouched, key, proc, old(connection).value, read, exceptionConsumer);
        && events == old(events) + d.events && calls == old(calls) + d.calls
        && stopped == d.stopped && connection == (if d.dropped then None else old(connection))
        && (npe ==> stopped)
    {
      stopped, npe := false, false;
      var outcome := read(key);
      calls := calls + [Read(connection.value, key)];
      match outcome {
        case Bytes(data) =>
          events := events + [Delivered(proc.consumer, data)];
        case ReadFailed(S7Failure(e)) =>
          if proc.errorConsumer.None? {
            stopped, npe := true, true;
          } else {
            events := events + [ItemFailed(proc.errorConsumer.value, e)];
          }
        case ReadFailed(IoFailure(m)) =>
          stopped := true;
          if exceptionConsumer.None? {
            npe := true;
          } else {
            events := events + [GlobalFailed(exceptionConsumer.value, IoFailure(m))];
            CloseConnection();
          }
      }
    }

    /**
     * `doRead`: the items in iteration order `order`. A protocol error on
     * an item without an error consumer, or a connection-level failure with
     * no global consumer, raises a NullPointerException that ends the pass.
     */
    method DoRead(order: seq<ItemKey>, read: ItemKey -> ReadOutcome)
      requires Enumerates(order, items) && connection.Some?
      modifies this`events, this`calls, this`connection
      ensures var c := ReadCycle(Simplified, order, items, old(connection).value, read, exceptionConsumer);
        && events == old(events) + c.events && calls == old(calls) + c.calls
        && connection == (if c.dropped then None else old(connection))
    {
      var conn := connection.value;
      var stopped, aborted := false, false;
      var i := 0;
      while i < |order| && !aborted
        invariant 0 <= i <= |order|
        invariant aborted ==> stopped
        invariant var c := ReadCycle(Simplified, order[..i], items, conn, read, exceptionConsumer);
          && events == old(events) + c.events && calls == old(calls) + c.calls
          && stopped == c.stopped && connection == (if c.dropped then None else Some(conn))
      {
        ReadCycleExtend(Simplified, order, items, conn, read, exceptionConsumer, i);
        ghost var before := ReadCycle(Simplified, order[..i], items, conn, read, exceptionConsumer);
        if !stopped {
          StepAppends(Simplified, before, order[i], items[order[i]], conn, read, exceptionConsumer);
          stopped, aborted := ReadItem(order[i], items[order[i]], read);
        }
        i := i + 1;
      }
      if i < |order| {
        StoppedStaysStopped(Simplified, order, items, conn, read, exceptionConsumer, i);
      } else {
        assert order[..i] == order;
      }
    }

    /**
     * `poll`: `checkConnectionAndDo(doRead)`; when no connection can be
     * established the RuntimeException leaves the task (`threw`).
     */
    method Poll(plc: Plc, order: seq<ItemKey>) returns (threw: bool)
      requires Enumerates(order, items)
      modifies this`events, this`calls, this`connection
      ensures var r := Cycles.Poll(Simplified, old(connection), plc, items, order, exceptionConsumer);
        && connection == r.connection && calls == old(calls) + r.calls && events == old(events) + r.events
        && threw == r.threw
    {
      var live := CheckConnection(plc);
      if live {
        DoRead(order, plc.read);
        threw := false;
      } else {
        threw := true;
      }
    }

    /** `doWrite`: the connector's write through `checkConnectionAndDo`, rethrowing its IOException. */
    method DoWrite(plc: Plc, key: ItemKey, value: ByteArray) returns (error: Option<Thrown>)
      modifies this`calls, this`connection
      ensures var w := AttemptWrite(old(connection), plc, key, value, Runtime(BROKEN));
        connection == w.connection && calls == old(calls) + w.calls && error == w.error
    {
      var live := CheckConnection(plc);
      if !live {
        return Some(Runtime(BROKEN));
      }
      calls := calls + [ConnectorCall.Write(connection.value, key.area, key.areaNumber, key.offset, value)];
      match plc.write(key.area, key.areaNumber, key.offset, value) {
        case Written => error := None;
        case WriteFailed(e) => error := Some(Io(e));
      }
    }

    /**
     * The executor runs the pending task `h` against the controller `plc`,
     * with the registry iterated in `order`. A poll that throws is dropped
     * by the executor; a write completes its future with its outcome.
     */
    method RunTask(h: Handle, plc: Plc, order: seq<ItemKey>)
      requires Valid() && h in executor.pending && Enumerates(order, items)
      requires !executor.pending[h].job.DeactivateJob?
      modifies this`executor, this`connection, this`calls, this`events, this`outcomes
      ensures Valid()
      ensures old(executor.pending[h].job).PollJob? ==>
        var r := Cycles.Poll(Simplified, old(connection), plc, items, order, exceptionConsumer);
        && Life() == H.RunTask(old(Life()), h, r.threw).next
        && connection == r.connection && calls == old(calls) + r.calls && events == old(events) + r.events
        && outcomes == old(outcomes)
      ensures old(executor.pending[h].job).WriteJob? ==>
        var j := old(executor.pending[h].job);
        var w := AttemptWrite(old(connection), plc, j.key, j.value, Runtime(BROKEN));
        && Life() == H.RunTask(old(Life()), h, false).next
        && connection == w.connection && calls == old(calls) + w.calls && events == old(events)
        && outcomes == old(outcomes)[h := if w.error.None? then Completed else Failed(w.error.value)]
    {
      var job := executor.pending[h].job;
      if job.PollJob? {
        var threw := Poll(plc, order);
        executor := executor.Finish(h, threw);
      } else {
        executor := executor.Finish(h, false);
        var error := DoWrite(plc, job.key, job.value);
        outcomes := outcomes[h := if error.None? then Completed else Failed(error.value)];
      }
    }
  }
}
