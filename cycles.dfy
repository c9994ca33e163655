/**
 * One run of the poll task and one run of a write task, as pure
 * specifications. Both connection classes iterate the item registry the
 * same way and differ only in how they treat a missing exception consumer:
 * the full profile (`S7BaseAsyncConnection`) checks for null before calling
 * an item's or the global consumer, the simplified profile
 * (`S7BaseConnectionHolder`) calls it unchecked, and the resulting
 * NullPointerException ends the pass (without closing the connection when
 * it is the global consumer that is missing).
 */
module Cycles {
  import opened Wrappers
  import opened JavaHash
  import opened ItemKeys
  import opened S7Exceptions
  import opened Connector
  import opened Api

  datatype Profile = Full | Simplified

  /**
   * What one pass over the items produced so far: the consumer invocations,
   * the connector calls, whether the pass has stopped (the error flag, or an
   * exception that left the loop) and whether it closed the connection.
   */
  datatype Cycle = Cycle(events: seq<Event>, calls: seq<ConnectorCall>, stopped: bool, dropped: bool)

  const Untouched: Cycle := Cycle([], [], false, false)

  /** The global exception consumer's invocation, when one is set. */
  function GlobalNotice(global: Option<ConsumerId>, e: IoException): seq<Event>
  {
    if global.Some? then [GlobalFailed(global.value, e)] else []
  }

  /** A connection-level failure: an IOException that is not an S7Exception. */
  predicate LinkFault(o: ReadOutcome)
  {
    o.ReadFailed? && o.error.IoFailure?
  }

  /** The body of the `forEach` lambda in `doRead` for one item. */
  function ItemStep(profile: Profile, c: Cycle, key: ItemKey, p: Processor, conn: ConnId,
                    read: ItemKey -> ReadOutcome, global: Option<ConsumerId>): Cycle
  {
    if c.stopped then c
    else
      var calls := c.calls + [Read(conn, key)];
      match read(key)
      case Bytes(data) => c.(events := c.events + [Delivered(p.consumer, data)], calls := calls)
      case ReadFailed(S7Failure(e)) =>
        if p.errorConsumer.Some? then c.(events := c.events + [ItemFailed(p.errorConsumer.value, e)], calls := calls)
        else if profile.Full? then c.(calls := calls)
        else c.(calls := calls, stopped := true)
      case ReadFailed(e) =>
        if global.Some? || profile.Full? then Cycle(c.events + GlobalNotice(global, e), calls + [Close(conn)], true, true)
        else c.(calls := calls, stopped := true)
  }

  /** A step from a pass that has not stopped appends what the same step does from an untouched pass. */
  lemma StepAppends(profile: Profile, c: Cycle, key: ItemKey, p: Processor, conn: ConnId,
                    read: ItemKey -> ReadOutcome, global: Option<ConsumerId>)
    requires !c.stopped && !c.dropped
    ensures var d := ItemStep(profile, Untouched, key, p, conn, read, global);
            ItemStep(profile, c, key, p, conn, read, global) == Cycle(c.events + d.events, c.calls + d.calls, d.stopped, d.dropped)
  {
  }

  /** `doRead`: the items in iteration order `order`, each through `ItemStep`. */
  function ReadCycle(profile: Profile, order: seq<ItemKey>, items: Registry, conn: ConnId,
                     read: ItemKey -> ReadOutcome, global: Option<ConsumerId>): (r: Cycle)
    requires forall k :: k in order ==> k in items
    ensures r.dropped ==> r.stopped
    ensures |r.calls| <= |order| + (if r.dropped then 1 else 0)
    decreases |order|
  {
    if order == [] then Untouched
    else
      var last := order[|order| - 1];
      ItemStep(profile, ReadCycle(profile, order[..|order| - 1], items, conn, read, global),
               last, items[last], conn, read, global)
  }

  /** The pass over a longer prefix of `order` is one more `ItemStep`. */
  lemma ReadCycleExtend(profile: Profile, order: seq<ItemKey>, items: Registry, conn: ConnId,
                        read: ItemKey -> ReadOutcome, global: Option<ConsumerId>, i: nat)
    requires forall k :: k in order ==> k in items
    requires i < |order|
    ensures forall k :: k in order[..i] ==> k in items
    ensures ReadCycle(profile, order[..i + 1], items, conn, read, global)
            == ItemStep(profile, ReadCycle(profile, order[..i], items, conn, read, global), order[i], items[order[i]], conn, read, global)
  {
    assert order[..i + 1][..i] == order[..i];
  }

  /** Reference: what an item causes on its own, independent of every other item. */
  function ItemEvents(p: Processor, o: ReadOutcome): seq<Event>
  {
    match o
    case Bytes(data) => [Delivered(p.consumer, data)]
    case ReadFailed(S7Failure(e)) => if p.errorConsumer.Some? then [ItemFailed(p.errorConsumer.value, e)] else []
    case ReadFailed(IoFailure(_)) => []
  }

  /** Reference: the items' own events, concatenated in iteration order. */
  function IsolatedEvents(order: seq<ItemKey>, items: Registry, read: ItemKey -> ReadOutcome): seq<Event>
    requires forall k :: k in order ==> k in items
    decreases |order|
  {
    if order == [] then []
    else
      var last := order[|order| - 1];
      IsolatedEvents(order[..|order| - 1], items, read) + ItemEvents(items[last], read(last))
  }

  /** Reference: one read call per item, in iteration order. */
  function Reads(conn: ConnId, order: seq<ItemKey>): (r: seq<ConnectorCall>)
    ensures |r| == |order|
    ensures forall i :: 0 <= i < |order| ==> r[i] == Read(conn, order[i])
  {
    seq(|order|, i requires 0 <= i < |order| => Read(conn, order[i]))
  }

  lemma ReadsSnoc(conn: ConnId, order: seq<ItemKey>)
    requires order != []
    ensures Reads(conn, order[..|order| - 1]) + [Read(conn, order[|order| - 1])] == Reads(conn, order)
  {
    var r := Reads(conn, order[..|order| - 1]) + [Read(conn, order[|order| - 1])];
    assert forall i :: 0 <= i < |order| ==> r[i] == Read(conn, order[i]);
  }

  /** An item whose outcome the profile handles without stopping the pass. */
  predicate Tolerated(profile: Profile, p: Processor, o: ReadOutcome)
  {
    !LinkFault(o) && (profile.Full? || o.Bytes? || p.errorConsumer.Some?)
  }

  ghost predicate AllTolerated(profile: Profile, order: seq<ItemKey>, items: Registry, read: ItemKey -> ReadOutcome)
    requires forall k :: k in order ==> k in items
  {
    forall i :: 0 <= i < |order| ==> Tolerated(profile, items[order[i]], read(order[i]))
  }

  /**
   * Error isolation: while no item stops the pass, every item is read once,
   * in order, and the events are exactly the items' own events. In the full
   * profile this holds whenever no connection-level failure occurs, so a
   * protocol error on one item never keeps another item from being read.
   */
  lemma {:induction false} CycleWithoutStop(profile: Profile, order: seq<ItemKey>, items: Registry, conn: ConnId,
                                           read: ItemKey -> ReadOutcome, global: Option<ConsumerId>)
    requires forall k :: k in order ==> k in items
    requires AllTolerated(profile, order, items, read)
    ensures ReadCycle(profile, order, items, conn, read, global)
            == Cycle(IsolatedEvents(order, items, read), Reads(conn, order), false, false)
    decreases |order|
  {
    if order != [] {
      var init := order[..|order| - 1];
      var last := order[|order| - 1];
      assert forall i :: 0 <= i < |init| ==> init[i] == order[i];
      CycleWithoutStop(profile, init, items, conn, read, global);
      StepAtTolerated(profile, ReadCycle(profile, init, items, conn, read, global), last, items[last], conn, read, global);
      ReadsSnoc(conn, order);
    }
  }

  lemma StepAtTolerated(profile: Profile, c: Cycle, key: ItemKey, p: Processor, conn: ConnId,
                        read: ItemKey -> ReadOutcome, global: Option<ConsumerId>)
    requires !c.stopped && !c.dropped && Tolerated(profile, p, read(key))
    ensures ItemStep(profile, c, key, p, conn, read, global)
            == Cycle(c.events + ItemEvents(p, read(key)), c.calls + [Read(conn, key)], false, false)
  {
  }

  /** Once the pass has stopped, the remaining items are skipped. */
  lemma {:induction false} StoppedStaysStopped(profile: Profile, order: seq<ItemKey>, items: Registry, conn: ConnId,
                                              read: ItemKey -> ReadOutcome, global: Option<ConsumerId>, n: nat)
    requires forall k :: k in order ==> k in items
    requires n <= |order|
    requires ReadCycle(profile, order[..n], items, conn, read, global).stopped
    ensures ReadCycle(profile, order, items, conn, read, global) == ReadCycle(profile, order[..n], items, conn, read, global)
    decreases |order|
  {
    if |order| > n {
      var init := order[..|order| - 1];
      assert init[..n] == order[..n];
      StoppedStaysStopped(profile, init, items, conn, read, global, n);
    } else {
      assert order[..n] == order;
    }
  }

  /** What the pass records at an item it does not tolerate. */
  function StopEffect(profile: Profile, o: ReadOutcome, conn: ConnId, global: Option<ConsumerId>): Cycle
  {
    var closes := LinkFault(o) && (global.Some? || profile.Full?);
    Cycle(if closes then GlobalNotice(global, o.error) else [], if closes then [Close(conn)] else [], true, closes)
  }

  lemma StepAtIntolerable(profile: Profile, c: Cycle, key: ItemKey, p: Processor, conn: ConnId,
                          read: ItemKey -> ReadOutcome, global: Option<ConsumerId>)
    requires !c.stopped && !c.dropped && !Tolerated(profile, p, read(key))
    ensures var s := StopEffect(profile, read(key), conn, global);
            ItemStep(profile, c, key, p, conn, read, global)
            == Cycle(c.events + s.events, c.calls + [Read(conn, key)] + s.calls, true, s.dropped)
  {
  }

  /** A pass whose last item is the first one it does not tolerate. */
  lemma LastIntolerable(profile: Profile, order: seq<ItemKey>, items: Registry, conn: ConnId,
                        read: ItemKey -> ReadOutcome, global: Option<ConsumerId>)
    requires forall k :: k in order ==> k in items
    requires order != [] && AllTolerated(profile, order[..|order| - 1], items, read)
    requires !Tolerated(profile, items[order[|order| - 1]], read(order[|order| - 1]))
    ensures var s := StopEffect(profile, read(order[|order| - 1]), conn, global);
            ReadCycle(profile, order, items, conn, read, global)
            == Cycle(IsolatedEvents(order[..|order| - 1], items, read) + s.events, Reads(conn, order) + s.calls, true, s.dropped)
  {
    var init, key := order[..|order| - 1], order[|order| - 1];
    var c := ReadCycle(profile, init, items, conn, read, global);
    CycleWithoutStop(profile, init, items, conn, read, global);
    StepAtIntolerable(profile, c, key, items[key], conn, read, global);
    ReadsSnoc(conn, order);
  }

  /**
   * The pass stops at the first item it does not tolerate. A connection-level
   * failure with a global consumer (or in the full profile) notifies that
   * consumer once and closes the connection; otherwise (the simplified
   * profile's NullPointerException) the pass just ends, connection kept.
   */
  lemma {:induction false} CycleStopsAtFirstIntolerable(profile: Profile, order: seq<ItemKey>, items: Registry, conn: ConnId,
                                                       read: ItemKey -> ReadOutcome, global: Option<ConsumerId>, j: nat)
    requires forall k :: k in order ==> k in items
    requires j < |order|
    requires AllTolerated(profile, order[..j], items, read)
    requires !Tolerated(profile, items[order[j]], read(order[j]))
    ensures var s := StopEffect(profile, read(order[j]), conn, global);
            ReadCycle(profile, order, items, conn, read, global)
            == Cycle(IsolatedEvents(order[..j], items, read) + s.events, Reads(conn, order[..j + 1]) + s.calls, true, s.dropped)
  {
    var prefix := order[..j + 1];
    assert prefix[..j] == order[..j] && prefix[j] == order[j];
    LastIntolerable(profile, prefix, items, conn, read, global);
    StoppedStaysStopped(profile, order, items, conn, read, global, j + 1);
  }

  /** Item-level failures never reach the global exception consumer. */
  lemma {:induction false} IsolatedEventsAreItemScoped(order: seq<ItemKey>, items: Registry, read: ItemKey -> ReadOutcome)
    requires forall k :: k in order ==> k in items
    ensures forall e :: e in IsolatedEvents(order, items, read) ==> !e.GlobalFailed?
    decreases |order|
  {
    if order != [] {
      IsolatedEventsAreItemScoped(order[..|order| - 1], items, read);
    }
  }

  /**
   * With every item error consumer and the global consumer set, the
   * simplified profile's pass is the full profile's pass.
   */
  lemma {:induction false} ProfilesAgreeWhenConsumersSet(order: seq<ItemKey>, items: Registry, conn: ConnId,
                                                        read: ItemKey -> ReadOutcome, global: Option<ConsumerId>)
    requires forall k :: k in order ==> k in items
    requires forall k :: k in order ==> items[k].errorConsumer.Some?
    requires global.Some?
    ensures ReadCycle(Simplified, order, items, conn, read, global) == ReadCycle(Full, order, items, conn, read, global)
    decreases |order|
  {
    if order != [] {
      ProfilesAgreeWhenConsumersSet(order[..|order| - 1], items, conn, read, global);
    }
  }

  /** A pass only reads and closes; it never opens a connection. */
  lemma {:induction false} CycleNeverConnects(profile: Profile, order: seq<ItemKey>, items: Registry, conn: ConnId,
                                             read: ItemKey -> ReadOutcome, global: Option<ConsumerId>)
    requires forall k :: k in order ==> k in items
    ensures Connect !in ReadCycle(profile, order, items, conn, read, global).calls
    decreases |order|
  {
    if order != [] {
      CycleNeverConnects(profile, order[..|order| - 1], items, conn, read, global);
    }
  }

  /** What a run of the poll task did. `threw`: an exception left the task. */
  datatype PollResult = PollResult(connection: Option<ConnId>, calls: seq<ConnectorCall>, events: seq<Event>, threw: bool)

  /**
   * `poll`: `checkConnectionAndDo(doRead)`. Without a connection the factory
   * is asked once; if it fails the full profile reports "Connection is
   * broken" to the global consumer, while the simplified profile's
   * RuntimeException leaves the task.
   */
  function Poll(profile: Profile, conn: Option<ConnId>, plc: Plc, items: Registry, order: seq<ItemKey>,
                global: Option<ConsumerId>): (r: PollResult)
    requires forall k :: k in order ==> k in items
    ensures conn.Some? ==> Connect !in r.calls
    ensures r.threw <==> conn.None? && plc.connect.None? && profile.Simplified?
    ensures conn.None? && plc.connect.None? ==>
      && r.calls == [Connect] && r.connection.None?
      && r.events == (if profile.Full? then GlobalNotice(global, IoFailure(BROKEN)) else [])
    ensures conn.Some? || plc.connect.Some? ==>
      var live := if conn.Some? then conn.value else plc.connect.value;
      var c := ReadCycle(profile, order, items, live, plc.read, global);
      && r.events == c.events && r.calls == (if conn.Some? then [] else [Connect]) + c.calls
      && r.connection == (if c.dropped then None else Some(live))
  {
    if conn.None? && plc.connect.None? then
      if profile.Full? then PollResult(None, [Connect], GlobalNotice(global, IoFailure(BROKEN)), false)
      else PollResult(None, [Connect], [], true)
    else
      var live := if conn.Some? then conn.value else plc.connect.value;
      var c := ReadCycle(profile, order, items, live, plc.read, global);
      CycleNeverConnects(profile, order, items, live, plc.read, global);
      PollResult(if c.dropped then None else Some(live),
                 (if conn.Some? then [] else [Connect]) + c.calls, c.events, false)
  }

  /** What a run of a write task did; `error` is what its future completes with. */
  datatype WriteAttempt = WriteAttempt(connection: Option<ConnId>, calls: seq<ConnectorCall>, error: Option<Thrown>)

  /**
   * `doWrite`: `checkConnectionAndDo(connection.write(...))`, rethrowing
   * the connector's IOException; `broken` is what is thrown when no
   * connection can be established.
   */
  function AttemptWrite(conn: Option<ConnId>, plc: Plc, key: ItemKey, value: ByteArray, broken: Thrown): WriteAttempt
  {
    if conn.None? && plc.connect.None? then WriteAttempt(None, [Connect], Some(broken))
    else
      var live := if conn.Some? then conn.value else plc.connect.value;
      var call := Write(live, key.area, key.areaNumber, key.offset, value);
      var prefix := if conn.Some? then [] else [Connect];
      match plc.write(key.area, key.areaNumber, key.offset, value)
      case Written => WriteAttempt(Some(live), prefix + [call], None)
      case WriteFailed(e) => WriteAttempt(Some(live), prefix + [call], Some(Io(e)))
  }

  /**
   * A write that finds or makes a connection reaches the connector exactly
   * once, with the key's area, area number and offset and the value; it
   * fails exactly when the connector's write fails, with that error, and it
   * keeps the connection either way. Without one it fails with `broken`.
   */
  lemma WriteReachesConnectorOnce(conn: Option<ConnId>, plc: Plc, key: ItemKey, value: ByteArray, broken: Thrown)
    ensures var w := AttemptWrite(conn, plc, key, value, broken);
      if conn.None? && plc.connect.None? then
        w.error == Some(broken) && w.calls == [Connect] && w.connection.None?
      else
        var live := if conn.Some? then conn.value else plc.connect.value;
        var outcome := plc.write(key.area, key.areaNumber, key.offset, value);
        && w.connection == Some(live)
        && w.calls[|w.calls| - 1] == Write(live, key.area, key.areaNumber, key.offset, value)
        && (forall i :: 0 <= i < |w.calls| - 1 ==> !w.calls[i].Write?)
        && (w.error.None? <==> outcome.Written?)
        && (outcome.WriteFailed? ==> w.error == Some(Io(outcome.error)))
  {
  }
}
