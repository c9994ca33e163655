/**
 * The scheduling state machine of `S7BaseAsyncConnection` as pure
 * transitions: the connection state, the poll task handle (`pollJob`), the
 * pending deactivation task handle (`deactivateJob`), the close flag and
 * the executor. `start`, `stop`, `close`, `setPeriod` and `write` are
 * guarded transitions; the deactivation task, run later, finishes `stop`
 * and ends in `Idle` or, when a close came in meanwhile, in `Closed`.
 */
module AsyncLifecycle {
  import opened Wrappers
  import opened JavaHash
  import opened ItemKeys
  import opened Connector
  import opened Api
  import opened Scheduling

  datatype Lifecycle = Lifecycle(
    state: State,
    pollJob: Option<Handle>,
    deactivateJob: Option<Handle>,
    closeFlag: bool,
    exec: Executor)

  /**
   * One public call: the new scheduling state, the states passed to
   * `setState` in order (each one reaches the state listener), and the
   * exception thrown to the caller, if any.
   */
  datatype Transition = Transition(next: Lifecycle, entered: seq<State>, thrown: Option<Thrown>)

  /** The message of the IllegalStateException of `write` outside `Active`. */
  const NOT_ACTIVE: string := "Connection not active"

  /** A freshly constructed connection. */
  const Initial: Lifecycle := Lifecycle(Idle, None, None, false, Fresh)

  function Unchanged(l: Lifecycle): Transition
  {
    Transition(l, [], None)
  }

  /** `start`: from `Idle` only, enter `Active` and schedule the periodic poll. */
  function Start(l: Lifecycle): (t: Transition)
    requires l.exec.Valid()
    ensures t.next.exec.Valid()
    ensures l.state != Idle ==> t == Unchanged(l)
  {
    if l.state != Idle then Unchanged(l)
    else
      var exec := if l.deactivateJob.Some? then l.exec.Cancel(l.deactivateJob.value).0 else l.exec;
      var active := l.(state := Active, deactivateJob := None, exec := exec);
      match exec.Submit(PollJob, true)
      case Rejected => Transition(active, [Active], Some(RejectedExecution))
      case Accepted(e, h) => Transition(active.(pollJob := Some(h), exec := e), [Active], None)
  }

  /**
   * `stop`: only while `Active` with no deactivation pending. With a poll
   * task it cancels it and schedules the deactivation, staying `Active`;
   * without one it enters `Idle` directly.
   */
  function Stop(l: Lifecycle): (t: Transition)
    requires l.exec.Valid()
    ensures t.next.exec.Valid()
    ensures !(l.state == Active && l.deactivateJob.None?) ==> t == Unchanged(l)
  {
    if !(l.state == Active && l.deactivateJob.None?) then Unchanged(l)
    else if l.pollJob.Some? then
      var exec := l.exec.Cancel(l.pollJob.value).0;
      match exec.Submit(DeactivateJob, false)
      case Rejected => Transition(l.(exec := exec), [], Some(RejectedExecution))
      case Accepted(e, h) => Transition(l.(exec := e, deactivateJob := Some(h)), [], None)
    else Transition(l.(state := Idle), [Idle], None)
  }

  /**
   * `close`: unless already `Closed`, stop when `Active`, then shut the
   * executor down now if no deactivation is pending, or leave that to the
   * deactivation through the close flag; the state is `Closed` at once.
   */
  function Close(l: Lifecycle): (t: Transition)
    requires l.exec.Valid()
    ensures t.next.exec.Valid()
    ensures l.state == Closed ==> t == Unchanged(l)
  {
    if l.state == Closed then Unchanged(l)
    else
      var stopped := if l.state == Active then Stop(l) else Unchanged(l);
      if stopped.thrown.Some? then stopped
      else
        var m := stopped.next;
        var flagged := if m.deactivateJob.None? then m.(exec := m.exec.Shutdown()) else m.(closeFlag := true);
        Transition(flagged.(state := Closed), stopped.entered + [Closed], None)
  }

  /**
   * `setPeriod` as written: when the new `Duration` is a different object
   * (`differs`) and a poll task handle is held, cancel it and schedule a
   * new periodic poll, whatever the state.
   */
  function SetPeriod(l: Lifecycle, differs: bool): (t: Transition)
    requires l.exec.Valid()
    ensures t.next.exec.Valid()
    ensures !differs || l.pollJob.None? ==> t == Unchanged(l)
  {
    if !differs || l.pollJob.None? then Unchanged(l)
    else Reschedule(l)
  }

  /**
   * `setPeriod` corrected: reschedule only a poll task that is live, i.e.
   * not while a deactivation is pending.
   */
  function SetPeriodCorrected(l: Lifecycle, differs: bool): (t: Transition)
    requires l.exec.Valid()
    ensures t.next.exec.Valid()
    ensures !differs || l.pollJob.None? || l.deactivateJob.Some? ==> t == Unchanged(l)
  {
    if !differs || l.pollJob.None? || l.deactivateJob.Some? then Unchanged(l)
    else Reschedule(l)
  }

  /** Cancel the held poll task and schedule a new periodic poll in its place. */
  function Reschedule(l: Lifecycle): (t: Transition)
    requires l.exec.Valid() && l.pollJob.Some?
    ensures t.next.exec.Valid()
  {
    var exec := l.exec.Cancel(l.pollJob.value).0;
    match exec.Submit(PollJob, true)
    case Rejected => Transition(l.(exec := exec), [], Some(RejectedExecution))
    case Accepted(e, h) => Transition(l.(exec := e, pollJob := Some(h)), [], None)
  }

  /** `write`: refused unless `Active`; otherwise one one-shot write task is queued. */
  function Write(l: Lifecycle, key: ItemKey, value: ByteArray, future: FutureId): (t: Transition)
    requires l.exec.Valid()
    ensures t.next.exec.Valid()
    ensures l.state != Active ==> t == Transition(l, [], Some(IllegalState(NOT_ACTIVE)))
  {
    if l.state != Active then Transition(l, [], Some(IllegalState(NOT_ACTIVE)))
    else
      match l.exec.Submit(WriteJob(key, value, future), false)
      case Rejected => Transition(l, [], Some(RejectedExecution))
      case Accepted(e, _) => Transition(l.(exec := e), [], None)
  }

  /**
   * The deactivation task `h` runs (after closing the connection): it
   * forgets both task handles if it still owns `deactivateJob`, then shuts
   * the executor down and enters `Closed` if the close flag is set, or
   * enters `Idle` otherwise.
   */
  function Deactivate(l: Lifecycle, h: Handle): (t: Transition)
    requires l.exec.Valid() && h in l.exec.pending
    ensures t.next.exec.Valid()
    ensures t.entered == [t.next.state] && t.next.state != Active
  {
    var done := l.(exec := l.exec.Finish(h, false));
    var cleared := if done.deactivateJob.Some? then done.(pollJob := None, deactivateJob := None) else done;
    if cleared.closeFlag then Transition(cleared.(exec := cleared.exec.Shutdown(), state := Closed), [Closed], None)
    else Transition(cleared.(state := Idle), [Idle], None)
  }

  /**
   * The executor runs the pending task `h`. A poll or a write task catches
   * everything it raises, so the scheduling state only sees the task run;
   * the deactivation task changes state.
   */
  function RunTask(l: Lifecycle, h: Handle): (t: Transition)
    requires l.exec.Valid() && h in l.exec.pending
    ensures t.next.exec.Valid()
  {
    if l.exec.pending[h].job.DeactivateJob? then Deactivate(l, h)
    else Unchanged(l.(exec := l.exec.Finish(h, false)))
  }

  /** The write future's `cancel` reaching its own queued write task `h`. */
  function CancelWrite(l: Lifecycle, h: Handle): (t: Transition)
    requires l.exec.Valid()
    ensures t.next.exec.Valid()
    ensures h in l.exec.pending && l.exec.pending[h].job.WriteJob? ==> h !in t.next.exec.pending
  {
    if h in l.exec.pending && l.exec.pending[h].job.WriteJob? then Unchanged(l.(exec := l.exec.Cancel(h).0))
    else Unchanged(l)
  }

  /** Everything that can happen to a connection, one step at a time. */
  datatype Op =
    | StartOp
    | StopOp
    | CloseOp
    | SetPeriodOp(differs: bool)
    | SetPeriodCorrectedOp(differs: bool)
    | WriteOp(key: ItemKey, value: ByteArray, future: FutureId)
    | CancelWriteOp(h: Handle)
    | RunOp(h: Handle)

  function Apply(l: Lifecycle, op: Op): (t: Transition)
    requires l.exec.Valid()
    ensures t.next.exec.Valid()
  {
    match op
    case StartOp => Start(l)
    case StopOp => Stop(l)
    case CloseOp => Close(l)
    case SetPeriodOp(differs) => SetPeriod(l, differs)
    case SetPeriodCorrectedOp(differs) => SetPeriodCorrected(l, differs)
    case WriteOp(key, value, future) => Write(l, key, value, future)
    case CancelWriteOp(h) => CancelWrite(l, h)
    case RunOp(h) => if h in l.exec.pending then RunTask(l, h) else Unchanged(l)
  }

  /** The last state of a run, every state entered on the way and every exception thrown. */
  datatype Trace = Trace(last: Lifecycle, entered: seq<State>, thrown: seq<Thrown>)

  function Run(l: Lifecycle, ops: seq<Op>): (r: Trace)
    requires l.exec.Valid()
    ensures r.last.exec.Valid()
    decreases |ops|
  {
    if ops == [] then Trace(l, [], [])
    else
      var t := Apply(l, ops[0]);
      var rest := Run(t.next, ops[1..]);
      Trace(rest.last, t.entered + rest.entered,
            (if t.thrown.Some? then [t.thrown.value] else []) + rest.thrown)
  }

  /**
   * What holds between public calls. Idle holds no task; Active holds a
   * poll task; the executor is shut down exactly when `Closed` with no
   * deactivation pending, and then exactly once; a pending deactivation in
   * `Closed` carries the close flag; the one deactivation task is the one
   * `deactivateJob` names, and `pollJob`, while pending, names a poll.
   */
  ghost predicate Consistent(l: Lifecycle)
  {
    && l.exec.Valid()
    && (l.state == Idle ==> l.pollJob.None? && l.deactivateJob.None? && !l.closeFlag)
    && (l.state == Active ==> l.pollJob.Some? && !l.closeFlag)
    && (l.exec.isShutdown <==> l.state == Closed && l.deactivateJob.None?)
    && l.exec.shutdownCalls == (if l.exec.isShutdown then 1 else 0)
    && (l.state == Closed && l.deactivateJob.Some? ==> l.closeFlag)
    && (l.state == Closed && l.deactivateJob.None? ==> l.pollJob.None?)
    && (l.deactivateJob.Some? ==>
          l.deactivateJob.value in l.exec.pending && l.exec.pending[l.deactivateJob.value] == Task(DeactivateJob, false))
    && (forall h :: h in l.exec.pending && l.exec.pending[h].job.DeactivateJob? ==> l.deactivateJob == Some(h))
    && (l.pollJob.Some? ==> l.pollJob.value < l.exec.nextHandle)
    && (l.pollJob.Some? && l.pollJob.value in l.exec.pending ==> l.exec.pending[l.pollJob.value] == Task(PollJob, true))
  }

  lemma InitialConsistent()
    ensures Consistent(Initial)
  {
  }

  /** At most one live poll: every pending periodic task is the held poll task, and none while a deactivation is pending. */
  ghost predicate SinglePoll(l: Lifecycle)
  {
    forall h :: h in l.exec.pending && l.exec.pending[h].periodic ==> l.pollJob == Some(h) && l.deactivateJob.None?
  }

  lemma StartKeepsConsistent(l: Lifecycle)
    requires Consistent(l)
    ensures Consistent(Start(l).next) && Start(l).thrown.None?
    ensures SinglePoll(l) ==> SinglePoll(Start(l).next)
  {
  }

  lemma StopKeepsConsistent(l: Lifecycle)
    requires Consistent(l)
    ensures Consistent(Stop(l).next) && Stop(l).thrown.None?
    ensures SinglePoll(l) ==> SinglePoll(Stop(l).next)
  {
  }

  lemma CloseKeepsConsistent(l: Lifecycle)
    requires Consistent(l)
    ensures Consistent(Close(l).next) && Close(l).thrown.None?
    ensures SinglePoll(l) ==> SinglePoll(Close(l).next)
  {
    if l.state == Active {
      StopKeepsConsistent(l);
    }
  }

  lemma SetPeriodKeepsConsistent(l: Lifecycle, differs: bool)
    requires Consistent(l)
    ensures Consistent(SetPeriod(l, differs).next) && SetPeriod(l, differs).thrown.None?
    ensures Consistent(SetPeriodCorrected(l, differs).next) && SetPeriodCorrected(l, differs).thrown.None?
    ensures SinglePoll(l) ==> SinglePoll(SetPeriodCorrected(l, differs).next)
  {
  }

  lemma WriteKeepsConsistent(l: Lifecycle, key: ItemKey, value: ByteArray, future: FutureId)
    requires Consistent(l)
    ensures Consistent(Write(l, key, value, future).next)
    ensures SinglePoll(l) ==> SinglePoll(Write(l, key, value, future).next)
    ensures Write(l, key, value, future).thrown.Some? ==> l.state != Active
  {
  }

  lemma RunTaskKeepsConsistent(l: Lifecycle, h: Handle)
    requires Consistent(l) && h in l.exec.pending
    ensures Consistent(RunTask(l, h).next) && RunTask(l, h).thrown.None?
    ensures SinglePoll(l) ==> SinglePoll(RunTask(l, h).next)
  {
  }

  lemma CancelWriteKeepsConsistent(l: Lifecycle, h: Handle)
    requires Consistent(l)
    ensures Consistent(CancelWrite(l, h).next)
    ensures SinglePoll(l) ==> SinglePoll(CancelWrite(l, h).next)
  {
  }

  /**
   * Every step keeps `Consistent`; from a consistent state the only
   * exception a call throws is `write`'s outside `Active` (no submission is
   * ever rejected). Every step but the as-written `setPeriod` also keeps
   * `SinglePoll`.
   */
  lemma StepKeepsConsistent(l: Lifecycle, op: Op)
    requires Consistent(l)
    ensures Consistent(Apply(l, op).next)
    ensures Apply(l, op).thrown.Some? ==> Apply(l, op).thrown == Some(IllegalState(NOT_ACTIVE))
    ensures SinglePoll(l) && !op.SetPeriodOp? ==> SinglePoll(Apply(l, op).next)
  {
    match op
    case StartOp => StartKeepsConsistent(l);
    case StopOp => StopKeepsConsistent(l);
    case CloseOp => CloseKeepsConsistent(l);
    case SetPeriodOp(differs) => SetPeriodKeepsConsistent(l, differs);
    case SetPeriodCorrectedOp(differs) => SetPeriodKeepsConsistent(l, differs);
    case WriteOp(key, value, future) => WriteKeepsConsistent(l, key, value, future);
    case CancelWriteOp(h) => CancelWriteKeepsConsistent(l, h);
    case RunOp(h) => if h in l.exec.pending { RunTaskKeepsConsistent(l, h); }
  }

  /**
   * Every state reachable from a consistent one is consistent, and the
   * only exception ever thrown is `write`'s "Connection not active".
   */
  lemma {:induction false} RunKeepsConsistent(l: Lifecycle, ops: seq<Op>)
    requires Consistent(l)
    ensures Consistent(Run(l, ops).last)
    ensures forall e :: e in Run(l, ops).thrown ==> e == IllegalState(NOT_ACTIVE)
    ensures SinglePoll(l) && (forall i :: 0 <= i < |ops| ==> !ops[i].SetPeriodOp?) ==> SinglePoll(Run(l, ops).last)
    decreases |ops|
  {
    if ops != [] {
      StepKeepsConsistent(l, ops[0]);
      RunKeepsConsistent(Apply(l, ops[0]).next, ops[1..]);
    }
  }

  /**
   * The executor is shut down at most once over any run of a new
   * connection, and it is shut down exactly when the connection is
   * `Closed` and no deactivation is still pending.
   */
  lemma ShutdownAtMostOnce(ops: seq<Op>)
    ensures var last := Run(Initial, ops).last;
      && last.exec.shutdownCalls <= 1
      && (last.exec.shutdownCalls == 1 <==> last.state == Closed && last.deactivateJob.None?)
  {
    InitialConsistent();
    RunKeepsConsistent(Initial, ops);
  }

  /** `Closed` is final: no call leaves it and every state entered afterwards is `Closed`. */
  lemma {:induction false} ClosedIsTerminal(l: Lifecycle, ops: seq<Op>)
    requires Consistent(l) && l.state == Closed
    ensures Run(l, ops).last.state == Closed
    ensures forall s :: s in Run(l, ops).entered ==> s == Closed
    decreases |ops|
  {
    if ops != [] {
      StepKeepsConsistent(l, ops[0]);
      if ops[0].RunOp? && ops[0].h in l.exec.pending && l.exec.pending[ops[0].h].job.DeactivateJob? {
        assert l.closeFlag;
      }
      ClosedIsTerminal(Apply(l, ops[0]).next, ops[1..]);
    }
  }

  /** At most one poll task is ever pending, and none in `Idle`. */
  lemma SinglePollMeansOnePoll(l: Lifecycle)
    requires Consistent(l) && SinglePoll(l)
    ensures |PeriodicHandles(l.exec)| <= 1
    ensures l.state == Idle ==> PeriodicHandles(l.exec) == {}
  {
    var p := PeriodicHandles(l.exec);
    if l.pollJob.Some? && l.deactivateJob.None? && l.pollJob.value in p {
      assert p == {l.pollJob.value};
    } else {
      assert p == {};
    }
  }

  /**
   * `start` from `Idle` enters `Active` (reported to the listener) and
   * schedules exactly one new periodic poll, which becomes `pollJob`.
   */
  lemma StartFromIdle(l: Lifecycle)
    requires Consistent(l) && l.state == Idle
    ensures var t := Start(l);
      && t.thrown.None? && t.entered == [Active]
      && t.next == l.(state := Active, pollJob := Some(l.exec.nextHandle),
                      exec := l.exec.(pending := l.exec.pending[l.exec.nextHandle := Task(PollJob, true)],
                                      nextHandle := l.exec.nextHandle + 1))
  {
  }

  /**
   * `stop` cancels the poll task and queues one deactivation task; the state
   * stays `Active` until it runs, so a `start` meanwhile does nothing.
   */
  lemma StopQueuesDeactivation(l: Lifecycle)
    requires Consistent(l) && l.state == Active && l.deactivateJob.None?
    ensures var t := Stop(l);
      var d := l.exec.nextHandle;
      && t.thrown.None? && t.entered == []
      && t.next.state == Active && t.next.deactivateJob == Some(d)
      && t.next.exec.pending == (l.exec.pending - {l.pollJob.value})[d := Task(DeactivateJob, false)]
      && Start(t.next) == Unchanged(t.next)
  {
  }

  /** After `stop`, running the deactivation task ends in `Idle` with no task handle held and no poll left. */
  lemma StopThenDeactivateEndsIdle(l: Lifecycle)
    requires Consistent(l) && SinglePoll(l) && l.state == Active && l.deactivateJob.None?
    ensures var s := Stop(l).next;
      && s.deactivateJob.Some? && s.deactivateJob.value in s.exec.pending
      && var t := RunTask(s, s.deactivateJob.value);
      && t.entered == [Idle] && t.next.state == Idle
      && t.next.pollJob.None? && t.next.deactivateJob.None?
      && !t.next.exec.isShutdown
      && PeriodicHandles(t.next.exec) == {}
  {
    StopKeepsConsistent(l);
    var s := Stop(l).next;
    RunTaskKeepsConsistent(s, s.deactivateJob.value);
    SinglePollMeansOnePoll(RunTask(s, s.deactivateJob.value).next);
  }

  /** `close` from `Idle` shuts the executor down at once. */
  lemma CloseFromIdle(l: Lifecycle)
    requires Consistent(l) && l.state == Idle
    ensures var t := Close(l);
      && t.entered == [Closed] && t.next.state == Closed
      && t.next.exec.isShutdown && t.next.exec.shutdownCalls == 1
      && Close(t.next) == Unchanged(t.next)
  {
  }

  /**
   * `close` from `Active` enters `Closed` at once and leaves the shutdown to
   * the deactivation task, which shuts the executor down exactly once and
   * reports `Closed` to the listener a second time.
   */
  lemma CloseFromActive(l: Lifecycle)
    requires Consistent(l) && l.state == Active
    ensures var t := Close(l);
      && t.entered == [Closed] && t.next.state == Closed && t.next.closeFlag
      && !t.next.exec.isShutdown && t.next.deactivateJob.Some?
      && Close(t.next) == Unchanged(t.next)
      && var d := RunTask(t.next, t.next.deactivateJob.value);
      && d.entered == [Closed] && d.next.state == Closed
      && d.next.exec.isShutdown && d.next.exec.shutdownCalls == 1
      && PeriodicHandles(d.next.exec) == {}
  {
    CloseKeepsConsistent(l);
    if l.deactivateJob.None? {
      StopKeepsConsistent(l);
    }
  }

  /**
   * The as-written `setPeriod` during a pending deactivation leaves a poll
   * running in `Idle`, and a later `start` then runs two polls at once.
   */
  lemma OrphanPollAfterSetPeriod()
    ensures var idle := Run(Initial, [StartOp, StopOp, SetPeriodOp(true), RunOp(1)]).last;
      && idle.state == Idle && idle.pollJob.None?
      && PeriodicHandles(idle.exec) == {2}
      && PeriodicHandles(Start(idle).next.exec) == {2, 3}
  {
    var l1 := Start(Initial).next;
    assert l1 == Lifecycle(Active, Some(0), None, false, Executor(map[0 := Task(PollJob, true)], false, 0, 1));
    var l2 := Stop(l1).next;
    assert l2 == l1.(deactivateJob := Some(1), exec := Executor(map[1 := Task(DeactivateJob, false)], false, 0, 2));
    var l3 := SetPeriod(l2, true).next;
    assert l3 == l2.(pollJob := Some(2), exec := Executor(map[1 := Task(DeactivateJob, false), 2 := Task(PollJob, true)], false, 0, 3));
    var l4 := RunTask(l3, 1).next;
    assert l4 == Lifecycle(Idle, None, None, false, Executor(map[2 := Task(PollJob, true)], false, 0, 3));
    assert Run(Initial, [StartOp, StopOp, SetPeriodOp(true), RunOp(1)]).last == l4;
    PeriodicHandlesOfPolls(l4.exec, {2});
    PeriodicHandlesOfPolls(Start(l4).next.exec, {2, 3});
  }

  /** When exactly the handles `hs` are pending, all of them polls, they are the periodic handles. */
  lemma PeriodicHandlesOfPolls(e: Executor, hs: set<Handle>)
    requires e.pending.Keys == hs
    requires forall h :: h in hs ==> e.pending[h] == Task(PollJob, true)
    ensures PeriodicHandles(e) == hs
  {
  }

  /** With the corrected `setPeriod`, no run of a new connection ever holds more than one poll. */
  lemma CorrectedRunsKeepOnePoll(ops: seq<Op>)
    requires forall i :: 0 <= i < |ops| ==> !ops[i].SetPeriodOp?
    ensures |PeriodicHandles(Run(Initial, ops).last.exec)| <= 1
    ensures Run(Initial, ops).last.state == Idle ==> PeriodicHandles(Run(Initial, ops).last.exec) == {}
  {
    InitialConsistent();
    RunKeepsConsistent(Initial, ops);
    SinglePollMeansOnePoll(Run(Initial, ops).last);
  }
}
