/**
 * The scheduling of `S7BaseConnectionHolder`, a simpler profile than
 * `AsyncLifecycle`: no state enumeration, only the poll task handle `job`
 * and whether the executor has been shut down.
 */
module HolderLifecycle {
  import opened Wrappers
  import opened JavaHash
  import opened ItemKeys
  import opened Connector
  import opened Scheduling

  datatype HolderLife = HolderLife(job: Option<Handle>, exec: Executor)

  /** One public call: the new scheduling state and the exception thrown to the caller, if any. */
  datatype Step = Step(next: HolderLife, thrown: Option<Thrown>)

  const ENDPOINT_CLOSED: string := "Endpoint is closed"
  const NOT_STARTED: string := "Endpoint not started"

  const Initial: HolderLife := HolderLife(None, Fresh)

  /** `start`: refused once the executor is shut down; schedules the poll only when no `job` is held. */
  function Start(l: HolderLife): (s: Step)
    requires l.exec.Valid()
    ensures s.next.exec.Valid()
    ensures l.exec.isShutdown ==> s == Step(l, Some(IllegalState(ENDPOINT_CLOSED)))
    ensures !l.exec.isShutdown && l.job.Some? ==> s == Step(l, None)
  {
    if l.exec.isShutdown then Step(l, Some(IllegalState(ENDPOINT_CLOSED)))
    else if l.job.Some? then Step(l, None)
    else
      match l.exec.Submit(PollJob, true)
      case Rejected => Step(l, Some(RejectedExecution))
      case Accepted(e, h) => Step(HolderLife(Some(h), e), None)
  }

  /** `write`: refused while no `job` is held; otherwise one one-shot write task, whose handle is its future. */
  function Write(l: HolderLife, key: ItemKey, value: ByteArray): (s: Step)
    requires l.exec.Valid()
    ensures s.next.exec.Valid()
    ensures l.job.None? ==> s == Step(l, Some(IllegalState(NOT_STARTED)))
  {
    if l.job.None? then Step(l, Some(IllegalState(NOT_STARTED)))
    else
      match l.exec.Submit(WriteJob(key, value, l.exec.nextHandle), false)
      case Rejected => Step(l, Some(RejectedExecution))
      case Accepted(e, _) => Step(l.(exec := e), None)
  }

  /** `close`: unless already shut down, shut the executor down and forget `job`. */
  function Close(l: HolderLife): (s: Step)
    ensures s.thrown.None?
    ensures l.exec.isShutdown ==> s.next == l
    ensures !l.exec.isShutdown ==> s.next.exec.isShutdown && s.next.job.None? && s.next.exec.shutdownCalls == l.exec.shutdownCalls + 1
  {
    if !l.exec.isShutdown then Step(HolderLife(None, l.exec.Shutdown()), None)
    else Step(l, None)
  }

  /** `setPeriod`: with a different `Duration` and a `job` held, cancel it and schedule a new poll. */
  function SetPeriod(l: HolderLife, differs: bool): (s: Step)
    requires l.exec.Valid()
    ensures s.next.exec.Valid()
    ensures !differs || l.job.None? ==> s == Step(l, None)
  {
    if !differs || l.job.None? then Step(l, None)
    else
      var exec := l.exec.Cancel(l.job.value).0;
      match exec.Submit(PollJob, true)
      case Rejected => Step(l.(exec := exec), Some(RejectedExecution))
      case Accepted(e, h) => Step(HolderLife(Some(h), e), None)
  }

  /** The executor ran task `h`; `threw` says whether its run raised an exception. */
  function RunTask(l: HolderLife, h: Handle, threw: bool): (s: Step)
    requires h in l.exec.pending
    ensures s.next.job == l.job && s.thrown.None?
  {
    Step(l.(exec := l.exec.Finish(h, threw)), None)
  }

  /** A returned write future's `cancel`: the task goes if it had not run yet. */
  function CancelWrite(l: HolderLife, h: Handle): (s: Step)
    ensures h in l.exec.pending && l.exec.pending[h].job.WriteJob? ==> h !in s.next.exec.pending
  {
    if h in l.exec.pending && l.exec.pending[h].job.WriteJob? then Step(l.(exec := l.exec.Cancel(h).0), None)
    else Step(l, None)
  }

  datatype Op =
    | StartOp
    | CloseOp
    | SetPeriodOp(differs: bool)
    | WriteOp(key: ItemKey, value: ByteArray)
    | CancelWriteOp(h: Handle)
    | RunOp(h: Handle, threw: bool)

  function Apply(l: HolderLife, op: Op): (s: Step)
    requires l.exec.Valid()
    ensures s.next.exec.Valid()
  {
    match op
    case StartOp => Start(l)
    case CloseOp => Close(l)
    case SetPeriodOp(differs) => SetPeriod(l, differs)
    case WriteOp(key, value) => Write(l, key, value)
    case CancelWriteOp(h) => CancelWrite(l, h)
    case RunOp(h, threw) => if h in l.exec.pending then RunTask(l, h, threw) else Step(l, None)
  }

  function Run(l: HolderLife, ops: seq<Op>): (r: HolderLife)
    requires l.exec.Valid()
    ensures r.exec.Valid()
    decreases |ops|
  {
    if ops == [] then l else Run(Apply(l, ops[0]).next, ops[1..])
  }

  /**
   * What holds between calls: a held `job` means the executor is still
   * running; it was shut down at most once; the only periodic task that
   * can be pending is `job`'s; no deactivation task is ever queued.
   */
  ghost predicate Consistent(l: HolderLife)
  {
    && l.exec.Valid()
    && (l.job.Some? ==> !l.exec.isShutdown && l.job.value < l.exec.nextHandle)
    && l.exec.shutdownCalls == (if l.exec.isShutdown then 1 else 0)
    && (forall h :: h in l.exec.pending ==> !l.exec.pending[h].job.DeactivateJob?)
    && (forall h :: h in l.exec.pending && l.exec.pending[h].periodic ==> l.job == Some(h))
    && (forall h :: h in l.exec.pending && l.exec.pending[h].job.PollJob? ==> l.exec.pending[h].periodic)
  }

  lemma InitialConsistent()
    ensures Consistent(Initial)
  {
  }

  /**
   * Every call keeps `Consistent`, and from a consistent state the only
   * exceptions thrown to a caller are `start` after `close` and `write`
   * before `start`.
   */
  lemma StepKeepsConsistent(l: HolderLife, op: Op)
    requires Consistent(l)
    ensures Consistent(Apply(l, op).next)
    ensures Apply(l, op).thrown.Some? ==>
      || (op.StartOp? && l.exec.isShutdown && Apply(l, op).thrown == Some(IllegalState(ENDPOINT_CLOSED)))
      || (op.WriteOp? && l.job.None? && Apply(l, op).thrown == Some(IllegalState(NOT_STARTED)))
  {
  }

  /** Over any run of a new holder the executor is shut down at most once. */
  lemma {:induction false} RunKeepsConsistent(l: HolderLife, ops: seq<Op>)
    requires Consistent(l)
    ensures Consistent(Run(l, ops))
    ensures Run(l, ops).exec.shutdownCalls <= 1
    decreases |ops|
  {
    if ops != [] {
      StepKeepsConsistent(l, ops[0]);
      RunKeepsConsistent(Apply(l, ops[0]).next, ops[1..]);
    }
  }

  /** `start` twice schedules once: the second call changes nothing. */
  lemma StartIsIdempotent(l: HolderLife)
    requires Consistent(l) && !l.exec.isShutdown
    ensures var once := Start(l);
      && once.thrown.None? && once.next.job.Some?
      && Start(once.next) == Step(once.next, None)
      && (l.job.None? ==> PeriodicHandles(once.next.exec) == PeriodicHandles(l.exec) + {once.next.job.value})
  {
    var once := Start(l);
    if l.job.None? {
      assert PeriodicHandles(once.next.exec) == PeriodicHandles(l.exec) + {once.next.job.value};
    }
  }

  /** `close` shuts the executor down once; a second `close` changes nothing and a later `start` throws. */
  lemma CloseIsFinal(l: HolderLife)
    requires Consistent(l)
    ensures var c := Close(l).next;
      && c.exec.isShutdown && c.exec.shutdownCalls == 1 && c.job.None?
      && PeriodicHandles(c.exec) == {}
      && Close(c).next == c
      && Start(c) == Step(c, Some(IllegalState(ENDPOINT_CLOSED)))
  {
  }

  /** `write` with a `job` held queues exactly one one-shot write task under a fresh handle. */
  lemma WriteWhenStarted(l: HolderLife, key: ItemKey, value: ByteArray)
    requires Consistent(l) && l.job.Some?
    ensures var s := Write(l, key, value);
      var h := l.exec.nextHandle;
      && s.thrown.None? && s.next.job == l.job
      && s.next.exec.pending == l.exec.pending[h := Task(WriteJob(key, value, h), false)]
  {
  }

  /**
   * A poll whose run throws (no connection could be established) is
   * dropped by the executor while `job` still names it, so `start` never
   * schedules a poll again: polling has stopped for good, until a
   * `setPeriod` with a new `Duration` reschedules it.
   */
  lemma PollFailureStopsPolling(l: HolderLife, h: Handle)
    requires Consistent(l) && h in l.exec.pending && l.exec.pending[h].job.PollJob?
    ensures var f := RunTask(l, h, true).next;
      && f.job == Some(h)
      && PeriodicHandles(f.exec) == {}
      && Start(f) == Step(f, None)
      && PeriodicHandles(SetPeriod(f, true).next.exec) == {f.exec.nextHandle}
  {
    var f := RunTask(l, h, true).next;
    assert PeriodicHandles(f.exec) == {};
    var g := SetPeriod(f, true).next;
    assert PeriodicHandles(g.exec) == {f.exec.nextHandle};
  }
}
