/**
 * The single-thread `ScheduledExecutorService` both connection classes
 * submit to, as an explicit set of pending tasks. The caller chooses which
 * pending task runs next, as a test does when it captures a submitted
 * `Runnable` and invokes it. Semantics kept from the JDK's scheduled
 * executor: a submission after `shutdown` is rejected; `shutdown` discards
 * periodic tasks and keeps one-shot ones; a periodic task whose run throws
 * is not run again; `cancel` succeeds only on a task still pending.
 */
module Scheduling {
  import opened JavaHash
  import opened ItemKeys
  import opened Connector

  type Handle = nat

  type FutureId = nat

  /** The three kinds of work the runtime submits. */
  datatype Job =
    | PollJob
    | DeactivateJob
    | WriteJob(key: ItemKey, value: ByteArray, future: FutureId)

  datatype Task = Task(job: Job, periodic: bool)

  datatype Submission = Accepted(exec: Executor, handle: Handle) | Rejected

  datatype Executor = Executor(pending: map<Handle, Task>, isShutdown: bool, shutdownCalls: nat, nextHandle: Handle)
  {
    /** Every pending handle was issued before. */
    ghost predicate Valid()
    {
      forall h :: h in pending ==> h < nextHandle
    }

    /** `schedule` / `scheduleAtFixedRate`: a fresh handle for exactly one new task, or rejection after shutdown. */
    function Submit(job: Job, periodic: bool): (s: Submission)
      requires Valid()
      ensures s.Rejected? <==> isShutdown
      ensures s.Accepted? ==>
        && s.handle !in pending
        && s.exec.Valid()
        && s.exec.pending == pending[s.handle := Task(job, periodic)]
        && s.exec.isShutdown == isShutdown
        && s.exec.shutdownCalls == shutdownCalls
    {
      if isShutdown then Rejected
      else Accepted(this.(pending := pending[nextHandle := Task(job, periodic)], nextHandle := nextHandle + 1), nextHandle)
    }

    /** `ScheduledFuture.cancel`: true exactly when the task was still pending; it is then gone. */
    function Cancel(h: Handle): (r: (Executor, bool))
      ensures r.1 <==> h in pending
      ensures r.0.pending == pending - {h}
      ensures r.0.isShutdown == isShutdown && r.0.shutdownCalls == shutdownCalls && r.0.nextHandle == nextHandle
    {
      (this.(pending := pending - {h}), h in pending)
    }

    /** `shutdown`: no further submissions; periodic tasks are dropped, one-shot tasks stay. */
    function Shutdown(): (e: Executor)
      ensures e.isShutdown && e.shutdownCalls == shutdownCalls + 1 && e.nextHandle == nextHandle
      ensures forall h :: h in e.pending <==> h in pending && !pending[h].periodic
      ensures forall h :: h in e.pending ==> e.pending[h] == pending[h]
    {
      this.(pending := map h | h in pending && !pending[h].periodic :: pending[h],
            isShutdown := true, shutdownCalls := shutdownCalls + 1)
    }

    /** The task `h` has run: a one-shot task is done, a periodic one stays unless its run threw. */
    function Finish(h: Handle, threw: bool): (e: Executor)
      requires h in pending
      ensures (h in e.pending) <==> (pending[h].periodic && !threw)
      ensures e.pending - {h} == pending - {h}
      ensures h in e.pending ==> e.pending[h] == pending[h]
      ensures e.isShutdown == isShutdown && e.shutdownCalls == shutdownCalls && e.nextHandle == nextHandle
    {
      if pending[h].periodic && !threw then this else this.(pending := pending - {h})
    }
  }

  /** `java.time.Duration`; the runtime compares periods by reference. */
  class Duration {
    const millis: nat

    constructor(millis: nat)
      ensures this.millis == millis
    {
      this.millis := millis;
    }
  }

  /** The completion state of a `CompletableFuture<Void>`. */
  datatype FutureStatus = Pending | Completed | Failed(error: Thrown) | Cancelled

  /** A newly built executor. */
  const Fresh: Executor := Executor(map[], false, 0, 0)

  /** Handles of the periodic (poll) tasks still pending. */
  function PeriodicHandles(e: Executor): set<Handle>
  {
    set h | h in e.pending && e.pending[h].periodic
  }
}
