/** One row of the durable job queue: the compare-and-set operations of the call repository
    on a (type, target) job. Times are abstracted: a queued job may be claimed at any moment and
    a lease may run out at any moment, so every result holds for every timing. */
module DurableJobs {

  /** `Running` carries the unique worker id of one claim; it is the fence of every later write. */
  datatype JobStatus =
    | Absent
    | Queued
    | Running(owner: nat, expired: bool)
    | Succeeded
    | DeadLetter
    | Cancelled

  datatype Job = Job(status: JobStatus, attemptCount: nat, maxAttempts: nat)

  const NO_JOB := Job(Absent, 0, 0)

  predicate Outstanding(j: Job) {
    j.status.Queued? || j.status.Running?
  }

  predicate LeaseValid(j: Job, owner: nat) {
    j.status == Running(owner, false)
  }

  /** Creates the job, restarts a finished one when asked to, and leaves anything else in place. */
  function Enqueue(j: Job, maxAttempts: nat, restartTerminal: bool): Job {
    match j.status
    case Absent => Job(Queued, 0, maxAttempts)
    case Succeeded => if restartTerminal then Job(Queued, 0, maxAttempts) else j
    case DeadLetter => if restartTerminal then Job(Queued, 0, maxAttempts) else j
    case _ => j
  }

  function Claim(j: Job, owner: nat): Job {
    if j.status.Queued? then Job(Running(owner, false), j.attemptCount + 1, j.maxAttempts) else j
  }

  function ExpireLease(j: Job): Job {
    if j.status.Running? then j.(status := Running(j.status.owner, true)) else j
  }

  /** The sweep at the head of every claim: a job whose lease ran out is retried or given up. */
  function Sweep(j: Job): Job {
    if j.status.Running? && j.status.expired then
      j.(status := if j.attemptCount >= j.maxAttempts then DeadLetter else Queued)
    else j
  }

  function Complete(j: Job, owner: nat): Job {
    if LeaseValid(j, owner) then j.(status := Succeeded) else j
  }

  /** A deferred failure gives its attempt back and is queued again whatever `retryable` says. */
  function Fail(j: Job, owner: nat, retryable: bool, deferred: bool): Job {
    if !LeaseValid(j, owner) then j
    else if deferred then Job(Queued, if j.attemptCount == 0 then 0 else j.attemptCount - 1, j.maxAttempts)
    else j.(status := if !retryable || j.attemptCount >= j.maxAttempts then DeadLetter else Queued)
  }

  function Cancel(j: Job): Job {
    if Outstanding(j) then j.(status := Cancelled) else j
  }

  /** An administrator may put a dead job back in the queue. */
  function AdminRetry(j: Job): Job {
    if j.status.DeadLetter? then Job(Queued, 0, j.maxAttempts) else j
  }
}
