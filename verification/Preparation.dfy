/** One brief-compilation job: its attempts, their retries and deferrals, and its fixed deadline. */
module Preparation {
  import opened DurableJobs

  const DAY_MS: nat := 86_400_000
  const MAX_RETRY_DELAY_MS: nat := 900_000
  const MIN_RETRY_DELAY_MS: nat := 5_000
  const LEASE_MS: nat := 120_000
  const MAX_ATTEMPTS: nat := 3

  function Min(a: int, b: int): int { if a < b then a else b }
  function Max(a: int, b: int): int { if a > b then a else b }

  function Pow2(n: nat): (r: nat)
    ensures r >= 1
  {
    if n == 0 then 1 else 2 * Pow2(n - 1)
  }

  /** The delay doubles with every counted attempt, between five seconds and a quarter of an hour. */
  function RetryDelay(attempt: nat): (ms: nat)
    ensures MIN_RETRY_DELAY_MS <= ms <= MAX_RETRY_DELAY_MS
  {
    Min(MAX_RETRY_DELAY_MS, MIN_RETRY_DELAY_MS * Pow2(Max(1, attempt) - 1))
  }

  /** The first delay is the shortest, and each further one twice as long until the longest. */
  lemma DelaysDouble(attempt: nat)
    ensures RetryDelay(0) == RetryDelay(1) == MIN_RETRY_DELAY_MS
    ensures attempt >= 1 ==> RetryDelay(attempt + 1) == Min(MAX_RETRY_DELAY_MS, 2 * RetryDelay(attempt))
  {
    assert Pow2(0) == 1;
    if attempt >= 1 { assert Pow2(attempt) == 2 * Pow2(attempt - 1); }
  }

  /** How an attempt may fail; `retryAfterMs` is clamped to a day by the error itself. */
  datatype Failure = Failure(retryable: bool, deferred: bool, retryAfterMs: nat)

  function JobFailure(retryable: bool, deferred: bool, retryAfterMs: int): Failure {
    Failure(retryable, deferred, Min(DAY_MS, Max(0, retryAfterMs)))
  }

  /** What the compiler and the repository do in one attempt. */
  datatype Compilation =
    | Compiled
    | CompilerError(retryable: bool, retryAfterMs: nat)
    | ProviderBusy(retryAfterMs: nat)
    | SpendingDenied
    | RepositoryRefuses
    | OtherError

  /** `committed` says whether a failing publication was written nevertheless. */
  datatype Publication = Published | PublicationFails(committed: bool, refuses: bool)

  datatype Work = Work(createdAt: nat, policyTimeoutMs: nat, hasInput: bool)

  /** One attempt as the outside decides it. */
  datatype Attempt = Attempt(
    waitMs: nat,              // from the moment the job is due to its claim
    leaseLost: bool,          // the claim of the preparation is refused
    compilation: Compilation,
    compileMs: nat,
    aborted: bool,            // the lease signal after the compilation
    publication: Publication,
    reviewFails: bool,        // the automatic plan review could not be queued
    dies: bool,               // the worker never reports back
    reportMs: nat)

  /** Fixed when the preparation was created: nothing an attempt does enters it. */
  function DeadlineOf(work: Work, serviceTimeoutMs: nat): nat {
    work.createdAt + Min(serviceTimeoutMs, work.policyTimeoutMs)
  }

  /** What the catch block makes of a failed compilation: a compiler error is retried only if its delay
      ends before the deadline; a busy provider is deferred, which does not count as an attempt. */
  function MapError(deadline: nat, now: nat, c: Compilation): (f: Failure)
    ensures f.deferred <==> c.ProviderBusy?
    ensures c.CompilerError? ==> (f.retryable <==> c.retryable && now + Max(5_000, c.retryAfterMs) < deadline)
    ensures c.ProviderBusy? ==> (f.retryable <==> now + c.retryAfterMs < deadline)
    ensures c.SpendingDenied? || c.RepositoryRefuses? ==> !f.retryable
    ensures c.Compiled? || c.OtherError? ==> f.retryable
    // The delay asked for is kept up to a day; nobody else asks for one.
    ensures f.retryAfterMs <= DAY_MS
    ensures c.CompilerError? || c.ProviderBusy? ==>
      f.retryAfterMs == c.retryAfterMs || (f.retryAfterMs == DAY_MS <= c.retryAfterMs)
    ensures !c.CompilerError? && !c.ProviderBusy? ==> f.retryAfterMs == 0
  {
    match c
    case CompilerError(retryable, after) => JobFailure(retryable && now + Max(5_000, after) < deadline, false, after)
    case ProviderBusy(after) => JobFailure(now + after < deadline, true, after)
    case SpendingDenied => JobFailure(false, false, 0)
    case RepositoryRefuses => JobFailure(false, false, 0)
    case _ => JobFailure(true, false, 0)
  }

  datatype Result = Finished | FailedWith(failure: Failure)

  class PreparationJob {
    const work: Work
    const serviceTimeoutMs: nat
    const world: nat -> Attempt
    var job: Job
    var now: nat
    var attempts: nat
    var succeeded: bool           // the status of the preparation row
    var publications: seq<nat>    // the clock reading of the last check before each publication

    constructor (work: Work, serviceTimeoutMs: nat, now: nat, world: nat -> Attempt)
      ensures this.work == work && this.serviceTimeoutMs == serviceTimeoutMs && this.world == world
      ensures job == Job(Queued, 0, MAX_ATTEMPTS) && this.now == now && attempts == 0
      ensures !succeeded && publications == []
    {
      this.work, this.serviceTimeoutMs, this.world, this.now := work, serviceTimeoutMs, world, now;
      job, attempts, succeeded, publications := Job(Queued, 0, MAX_ATTEMPTS), 0, false, [];
    }

    function Deadline(): nat {
      DeadlineOf(work, serviceTimeoutMs)
    }

    ghost predicate Valid()
      reads this
    {
      && job.maxAttempts == MAX_ATTEMPTS
      && job.attemptCount <= MAX_ATTEMPTS
      && (job.status.Queued? ==> job.attemptCount < MAX_ATTEMPTS)
      && (publications != [] ==> succeeded)
      && |publications| <= 1
      && forall t :: t in publications ==> t < Deadline()
    }

    /** The attempt reaches its publication: it holds the lease, has its input, and is in time twice. */
    predicate InTime(a: Attempt, start: nat) {
      && !a.leaseLost && work.hasInput && start < Deadline()
      && a.compilation.Compiled? && !a.aborted && start + a.compileMs < Deadline()
    }

    /** The handler of one attempt. An attempt that starts at or after the deadline fails for good,
        a publication follows two deadline checks and the abort check, and a deferral or a retry is
        asked for only by an attempt that started in time. */
    method Process(a: Attempt) returns (r: Result)
      requires Valid()
      modifies this`now, this`succeeded, this`publications
      ensures Valid() && now >= old(now)
      ensures old(succeeded) ==> succeeded && publications == old(publications)
      ensures publications != old(publications) ==>
        && publications == [now] && now < Deadline() && !a.aborted && a.compilation.Compiled?
        && old(now) < Deadline() && work.hasInput
      ensures !old(succeeded) && !a.leaseLost && old(now) >= Deadline() ==>
        r.FailedWith? && !r.failure.retryable && !r.failure.deferred && publications == old(publications) && !succeeded
      ensures r.FailedWith? && r.failure.deferred ==> old(now) < Deadline()
      ensures r.Finished? ==> succeeded
      // An attempt in time that nothing stops publishes, and its answer says whether all went well.
      ensures !old(succeeded) && InTime(a, old(now)) ==>
        succeeded == (a.publication.Published? || a.publication.committed)
      ensures !a.leaseLost && (old(succeeded) || (InTime(a, old(now)) && a.publication.Published?)) ==>
        if a.reviewFails then r == FailedWith(JobFailure(true, false, 0)) else r.Finished?
      ensures !old(succeeded) && InTime(a, old(now)) && a.publication.PublicationFails? ==>
        r == FailedWith(JobFailure(!a.publication.refuses, false, 0))
      // What goes wrong is tried again, unless it cannot go right.
      ensures !old(succeeded) && !a.leaseLost && work.hasInput && old(now) < Deadline() && !a.compilation.Compiled? ==>
        r == FailedWith(MapError(Deadline(), now, a.compilation)) && now == old(now) + a.compileMs
      ensures a.leaseLost ==> r == FailedWith(JobFailure(true, false, 0)) && publications == old(publications)
      ensures !old(succeeded) && work.hasInput && old(now) < Deadline() && a.compilation.Compiled? && a.aborted ==>
        r == FailedWith(JobFailure(true, false, 0)) && publications == old(publications)
      ensures !old(succeeded) && !a.leaseLost && !work.hasInput ==> r == FailedWith(JobFailure(false, false, 0))
      ensures var compiled := !a.leaseLost && work.hasInput && a.compilation.Compiled? && !a.aborted;
        !old(succeeded) && compiled && !InTime(a, old(now)) ==>
          r == FailedWith(JobFailure(false, false, 0)) && publications == old(publications)
    {
      if a.leaseLost { return FailedWith(JobFailure(true, false, 0)); }
      if succeeded {
        return if a.reviewFails then FailedWith(JobFailure(true, false, 0)) else Finished;
      }
      if !work.hasInput { return FailedWith(JobFailure(false, false, 0)); }
      if now >= Deadline() { return FailedWith(JobFailure(false, false, 0)); }
      now := now + a.compileMs;
      if !a.compilation.Compiled? {
        r := FailedWith(MapError(Deadline(), now, a.compilation));
        return;
      }
      if a.aborted { return FailedWith(JobFailure(true, false, 0)); }
      if now >= Deadline() { return FailedWith(JobFailure(false, false, 0)); }
      if a.publication.Published? || a.publication.committed {
        publications, succeeded := publications + [now], true;
      }
      if a.publication.PublicationFails? { return FailedWith(JobFailure(!a.publication.refuses, false, 0)); }
      return if a.reviewFails then FailedWith(JobFailure(true, false, 0)) else Finished;
    }

    /** One turn of the worker: claim when due, run the handler, report; or vanish and let the lease
        run out. Time moves on by five seconds at least, and an attempt that began at or after the
        deadline is counted and never deferred. */
    method Turn()
      requires Valid() && job.status.Queued?
      modifies this
      ensures Valid() && !job.status.Running? && !job.status.Absent? && !job.status.Cancelled?
      ensures attempts == old(attempts) + 1
      ensures job.status.Queued? ==> now >= old(now) + MIN_RETRY_DELAY_MS
      ensures job.status.Queued? && old(now) >= Deadline() ==> job.attemptCount == old(job.attemptCount) + 1
      ensures job.status.Succeeded? ==> succeeded
      ensures old(publications) <= publications
      ensures now >= old(now) + world(old(attempts)).waitMs + world(old(attempts)).reportMs
      // An attempt that publishes in time, or finds the brief published, settles the job.
      ensures var a := world(old(attempts));
        var finds := old(succeeded) || (InTime(a, old(now) + a.waitMs) && a.publication.Published?);
        !a.dies && !a.leaseLost && !a.reviewFails && finds ==> job.status.Succeeded?
      // One that cannot publish any more gives it up; one that is lost is made up for while attempts are left.
      ensures var a := world(old(attempts));
        var tooLate := !work.hasInput || old(now) + a.waitMs >= Deadline();
        !a.dies && !a.leaseLost && !old(succeeded) && tooLate ==> job.status.DeadLetter?
      ensures world(old(attempts)).dies || world(old(attempts)).leaseLost ==>
        (job.status.Queued? <==> old(job.attemptCount) + 1 < MAX_ATTEMPTS) && !job.status.Succeeded?
      // A busy provider costs no attempt.
      ensures var a := world(old(attempts));
        var busy := work.hasInput && old(now) + a.waitMs < Deadline() && a.compilation.ProviderBusy?;
        !a.dies && !a.leaseLost && !old(succeeded) && busy ==>
          job.status.Queued? && job.attemptCount == old(job.attemptCount)
    {
      var a := world(attempts);
      now, attempts := now + a.waitMs, attempts + 1;
      var claimed := Claim(job, attempts);
      job := claimed;
      if a.dies {
        now := now + LEASE_MS + a.reportMs;
        job := Sweep(ExpireLease(job));
        return;
      }
      var r := Process(a);
      now := now + a.reportMs;
      match r
      case Finished => job := Complete(job, attempts);
      case FailedWith(f) =>
        job := Fail(job, attempts, f.retryable, f.deferred);
        if job.status.Queued? { now := now + Max(RetryDelay(claimed.attemptCount), f.retryAfterMs); }
    }

    function Remaining(): nat
      reads this
    {
      if now < Deadline() then Deadline() - now else 0
    }

    /** Every run of the job ends, whatever fails, however often the provider is busy: the remaining
        time is the measure before the deadline and the attempt count after it. The brief is published
        at most once, and only by an attempt that was still in time. */
    method RunToEnd()
      requires Valid() && job.status.Queued?
      modifies this
      ensures Valid() && (job.status.Succeeded? || job.status.DeadLetter?)
      ensures job.status.Succeeded? ==> succeeded
      ensures |publications| <= 1 && forall t :: t in publications ==> t < Deadline()
      ensures MIN_RETRY_DELAY_MS * (attempts - old(attempts))
           <= old(Remaining()) + MIN_RETRY_DELAY_MS * (MAX_ATTEMPTS + 1)
    {
      ghost var late := 0;
      while job.status.Queued?
        invariant Valid() && !job.status.Running? && !job.status.Absent? && !job.status.Cancelled?
        invariant job.status.Succeeded? ==> succeeded
        invariant 0 <= late <= attempts - old(attempts)
        invariant job.status.Queued? && now < Deadline() ==>
          late == 0 && MIN_RETRY_DELAY_MS * (attempts - old(attempts)) + Remaining() <= old(Remaining())
        invariant job.status.Queued? ==> late <= job.attemptCount
        invariant late <= MAX_ATTEMPTS
        invariant MIN_RETRY_DELAY_MS * (attempts - old(attempts) - late) <= old(Remaining()) + MIN_RETRY_DELAY_MS
        decreases job.status.Queued?, Remaining(), MAX_ATTEMPTS - job.attemptCount
      {
        if now >= Deadline() { late := late + 1; }
        Turn();
      }
    }
  }
}
