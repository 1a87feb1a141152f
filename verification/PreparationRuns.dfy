/**
 * Overlapping attempts of one brief-compilation job. A worker whose lease ran out keeps compiling
 * while its successor has claimed the job; the repository's lease fence decides whose writes count.
 * One clock moves forward at will; a lease runs out when it is not renewed in time, a job is claimed
 * when it is due or later, workers die anywhere.
 */
module PreparationRuns {
  import opened DurableJobs
  import opened Preparation
  import opened Traces

  datatype PreparationStatus = Unpublished | Visible | GivenUp

  /** The awaits of one claim. `Checked` lies between the second deadline check and the publication. */
  datatype Pc =
    | Claimed
    | Compiling
    | Checked(at: nat)
    | Finishing
    | Failing(failure: Failure)

  /** A worker with the moment of its claim. */
  datatype Worker = Worker(claimedAt: nat, pc: Pc)

  /** A brief that became visible: whose it is, its last deadline check, and when it was written. */
  datatype Publication = Publication(worker: nat, checkedAt: nat, writtenAt: nat)

  datatype State = State(
    job: Job,
    now: nat,
    row: PreparationStatus,
    workers: map<nat, Worker>,
    publications: seq<Publication>,
    start: nat,                // when the job was queued
    dueAt: nat,                // a queued job is not claimed before
    leaseUntil: nat,           // of a running job
    claims: nat,
    lateClaims: nat)           // claims at or after the deadline

  datatype Step =
    | Tick(ms: nat)
    | ClaimJob(k: nat)
    | Renew(k: nat)
    | OpenWork(k: nat, fails: bool)
    | CompileEnds(k: nat, outcome: Compilation, aborted: bool)
    | Publish(k: nat, refused: bool, answerLost: bool, reviewFails: bool)
    | Report(k: nat)
    | Die(k: nat)
    | SweepLease
    | OwnerDeletes

  /** The two deadlines: the service uses the smaller timeout, the repository the one of the policy. */
  datatype Limits = Limits(work: Work, serviceTimeoutMs: nat)

  function Deadline(l: Limits): nat {
    DeadlineOf(l.work, l.serviceTimeoutMs)
  }

  function RowDeadline(l: Limits): nat {
    l.work.createdAt + l.work.policyTimeoutMs
  }

  function Init(now: nat): State {
    State(Job(Queued, 0, MAX_ATTEMPTS), now, Unpublished, map[], [], now, now, 0, 0, 0)
  }

  function Moved(s: State, k: nat, pc: Pc): State
    requires k in s.workers
  {
    s.(workers := s.workers[k := s.workers[k].(pc := pc)])
  }

  function Fails(s: State, k: nat, retryable: bool): State
    requires k in s.workers
  {
    Moved(s, k, Failing(JobFailure(retryable, false, 0)))
  }

  /** The claim of the preparation row, and the first deadline check. */
  function Opened(l: Limits, s: State, k: nat, fails: bool): State
    requires k in s.workers
  {
    if fails || !LeaseValid(s.job, k) || s.row.GivenUp? then Fails(s, k, true)
    else if s.row.Visible? then Moved(s, k, Finishing)
    else if !l.work.hasInput || s.now >= Deadline(l) then Fails(s, k, false)
    else Moved(s, k, Compiling)
  }

  function AfterCompilation(l: Limits, s: State, k: nat, outcome: Compilation, aborted: bool): State
    requires k in s.workers
  {
    if !outcome.Compiled? then Moved(s, k, Failing(MapError(Deadline(l), s.now, outcome)))
    else if aborted then Fails(s, k, true)
    else if s.now >= Deadline(l) then Fails(s, k, false)
    else Moved(s, k, Checked(s.now))
  }

  /** What the transaction insists on: the lease, a row that was not given up, and its own deadline. */
  predicate MayWrite(l: Limits, s: State, k: nat) {
    LeaseValid(s.job, k) && !s.row.GivenUp? && (s.row.Visible? || s.now < RowDeadline(l))
  }

  /** The publication: fenced, and without effect when the row has been published already. */
  function Written(l: Limits, s: State, k: nat, refused: bool, answerLost: bool, reviewFails: bool): State
    requires k in s.workers && s.workers[k].pc.Checked?
  {
    if !MayWrite(l, s, k) then Fails(s, k, !LeaseValid(s.job, k))
    else if refused then Fails(s, k, false)
    else
      var t := if s.row.Visible? then s
        else s.(row := Visible, publications := s.publications + [Publication(k, s.workers[k].pc.at, s.now)]);
      if answerLost || reviewFails then Fails(t, k, true) else Moved(t, k, Finishing)
  }

  /** A job that is given up takes an unpublished row with it. */
  function Settled(s: State, job: Job): State {
    s.(job := job, row := if job.status.DeadLetter? && s.row.Unpublished? then GivenUp else s.row)
  }

  /** The next attempt is due after the delay of this one, or after the longer one that the error asks for. */
  function Reported(s: State, k: nat): State
    requires k in s.workers
  {
    var left := s.(workers := s.workers - {k});
    match s.workers[k].pc
    case Finishing => Settled(left, Complete(s.job, k))
    case Failing(f) =>
      var delay := Max(RetryDelay(s.job.attemptCount), f.retryAfterMs);
      Settled(left.(dueAt := if LeaseValid(s.job, k) then s.now + delay else s.dueAt),
        Fail(s.job, k, f.retryable, f.deferred))
    case _ => s
  }

  /** The lease is over as soon as the clock reaches its end. */
  function Ticked(s: State, ms: nat): State {
    s.(now := s.now + ms, job := if s.now + ms >= s.leaseUntil then ExpireLease(s.job) else s.job)
  }

  /** A job whose lease ran out is due at once. */
  function Swept(s: State): State {
    Settled(s.(dueAt := if s.job.status.Running? && s.job.status.expired then s.now else s.dueAt), Sweep(s.job))
  }

  /** The account, or the call that is prepared again, is deleted: an open job is cancelled with its row. */
  function Withdrawn(s: State): State {
    s.(job := Cancel(s.job), row := if s.row.Unpublished? then GivenUp else s.row)
  }

  function Next(l: Limits): (State, Step) -> State {
    (s: State, a: Step) => Turn(l, s, a)
  }

  function Turn(l: Limits, s: State, a: Step): State {
    match a
    case Tick(ms) => Ticked(s, ms)
    case ClaimJob(k) =>
      if k in s.workers || !s.job.status.Queued? || s.now < s.dueAt then s
      else s.(job := Claim(s.job, k), leaseUntil := s.now + LEASE_MS, workers := s.workers[k := Worker(s.now, Claimed)],
              claims := s.claims + 1, lateClaims := s.lateClaims + if s.now >= Deadline(l) then 1 else 0)
    case Renew(k) => if LeaseValid(s.job, k) then s.(leaseUntil := s.now + LEASE_MS) else s
    case OpenWork(k, fails) => if k in s.workers && s.workers[k].pc.Claimed? then Opened(l, s, k, fails) else s
    case CompileEnds(k, outcome, aborted) =>
      if k in s.workers && s.workers[k].pc.Compiling? then AfterCompilation(l, s, k, outcome, aborted) else s
    case Publish(k, refused, lost, reviewFails) =>
      if k in s.workers && s.workers[k].pc.Checked? then Written(l, s, k, refused, lost, reviewFails) else s
    case Report(k) => if k in s.workers then Reported(s, k) else s
    case Die(k) => s.(workers := s.workers - {k})
    case SweepLease => Swept(s)
    case OwnerDeletes => Withdrawn(s)
  }

  // ---------------------------------------------------------------- invariant

  /** What holds of a worker at each of its awaits, whether or not it still has the lease. */
  predicate WorkerOk(l: Limits, s: State, w: Worker) {
    && w.claimedAt <= s.now
    && (w.pc.Compiling? ==> w.claimedAt < Deadline(l))
    && (w.pc.Checked? ==> w.claimedAt <= w.pc.at < Deadline(l) && w.pc.at <= s.now)
    && (w.pc.Finishing? ==> s.row.Visible?)
    && (w.pc.Failing? && w.pc.failure.deferred ==> w.claimedAt < Deadline(l))
  }

  predicate JobOk(l: Limits, s: State) {
    && s.job.maxAttempts == MAX_ATTEMPTS
    && s.lateClaims <= s.job.attemptCount <= MAX_ATTEMPTS
    && (s.job.status.Queued? ==> s.job.attemptCount < MAX_ATTEMPTS)
    && !s.job.status.Absent?
    && (s.job.status.Succeeded? ==> s.row.Visible?)
    && (s.job.status.DeadLetter? || s.job.status.Cancelled? ==> !s.row.Unpublished?)
    && (s.lateClaims > 0 ==> s.now >= Deadline(l))
    && (s.job.status.Running? && s.job.status.owner in s.workers
        && s.workers[s.job.status.owner].claimedAt < Deadline(l)
        ==> s.lateClaims == 0)
  }

  predicate InTime(l: Limits, p: Publication) {
    p.checkedAt < Deadline(l) && p.checkedAt <= p.writtenAt < RowDeadline(l)
  }

  predicate RowOk(l: Limits, s: State) {
    && |s.publications| == (if s.row.Visible? then 1 else 0)
    && (s.publications != [] ==> InTime(l, s.publications[0]))
  }

  /** Claims are five seconds apart at least, so that many of them need the time up to the given moment. */
  predicate Spent(s: State, claims: int, moment: nat) {
    s.start + MIN_RETRY_DELAY_MS * claims <= moment
  }

  predicate PaceOk(l: Limits, s: State) {
    && s.lateClaims <= s.claims
    && (s.job.status.Queued? ==> Spent(s, s.claims, s.dueAt))
    && (s.job.status.Running? ==> Spent(s, s.claims - 1, s.now) && Spent(s, s.claims, s.leaseUntil))
    && (s.job.status.Running? ==> (s.job.status.expired <==> s.now >= s.leaseUntil))
    && (s.claims > s.lateClaims ==> s.start + MIN_RETRY_DELAY_MS * (s.claims - s.lateClaims - 1) < Deadline(l))
  }

  ghost predicate Inv(l: Limits, s: State) {
    && JobOk(l, s) && RowOk(l, s) && PaceOk(l, s)
    && forall k :: k in s.workers ==> WorkerOk(l, s, s.workers[k])
  }

  /** Time and visibility only move on. */
  predicate MovesOn(s: State, s': State) {
    s.now <= s'.now && (s.row.Visible? ==> s'.row.Visible?)
  }

  lemma WorkerStaysOk(l: Limits, s: State, s': State, w: Worker)
    requires MovesOn(s, s') && WorkerOk(l, s, w)
    ensures WorkerOk(l, s', w)
  {
  }

  lemma OthersStayOk(l: Limits, s: State, s': State, k: nat)
    requires Inv(l, s) && MovesOn(s, s') && JobOk(l, s') && RowOk(l, s') && PaceOk(l, s')
    requires s'.workers - {k} == s.workers - {k} && (k in s'.workers ==> WorkerOk(l, s', s'.workers[k]))
    ensures Inv(l, s')
  {
    hide JobOk, RowOk, PaceOk, WorkerOk, MovesOn;
    forall j | j in s'.workers ensures WorkerOk(l, s', s'.workers[j]) {
      if j != k {
        assert j in s'.workers - {k} && (s'.workers - {k})[j] == s'.workers[j];
        assert j in s.workers && s.workers[j] == s'.workers[j];
        WorkerStaysOk(l, s, s', s.workers[j]);
      }
    }
  }

  /** A step of one worker, apart from its claim. */
  ghost predicate Keeps(l: Limits, s: State, s': State, k: nat) {
    && MovesOn(s, s') && JobOk(l, s') && RowOk(l, s') && PaceOk(l, s')
    && s'.workers - {k} == s.workers - {k} && (k in s'.workers ==> WorkerOk(l, s', s'.workers[k]))
  }

  lemma OpenedKeeps(l: Limits, s: State, k: nat, fails: bool)
    requires Inv(l, s) && k in s.workers && s.workers[k].pc.Claimed?
    ensures Keeps(l, s, Opened(l, s, k, fails), k)
  {
    hide LeaseValid;
    if fails || !LeaseValid(s.job, k) || s.row.GivenUp? {}
  }

  lemma CompiledKeeps(l: Limits, s: State, k: nat, outcome: Compilation, aborted: bool)
    requires Inv(l, s) && k in s.workers && s.workers[k].pc.Compiling?
    ensures Keeps(l, s, AfterCompilation(l, s, k, outcome, aborted), k)
  {
    if !outcome.Compiled? {} else if aborted {}
  }

  lemma WrittenKeeps(l: Limits, s: State, k: nat, refused: bool, lost: bool, reviewFails: bool)
    requires Inv(l, s) && k in s.workers && s.workers[k].pc.Checked?
    ensures Keeps(l, s, Written(l, s, k, refused, lost, reviewFails), k)
  {
    hide LeaseValid;
    if !MayWrite(l, s, k) {} else if refused {} else if s.row.Visible? {}
  }

  lemma ReportedKeeps(l: Limits, s: State, k: nat)
    requires Inv(l, s) && k in s.workers
    ensures Keeps(l, s, Reported(s, k), k)
  {
    match s.workers[k].pc
    case Finishing => if LeaseValid(s.job, k) {}
    case Failing(f) => if LeaseValid(s.job, k) { if f.deferred {} }
    case _ =>
  }

  lemma ClaimKeeps(l: Limits, s: State, k: nat)
    requires Inv(l, s) && k !in s.workers && s.job.status.Queued? && s.now >= s.dueAt
    ensures Keeps(l, s, Turn(l, s, ClaimJob(k)), k)
  {
    if s.now >= Deadline(l) {}
  }

  lemma OtherKeeps(l: Limits, s: State, a: Step)
    requires Inv(l, s) && (a.Tick? || a.Renew? || a.SweepLease? || a.OwnerDeletes?)
    ensures var s' := Turn(l, s, a);
      MovesOn(s, s') && JobOk(l, s') && RowOk(l, s') && PaceOk(l, s') && s'.workers == s.workers
  {
    match a
    case Tick(ms) => if s.now + ms >= s.leaseUntil {}
    case Renew(k) => if LeaseValid(s.job, k) {}
    case SweepLease => if s.job.status.Running? && s.job.status.expired {}
    case OwnerDeletes => if Outstanding(s.job) {}
  }

  lemma DieKeeps(l: Limits, s: State, k: nat)
    requires Inv(l, s)
    ensures Keeps(l, s, Turn(l, s, Die(k)), k)
  {
  }

  lemma StepKeepsInv(l: Limits, s: State, a: Step)
    requires Inv(l, s)
    ensures Inv(l, Turn(l, s, a))
  {
    hide JobOk, RowOk, PaceOk, WorkerOk, MovesOn, Opened, AfterCompilation, Written, Reported, Ticked, Swept, Withdrawn;
    var s' := Turn(l, s, a);
    match a
    case OpenWork(k, fails) =>
      if k in s.workers && s.workers[k].pc.Claimed? { OpenedKeeps(l, s, k, fails); OthersStayOk(l, s, s', k); }
    case CompileEnds(k, outcome, aborted) =>
      if k in s.workers && s.workers[k].pc.Compiling? {
        CompiledKeeps(l, s, k, outcome, aborted);
        OthersStayOk(l, s, s', k);
      }
    case Publish(k, refused, lost, reviewFails) =>
      if k in s.workers && s.workers[k].pc.Checked? {
        WrittenKeeps(l, s, k, refused, lost, reviewFails);
        OthersStayOk(l, s, s', k);
      }
    case Report(k) => if k in s.workers { ReportedKeeps(l, s, k); OthersStayOk(l, s, s', k); }
    case ClaimJob(k) =>
      if k !in s.workers && s.job.status.Queued? && s.now >= s.dueAt { ClaimKeeps(l, s, k); OthersStayOk(l, s, s', k); }
    case Die(k) => DieKeeps(l, s, k); OthersStayOk(l, s, s', k);
    case _ =>
      OtherKeeps(l, s, a);
      forall k | k in s.workers ensures WorkerOk(l, s', s.workers[k]) { WorkerStaysOk(l, s, s', s.workers[k]); }
  }

  lemma RunKeepsInv(l: Limits, now: nat, steps: seq<Step>)
    ensures Inv(l, Run(Next(l), Init(now), steps))
  {
    forall s, a | Inv(l, s) ensures Inv(l, Next(l)(s, a)) { StepKeepsInv(l, s, a); }
    RunKeeps(Next(l), s => Inv(l, s), Init(now), steps);
  }

  // ---------------------------------------------------------------- an undisturbed attempt

  function Attempted(l: Limits, s: State, k: nat, outcome: Compilation): State {
    var begun := Turn(l, Turn(l, s, ClaimJob(k)), OpenWork(k, false));
    Turn(l, Turn(l, Turn(l, begun, CompileEnds(k, outcome, false)), Publish(k, false, false, false)), Report(k))
  }

  predicate Claimable(s: State, k: nat) {
    k !in s.workers && s.job.status.Queued? && s.now >= s.dueAt && !s.row.GivenUp?
  }

  /** The failure of an attempt that does not publish. */
  function FailureOf(l: Limits, s: State, outcome: Compilation): Failure {
    if l.work.hasInput && s.now < Deadline(l) then MapError(Deadline(l), s.now, outcome)
    else JobFailure(false, false, 0)
  }

  predicate Publishes(l: Limits, s: State, outcome: Compilation) {
    s.row.Unpublished? && l.work.hasInput && s.now < Deadline(l) && outcome.Compiled?
  }

  /** How an attempt that nothing disturbs leaves the job and its row. */
  predicate Settles(l: Limits, s: State, t: State, outcome: Compilation) {
    var ok, f := s.row.Visible? || Publishes(l, s, outcome), FailureOf(l, s, outcome);
    && (t.job.status.Succeeded? <==> ok)
    && (t.row.Visible? <==> ok)
    && |t.publications| == |s.publications| + (if Publishes(l, s, outcome) then 1 else 0)
    && (t.job.status.Queued? <==>
      !ok && (f.deferred || (f.retryable && s.job.attemptCount + 1 < s.job.maxAttempts)))
    && (t.job.status.Queued? ==> t.job.attemptCount == s.job.attemptCount + (if f.deferred then 0 else 1))
    && (t.job.status.Queued? ==> t.dueAt == s.now + Max(RetryDelay(s.job.attemptCount + 1), f.retryAfterMs))
    && (t.row.GivenUp? <==> t.job.status.DeadLetter?)
    && t.workers == s.workers && t.now == s.now
  }

  lemma PublishedAttempt(l: Limits, s: State, k: nat, outcome: Compilation)
    requires Claimable(s, k) && s.row.Visible?
    ensures Settles(l, s, Attempted(l, s, k, outcome), outcome)
  {
    hide RetryDelay, MapError;
    var claimed := Turn(l, s, ClaimJob(k));
    assert LeaseValid(claimed.job, k) && claimed.workers - {k} == s.workers;
  }

  lemma LateAttempt(l: Limits, s: State, k: nat, outcome: Compilation)
    requires Claimable(s, k) && s.row.Unpublished? && (!l.work.hasInput || s.now >= Deadline(l))
    ensures Settles(l, s, Attempted(l, s, k, outcome), outcome)
  {
    hide RetryDelay, MapError;
    var claimed := Turn(l, s, ClaimJob(k));
    assert LeaseValid(claimed.job, k) && claimed.workers - {k} == s.workers;
  }

  lemma TimelyAttempt(l: Limits, s: State, k: nat, outcome: Compilation)
    requires Claimable(s, k) && s.row.Unpublished? && l.work.hasInput && s.now < Deadline(l)
    ensures Settles(l, s, Attempted(l, s, k, outcome), outcome)
  {
    hide RetryDelay, MapError;
    var claimed := Turn(l, s, ClaimJob(k));
    assert LeaseValid(claimed.job, k) && claimed.workers - {k} == s.workers;
  }

  /**
   * An attempt that nothing disturbs succeeds exactly if the brief is visible already, or compiled from
   * its input in time, and then it is visible. Otherwise the attempt counts, unless it was deferred, and
   * is made up for after its delay; a job that cannot succeed is given up with its row.
   */
  lemma AttemptSettles(l: Limits, s: State, k: nat, outcome: Compilation)
    requires Claimable(s, k)
    ensures Settles(l, s, Attempted(l, s, k, outcome), outcome)
  {
    hide Settles, Attempted;
    if s.row.Visible? { PublishedAttempt(l, s, k, outcome); }
    else if !l.work.hasInput || s.now >= Deadline(l) { LateAttempt(l, s, k, outcome); }
    else { TimelyAttempt(l, s, k, outcome); }
  }

  /** What may go wrong with an attempt that would publish. */
  datatype Fault = RowClaimFails | LeaseSignal | PublicationRefused | AnswerLost | ReviewFails

  function Disturbed(l: Limits, s: State, k: nat, fault: Fault): State {
    var begun := Turn(l, Turn(l, s, ClaimJob(k)), OpenWork(k, fault.RowClaimFails?));
    var compiled := Turn(l, begun, CompileEnds(k, Compiled, fault.LeaseSignal?));
    var written := Turn(l, compiled,
      Publish(k, fault.PublicationRefused?, fault.AnswerLost?, fault.ReviewFails?));
    Turn(l, written, Report(k))
  }

  /** A fault costs one attempt, and is made up for while there are more; only a refusal is final. A brief
      that was written stays, whatever became of the answer. */
  lemma FaultIsMadeUpFor(l: Limits, s: State, k: nat, fault: Fault)
    requires Inv(l, s) && Claimable(s, k) && Publishes(l, s, Compiled)
    ensures var t, wrote := Disturbed(l, s, k, fault), fault.AnswerLost? || fault.ReviewFails?;
      && (t.job.status.Queued? <==> !fault.PublicationRefused? && s.job.attemptCount + 1 < s.job.maxAttempts)
      && (t.job.status.Queued? || t.job.status.DeadLetter?) && t.job.attemptCount == s.job.attemptCount + 1
      && (t.row.Visible? <==> wrote) && |t.publications| == |s.publications| + (if wrote then 1 else 0)
      && (t.row.GivenUp? <==> t.job.status.DeadLetter? && !wrote)
  {
    hide RetryDelay, Inv;
    var claimed := Turn(l, s, ClaimJob(k));
    assert LeaseValid(claimed.job, k) && k in claimed.workers;
    match fault
    case RowClaimFails =>
    case LeaseSignal =>
    case PublicationRefused =>
    case AnswerLost =>
    case ReviewFails =>
  }

  /** A brief that is compiled too late ends the job, with its row. */
  lemma TooLateIsFinal(l: Limits, s: State, k: nat)
    requires k in s.workers && s.workers[k].pc.Compiling? && LeaseValid(s.job, k) && s.row.Unpublished?
    requires s.now >= Deadline(l)
    ensures var t := Turn(l, Turn(l, s, CompileEnds(k, Compiled, false)), Report(k));
      t.job.status.DeadLetter? && t.row.GivenUp? && t.publications == s.publications
  {
  }

  /** A worker that has lost its lease, or whose row was given up, does not go on when it opens its work. */
  lemma FencedOpening(l: Limits, s: State, k: nat)
    requires k in s.workers && s.workers[k].pc.Claimed? && (!LeaseValid(s.job, k) || s.row.GivenUp?)
    ensures var t := Turn(l, s, OpenWork(k, false)); k in t.workers && t.workers[k].pc.Failing?
  {
  }

  /** A lease lasts for its length from its last renewal, and no longer. */
  lemma LeaseLasts(l: Limits, s: State, k: nat, ms: nat)
    requires LeaseValid(s.job, k)
    ensures LeaseValid(Turn(l, Turn(l, s, Renew(k)), Tick(ms)).job, k) <==> ms < LEASE_MS
  {
  }

  /** A worker that dies changes nothing but its own place; its lease runs on. */
  lemma DeathLeavesTheLease(l: Limits, s: State, k: nat)
    ensures Turn(l, s, Die(k)) == s.(workers := s.workers - {k})
    ensures LeaseValid(s.job, k) ==> LeaseValid(Turn(l, s, Die(k)).job, k)
  {
  }

  /** A lost lease is found by the next sweep, which makes the job due at once while attempts are left. */
  lemma SweepReleases(l: Limits, s: State)
    requires Inv(l, s) && s.job.status.Running?
    ensures var t := Turn(l, s, SweepLease);
      if s.now < s.leaseUntil then t.job == s.job && t.row == s.row
      else if s.job.attemptCount >= MAX_ATTEMPTS then t.job.status.DeadLetter? && !t.row.Unpublished?
      else t.job.status.Queued? && t.dueAt == s.now
  {
  }

  /** A deletion withdraws what is not published yet, and no worker can publish it any more. */
  lemma DeletionWithdraws(l: Limits, s: State, k: nat)
    ensures var t := Turn(l, s, OwnerDeletes);
      && !Outstanding(t.job) && !LeaseValid(t.job, k) && !MayWrite(l, t, k)
      && t.row == (if s.row.Visible? then Visible else GivenUp) && t.publications == s.publications
  {
  }

  // ---------------------------------------------------------------- theorems over every run

  /**
   * However attempts overlap, the brief is published at most once, by an attempt whose last deadline
   * check was in time, before the deadline of the row; the job succeeds only with a published brief.
   */
  lemma PublishedOnceInTime(l: Limits, now: nat, steps: seq<Step>)
    ensures var s := Run(Next(l), Init(now), steps);
      && |s.publications| <= 1
      && (forall p :: p in s.publications ==> InTime(l, p))
      && (s.job.status.Succeeded? ==> |s.publications| == 1)
      && (s.row.GivenUp? ==> s.publications == [])
  {
    RunKeepsInv(l, now, steps);
  }

  /** At most three claims happen at or after the deadline: deferrals cannot prolong the job beyond it. */
  lemma FewLateClaims(l: Limits, now: nat, steps: seq<Step>)
    ensures Run(Next(l), Init(now), steps).lateClaims <= MAX_ATTEMPTS
  {
    RunKeepsInv(l, now, steps);
  }

  /**
   * However attempts overlap, fail or are deferred, the job is claimed only so often: once for every
   * five seconds left at the start, and four times more.
   */
  lemma ClaimsAreBounded(l: Limits, now: nat, steps: seq<Step>)
    ensures var s := Run(Next(l), Init(now), steps);
      MIN_RETRY_DELAY_MS * s.claims <= Max(0, Deadline(l) - now) + MIN_RETRY_DELAY_MS * (MAX_ATTEMPTS + 1)
  {
    RunKeepsInv(l, now, steps);
    StartStays(l, now, steps);
  }

  lemma StartStays(l: Limits, now: nat, steps: seq<Step>)
    ensures Run(Next(l), Init(now), steps).start == now
  {
    forall s: State, a | s.start == now ensures Next(l)(s, a).start == now {
      hide LeaseValid, Claim, Fail, Complete;
    }
    RunKeeps(Next(l), (s: State) => s.start == now, Init(now), steps);
  }

  predicate StepOf(a: Step, k: nat) {
    match a
    case Renew(j) => j == k
    case OpenWork(j, _) => j == k
    case CompileEnds(j, _, _) => j == k
    case Publish(j, _, _, _) => j == k
    case Report(j) => j == k
    case _ => false
  }

  /** The fence: whatever a worker without the lease does, neither the job, its times nor the brief change. */
  lemma StaleWorkerIsHarmless(l: Limits, s: State, a: Step, k: nat)
    requires Inv(l, s) && StepOf(a, k) && !LeaseValid(s.job, k)
    ensures var s' := Turn(l, s, a); s'.job == s.job && s'.row == s.row && s'.publications == s.publications
    ensures var s' := Turn(l, s, a); s'.dueAt == s.dueAt && s'.leaseUntil == s.leaseUntil
  {
    hide WorkerOk, PaceOk;
    match a
    case Renew(_) =>
    case OpenWork(_, fails) =>
    case CompileEnds(_, outcome, aborted) => if !outcome.Compiled? {} else if aborted {}
    case Publish(_, _, _, _) =>
    case Report(_) =>
  }

  /** The fence is needed: a worker whose lease ran out can still reach its publication while its
      successor compiles, and both checked the deadline in time. */
  lemma AttemptsOverlap(l: Limits, now: nat) returns (s: State)
    requires l.work.hasInput && now + LEASE_MS < Deadline(l)
    ensures Reachable(Next(l), Init(now), s)
    ensures 0 in s.workers && s.workers[0].pc.Checked? && 1 in s.workers && s.workers[1].pc.Checked?
    ensures LeaseValid(s.job, 1) && !LeaseValid(s.job, 0)
  {
    s := Init(now);
    InitReachable(Next(l), s);
    s := Extend(Next(l), Init(now), s, ClaimJob(0));
    s := Extend(Next(l), Init(now), s, OpenWork(0, false));
    s := Extend(Next(l), Init(now), s, Tick(LEASE_MS));
    s := Extend(Next(l), Init(now), s, SweepLease);
    s := Extend(Next(l), Init(now), s, ClaimJob(1));
    s := Extend(Next(l), Init(now), s, OpenWork(1, false));
    s := Extend(Next(l), Init(now), s, CompileEnds(0, Compiled, false));
    s := Extend(Next(l), Init(now), s, CompileEnds(1, Compiled, false));
  }
}
