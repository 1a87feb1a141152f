/** The life of one outbound provider leg, as the interleaving of one `start`, any number of `stop`
    calls, provider callbacks, reconciliation runs, data deletion and process deaths.
    Every stretch of the source between two awaits is one step; every awaited operation may fail. */
module CallLeg {
  import opened DurableJobs
  import opened Traces

  datatype CallStatus = Ready | Dialing | InProgress | AwaitingApproval | Completed | Failed | Stopped

  predicate Terminal(s: CallStatus) {
    s.Completed? || s.Failed? || s.Stopped?
  }

  /** Whether a provider status may replace the stored one. */
  predicate ShouldApply(current: CallStatus, next: CallStatus) {
    if Terminal(current) then false
    else if Terminal(next) then true
    else if current.Ready? then next.Dialing?
    else if current.Dialing? then next.Dialing? || next.InProgress?
    else current == next
  }

  /** What the provider itself knows about the leg. */
  datatype Leg = NoLeg | Live | Ended

  /** The awaits of `start`. `AttachCommitted` lies between the commit of the attachment and the
      snapshot read that follows it. */
  datatype StartPc =
    | Idle
    | Reserved
    | Calling
    | Holding
    | AttachCommitted(sawTerminal: bool)
    | AttachFailed
    | FailRead
    | FailWrite
    | AttachedTerminal
    | AttachedActive
    | Returned
    | Threw
    | Died

  datatype StopPc = ReadAttempt | ReadCall(knowsId: bool) | AskProvider(knowsId: bool) | ChangeLocal | StopDone

  datatype RunPc = ReadBrief | ReadTarget | Fetch | Apply(report: CallStatus) | StopLeg | Finish(ok: bool)

  datatype State = State(
    status: CallStatus,
    attached: bool,        // the attempt row carries the provider call id
    leg: Leg,
    idReceived: bool,      // `startCall` returned the id to `start`
    stopIssued: bool,      // some `stopCall` for the id was issued
    timer: bool,           // the maximum-duration timer is pending
    job: Job,              // the provider_call_reconciliation job of the attempt
    recoveries: nat,       // hang-up recoveries that have read a live attempt and not yet enqueued
    dataDeleted: bool,     // the owner deleted the data of the call
    start: StartPc,
    diedHolding: bool,     // the process running `start` died before it could attach or stop the id
    stops: map<nat, StopPc>,
    runs: map<nat, RunPc>)

  const MAX_ATTEMPTS: nat := 5

  const INIT := State(Ready, false, NoLeg, false, false, false, NO_JOB, 0, false, Idle, false, map[], map[])

  /** Steps of `start` up to the answer of the dial, its failure path, and the death of its process. */
  datatype StartStep =
    | Reserve
    | Call
    | CallReturns(withId: bool)
    | CallThrows
    | MarkFailedRead(fails: bool)
    | MarkFailedWrite(fails: bool)
    | Die

  /** Steps of `start` once it holds a provider call id. */
  datatype AttachStep =
    | Attach(commits: bool)
    | ReadSnapshot(fails: bool)
    | StopAfterFailure
    | StopAfterTerminal
    | Schedule

  datatype StopStep =
    | StopBegin(clears: bool)
    | StopReadAttempt
    | StopReadCall
    | StopProvider(refused: bool)
    | StopLocal
    | StopDies

  datatype RunStep =
    | ClaimRun
    | RunReadBrief(fails: bool)
    | RunReadTarget(fails: bool)
    | RunFetch(report: CallStatus, fails: bool)
    | RunApply(fails: bool)
    | RunLateFailure
    | RunStop
    | RunFinish
    | RunDies

  datatype StoreStep =
    | LegCreated
    | LegEnds
    | Callback(to: CallStatus)
    | LeaseRunsOut
    | SweepLease
    | HangupReads
    | HangupEnqueues
    | HangupFails
    | Seed
    | Recover
    | RetryByAdmin
    | DeleteData

  /** One atomic step: of `start`, of the k-th stop, of the k-th reconciliation run,
      or of anything else. */
  datatype Step =
    | Starting(start: StartStep)
    | Attaching(attach: AttachStep)
    | Stopping(k: nat, stop: StopStep)
    | Reconciling(k: nat, run: RunStep)
    | World(store: StoreStep)

  predicate Reports(s: State, to: CallStatus) {
    // Provider statuses map to these four; a terminal report needs a leg that is over.
    && (to.Dialing? || to.InProgress? || to.Completed? || to.Failed?)
    && !s.leg.NoLeg?
    && (Terminal(to) ==> s.leg.Ended?)
  }

  function ApplyStatus(s: State, to: CallStatus): State {
    s.(attached := true, status := if ShouldApply(s.status, to) then to else s.status)
  }

  /** The attachment commit: it records the deadline only on a call that is still open. */
  function AttachCommit(s: State): State {
    s.(attached := true,
       job := if Terminal(s.status) then s.job else Enqueue(s.job, MAX_ATTEMPTS, false),
       start := AttachCommitted(Terminal(s.status)))
  }

  function NextStart(s: State, a: StartStep): State {
    match a
    case Reserve => if s.start.Idle? && s.status.Ready? then s.(status := Dialing, start := Reserved) else s
    case Call => if s.start.Reserved? then s.(start := Calling) else s
    case CallReturns(withId) =>
      if !s.start.Calling? || (withId && s.leg.NoLeg?) then s
      else if withId then s.(idReceived := true, start := Holding)
      else s.(start := FailRead)
    case CallThrows => if s.start.Reserved? || s.start.Calling? then s.(start := FailRead) else s
    case MarkFailedRead(fails) =>
      if s.start.FailRead? then s.(start := if fails || Terminal(s.status) then Threw else FailWrite) else s
    case MarkFailedWrite(fails) =>
      if s.start.FailWrite? then s.(status := if fails then s.status else Failed, start := Threw) else s
    case Die =>
      if s.start.Idle? then s
      else s.(start := Died, diedHolding := s.diedHolding || StartHolds(s.start))
  }

  function NextAttach(s: State, a: AttachStep): State {
    match a
    case Attach(commits) =>
      if !s.start.Holding? then s
      else if commits then AttachCommit(s)
      else s.(start := AttachFailed)
    case ReadSnapshot(fails) =>
      if !s.start.AttachCommitted? then s
      else s.(start :=
        if fails || s.dataDeleted then AttachFailed
        else if Terminal(s.status) then AttachedTerminal
        else AttachedActive)
    case StopAfterFailure =>
      if s.start.AttachFailed? then s.(stopIssued := true, start := FailRead) else s
    case StopAfterTerminal =>
      if s.start.AttachedTerminal? then s.(stopIssued := true, start := Returned) else s
    case Schedule => if s.start.AttachedActive? then s.(timer := true, start := Returned) else s
  }

  function NextStop(s: State, k: nat, a: StopStep): State {
    if a.StopBegin? then
      if k in s.stops then s else s.(stops := s.stops[k := ReadAttempt], timer := s.timer && !a.clears)
    else if k !in s.stops then s
    else
      var pc := s.stops[k];
      match a
      case StopReadAttempt => if pc.ReadAttempt? then s.(stops := s.stops[k := ReadCall(s.attached)]) else s
      case StopReadCall =>
        if pc.ReadCall? then
          s.(stops := s.stops[k := if Terminal(s.status) then StopDone else AskProvider(pc.knowsId)])
        else s
      case StopProvider(refused) =>
        if !pc.AskProvider? then s
        else if !pc.knowsId then s.(stops := s.stops[k := ChangeLocal])
        else s.(stopIssued := true, stops := s.stops[k := if refused then StopDone else ChangeLocal])
      case StopLocal =>
        if pc.ChangeLocal? then
          s.(status := if Terminal(s.status) then s.status else Stopped, stops := s.stops[k := StopDone])
        else s
      case _ => s.(stops := s.stops[k := StopDone])
  }

  function NextRun(s: State, k: nat, a: RunStep): State {
    if a.ClaimRun? then
      if k !in s.runs && s.job.status.Queued? then
        s.(job := Claim(s.job, k), runs := s.runs[k := ReadBrief])
      else s
    else if k !in s.runs then s
    else
      var pc := s.runs[k];
      match a
      // The call itself is read first, and is not found once its data are deleted.
      case RunReadBrief(fails) =>
        if pc.ReadBrief? then
          s.(runs := s.runs[k := if fails || s.dataDeleted then Finish(false) else ReadTarget])
        else s
      case RunReadTarget(fails) =>
        if pc.ReadTarget? then
          s.(runs := s.runs[k := if fails || !s.attached then Finish(false) else Fetch])
        else s
      case RunFetch(report, fails) =>
        if !pc.Fetch? || (!fails && !Reports(s, report)) then s
        else s.(runs := s.runs[k := if fails then Finish(false) else Apply(report)])
      case RunApply(fails) =>
        if !pc.Apply? then s
        else if fails || !LeaseValid(s.job, k) then s.(runs := s.runs[k := Finish(false)])
        else ApplyStatus(s, pc.report).(runs := s.runs[k := if Terminal(pc.report) then Finish(true) else StopLeg])
      case RunLateFailure =>
        if pc.StopLeg? || pc.Finish? then s.(runs := s.runs[k := Finish(false)]) else s
      case RunStop =>
        if pc.StopLeg? then s.(stopIssued := true, runs := s.runs[k := Finish(false)]) else s
      case RunFinish =>
        if pc.Finish? then
          s.(job := if pc.ok then Complete(s.job, k) else Fail(s.job, k, true, false), runs := s.runs - {k})
        else s
      case _ => s.(runs := s.runs - {k})
  }

  function NextStore(s: State, a: StoreStep): State {
    match a
    case LegCreated => if s.start.Calling? && s.leg.NoLeg? then s.(leg := Live) else s
    case LegEnds => if s.leg.Live? then s.(leg := Ended) else s
    case Callback(to) => if Reports(s, to) then ApplyStatus(s, to) else s
    case LeaseRunsOut => s.(job := ExpireLease(s.job))
    case SweepLease => s.(job := Sweep(s.job))
    case HangupReads => if s.attached && !Terminal(s.status) then s.(recoveries := s.recoveries + 1) else s
    case HangupEnqueues =>
      if s.recoveries > 0 then
        s.(recoveries := s.recoveries - 1, job := Enqueue(s.job, MAX_ATTEMPTS, true))
      else s
    case HangupFails => if s.recoveries > 0 then s.(recoveries := s.recoveries - 1) else s
    case Seed =>
      if s.attached && Active(s.status) then s.(job := Enqueue(s.job, MAX_ATTEMPTS, false)) else s
    case Recover =>
      if !Active(s.status) then s
      else if s.attached then s.(job := Enqueue(s.job, MAX_ATTEMPTS, false))
      else s.(status := Failed)
    case RetryByAdmin => s.(job := AdminRetry(s.job))
    case DeleteData =>
      if Terminal(s.status) && !s.dataDeleted then
        s.(attached := false, dataDeleted := true, job := Cancel(s.job))
      else s
  }

  predicate Active(status: CallStatus) {
    status.Dialing? || status.InProgress? || status.AwaitingApproval?
  }

  /** A step that is not enabled changes nothing. */
  function Next(s: State, a: Step): State {
    match a
    case Starting(b) => NextStart(s, b)
    case Attaching(b) => NextAttach(s, b)
    case Stopping(k, b) => NextStop(s, k, b)
    case Reconciling(k, b) => NextRun(s, k, b)
    case World(b) => NextStore(s, b)
  }

  /** `start` still has the id in hand and has neither recorded nor stopped it. */
  predicate StartHolds(pc: StartPc) {
    pc.Holding? || pc.AttachCommitted? || pc.AttachFailed? || pc.AttachedTerminal?
  }

  predicate Covered(s: State) {
    s.idReceived ==>
      || s.leg.Ended?
      || s.stopIssued
      || StartHolds(s.start)
      || Outstanding(s.job)
  }

  /** The three ways in which the code lets go of a live leg. */
  predicate LetGo(s: State) {
    && s.leg.Live?
    && !s.stopIssued
    && (s.job.status.DeadLetter? || s.job.status.Cancelled? || (s.diedHolding && s.job.status.Absent?))
  }

  // ---------------------------------------------------------------- invariant

  /** Which program points of `start` go with which facts. */
  predicate Points(s: State) {
    && (s.start.Idle? ==> (s.status.Ready? || Terminal(s.status)) && !s.attached && s.leg.NoLeg? && !s.idReceived)
    && (s.start.Idle? ==> s.job.status.Absent? && s.recoveries == 0)
    && (s.status.Ready? ==> s.start.Idle?)
    && ((s.start.Reserved? || s.start.Calling?) ==> !s.idReceived)
    && ((StartHolds(s.start) || s.start.AttachedActive?) ==> s.idReceived)
    && (s.idReceived ==> !s.leg.NoLeg?)
  }

  /** An id in hand is protected by `start`; once `start` is past it, by a stop or a job. */
  predicate Guarded(s: State) {
    && (s.idReceived ==> s.stopIssued || StartHolds(s.start) || s.diedHolding || !s.job.status.Absent?)
    && (s.start.AttachCommitted? ==> if s.start.sawTerminal then Terminal(s.status) else !s.job.status.Absent?)
    && (s.start.AttachedActive? ==> !s.job.status.Absent?)
  }

  /** The deadline is retired as done only for a leg that is over and recorded as such, and given up
      only after five claims. */
  predicate Retired(s: State) {
    && (s.job.status.Succeeded? ==> s.leg.Ended? && Terminal(s.status))
    && (!s.job.status.Absent? ==> s.job.maxAttempts == MAX_ATTEMPTS)
    && (s.job.status.DeadLetter? ==> s.job.attemptCount >= MAX_ATTEMPTS)
  }

  /** A job, or a recovery about to create one, knows its leg unless the data of the call were deleted. */
  predicate Targeted(s: State) {
    && (!s.job.status.Absent? || s.recoveries > 0 ==> s.attached || s.dataDeleted)
    && (s.dataDeleted ==> Terminal(s.status))
  }

  predicate Core(s: State) {
    Points(s) && Guarded(s) && Retired(s) && Targeted(s)
  }

  /** What a reconciliation run may rely on between its awaits. */
  predicate RunOk(s: State, pc: RunPc) {
    && (pc.Apply? ==> Reports(s, pc.report) && !s.start.Idle?)
    && (pc == Finish(true) ==> s.leg.Ended? && Terminal(s.status))
  }

  ghost predicate Inv(s: State) {
    && Core(s)
    && forall k :: k in s.runs ==> RunOk(s, s.runs[k])
  }

  /** Nothing that is over comes back. */
  predicate Grows(s: State, s': State) {
    && (s.leg.Ended? ==> s'.leg.Ended?)
    && (s.leg.Live? ==> !s'.leg.NoLeg?)
    && (Terminal(s.status) ==> Terminal(s'.status))
    && (!s.start.Idle? ==> !s'.start.Idle?)
    && (s.stopIssued ==> s'.stopIssued)
    && (s.idReceived ==> s'.idReceived)
    && (s.attached ==> s'.attached || Terminal(s'.status))
    && (s.dataDeleted ==> s'.dataDeleted)
  }

  /** What holds of every step: it keeps the invariant's core and takes nothing back. */
  predicate Keeps(s: State, s': State) {
    Core(s) ==> Core(s') && Grows(s, s')
  }

  /** The deadline stays, and none of the causes of letting go is added. */
  predicate Harmless(s: State, s': State) {
    && (Outstanding(s.job) ==> Outstanding(s'.job))
    && (s'.diedHolding ==> s.diedHolding)
    && (s'.job.status.Cancelled? ==> s.job.status.Cancelled?)
    && s'.job.attemptCount <= s.job.attemptCount
  }

  /** `start` moves neither a stop nor a run. */
  predicate StartFrame(s: State, s': State) {
    s'.stops == s.stops && s'.runs == s.runs
  }

  predicate StopFrame(s: State, s': State, k: nat) {
    && s' == s.(status := s'.status, stopIssued := s'.stopIssued, timer := s'.timer, stops := s'.stops)
    && s'.stops - {k} == s.stops - {k}
  }

  predicate RunFrame(s: State, s': State, k: nat) {
    && s' == s.(status := s'.status, attached := s'.attached, stopIssued := s'.stopIssued, job := s'.job,
                runs := s'.runs)
    && s'.runs - {k} == s.runs - {k}
  }

  predicate StoreFrame(s: State, s': State) {
    s' == s.(status := s'.status, attached := s'.attached, leg := s'.leg, job := s'.job, recoveries := s'.recoveries,
      dataDeleted := s'.dataDeleted)
  }

  predicate OwnOk(s: State, k: nat) {
    k in s.runs ==> RunOk(s, s.runs[k])
  }

  /** The report of a run retires the deadline as done, or gives it up on the fifth claim. */
  predicate RetiredByRun(s: State, s': State, k: nat) {
    && Harmless(s, s'.(job := s.job)) && s'.job.attemptCount <= s.job.attemptCount
    && (s'.job.status.Cancelled? ==> s.job.status.Cancelled?)
    && (Outstanding(s.job) && !Outstanding(s'.job) ==> k in s.runs && RetiredAs(s.runs[k], s'.job))
  }

  predicate RetiredAs(pc: RunPc, j: Job) {
    if pc == Finish(true) then j.status.Succeeded?
    else j.status.DeadLetter? && j.attemptCount >= j.maxAttempts
  }

  predicate RetiredBySweep(s: State, s': State) {
    && Harmless(s, s'.(job := s.job)) && s'.job.attemptCount <= s.job.attemptCount
    && (s'.job.status.Cancelled? ==> s.job.status.Cancelled?)
    && (Outstanding(s.job) && !Outstanding(s'.job) ==>
        s'.job.status.DeadLetter? && s'.job.attemptCount >= s'.job.maxAttempts)
  }

  predicate RetiredByDeletion(s: State, s': State) {
    && s'.diedHolding == s.diedHolding && s'.job.attemptCount <= s.job.attemptCount
    && (Outstanding(s.job) && !Outstanding(s'.job) ==> s'.job.status.Cancelled? && Terminal(s'.status))
  }

  /** Neither the core nor what can be taken back depends on where the runs are. */
  lemma MovedRunKeeps(s: State, t: State, runs: map<nat, RunPc>)
    requires Keeps(s, t)
    ensures Keeps(s, t.(runs := runs))
  {
  }

  lemma Unmoved(s: State)
    ensures Keeps(s, s)
  {
  }

  lemma MovedRunHarmless(s: State, t: State, runs: map<nat, RunPc>)
    requires Harmless(s, t)
    ensures Harmless(s, t.(runs := runs))
  {
  }

  lemma UnmovedHarmless(s: State)
    ensures Harmless(s, s)
  {
  }

  /** Likewise for the stops. */
  lemma MovedStopKeeps(s: State, t: State, stops: map<nat, StopPc>)
    requires Keeps(s, t) && Harmless(s, t)
    ensures Keeps(s, t.(stops := stops)) && Harmless(s, t.(stops := stops))
  {
  }

  lemma IssuedKeeps(s: State)
    ensures var t := s.(stopIssued := true); Keeps(s, t) && Harmless(s, t)
  {
  }

  lemma SetRunFrame(s: State, k: nat, pc: RunPc)
    ensures RunFrame(s, s.(runs := s.runs[k := pc]), k)
  {
  }

  /** A run that only moves on. */
  lemma SetRun(s: State, k: nat, pc: RunPc)
    ensures var s' := s.(runs := s.runs[k := pc]); RunFrame(s, s', k) && Keeps(s, s') && Harmless(s, s')
  {
    hide Keeps, Harmless, RunFrame;
    SetRunFrame(s, k, pc);
    Unmoved(s);
    UnmovedHarmless(s);
    MovedRunKeeps(s, s, s.runs[k := pc]);
    MovedRunHarmless(s, s, s.runs[k := pc]);
  }

  lemma SameRun(s: State, k: nat)
    ensures RunFrame(s, s, k) && Keeps(s, s) && Harmless(s, s)
  {
  }

  lemma SetStopFrame(s: State, k: nat, issued: bool, pc: StopPc)
    ensures StopFrame(s, s.(stopIssued := issued, stops := s.stops[k := pc]), k)
  {
  }

  lemma ReserveEffect(s: State)
    ensures var s' := NextStart(s, Reserve);
            StartFrame(s, s') && Keeps(s, s') && Harmless(s, s')
  {
    if s.start.Idle? && s.status.Ready? {}
  }

  lemma CallEffect(s: State)
    ensures var s' := NextStart(s, Call);
            StartFrame(s, s') && Keeps(s, s') && Harmless(s, s')
  {
    if s.start.Reserved? {}
  }

  lemma CallReturnsKeeps(s: State, withId: bool)
    ensures Keeps(s, NextStart(s, CallReturns(withId)))
  {
    if s.start.Calling? { if withId {} }
  }

  lemma CallReturnsEffect(s: State, withId: bool)
    ensures var s' := NextStart(s, CallReturns(withId));
            StartFrame(s, s') && Keeps(s, s') && Harmless(s, s')
  {
    CallReturnsKeeps(s, withId);
    hide Keeps;
    if s.start.Calling? { if withId {} }
  }

  lemma CallThrowsEffect(s: State)
    ensures var s' := NextStart(s, CallThrows);
            StartFrame(s, s') && Keeps(s, s') && Harmless(s, s')
  {
    if s.start.Reserved? || s.start.Calling? {}
  }

  lemma MarkFailedReadEffect(s: State, fails: bool)
    ensures var s' := NextStart(s, MarkFailedRead(fails));
            StartFrame(s, s') && Keeps(s, s') && Harmless(s, s')
  {
    if s.start.FailRead? {}
  }

  lemma MarkFailedWriteEffect(s: State, fails: bool)
    ensures var s' := NextStart(s, MarkFailedWrite(fails));
            StartFrame(s, s') && Keeps(s, s') && Harmless(s, s')
  {
    if s.start.FailWrite? {}
  }

  lemma DieEffect(s: State)
    ensures var s' := NextStart(s, Die);
            StartFrame(s, s') && Keeps(s, s') && s'.job == s.job
  {
    if !s.start.Idle? {}
  }

  lemma StartEffects(s: State, a: StartStep)
    ensures var s' := NextStart(s, a);
            StartFrame(s, s') && Keeps(s, s')
            && (if a.Die? then s'.job == s.job else Harmless(s, s'))
  {
    hide NextStart, Keeps, Harmless, StartFrame;
    match a
    case Reserve => ReserveEffect(s);
    case Call => CallEffect(s);
    case CallReturns(withId) => CallReturnsEffect(s, withId);
    case CallThrows => CallThrowsEffect(s);
    case MarkFailedRead(fails) => MarkFailedReadEffect(s, fails);
    case MarkFailedWrite(fails) => MarkFailedWriteEffect(s, fails);
    case Die => DieEffect(s);
  }

  lemma AttachEffect(s: State, commits: bool)
    ensures var s' := NextAttach(s, Attach(commits));
            StartFrame(s, s') && Keeps(s, s') && Harmless(s, s')
  {
    if s.start.Holding? { if commits {} }
  }

  lemma ReadSnapshotEffect(s: State, fails: bool)
    ensures var s' := NextAttach(s, ReadSnapshot(fails));
            StartFrame(s, s') && Keeps(s, s') && Harmless(s, s')
  {
    if s.start.AttachCommitted? {}
  }

  lemma StopAfterFailureEffect(s: State)
    ensures var s' := NextAttach(s, StopAfterFailure);
            StartFrame(s, s') && Keeps(s, s') && Harmless(s, s')
  {
    if s.start.AttachFailed? {}
  }

  lemma StopAfterTerminalEffect(s: State)
    ensures var s' := NextAttach(s, StopAfterTerminal);
            StartFrame(s, s') && Keeps(s, s') && Harmless(s, s')
  {
    if s.start.AttachedTerminal? {}
  }

  lemma ScheduleEffect(s: State)
    ensures var s' := NextAttach(s, Schedule);
            StartFrame(s, s') && Keeps(s, s') && Harmless(s, s')
  {
    if s.start.AttachedActive? {}
  }

  lemma AttachEffects(s: State, a: AttachStep)
    ensures var s' := NextAttach(s, a);
            StartFrame(s, s') && Keeps(s, s')
            && Harmless(s, s')
  {
    hide NextAttach, Keeps, Harmless, StartFrame;
    match a
    case Attach(commits) => AttachEffect(s, commits);
    case ReadSnapshot(fails) => ReadSnapshotEffect(s, fails);
    case StopAfterFailure => StopAfterFailureEffect(s);
    case StopAfterTerminal => StopAfterTerminalEffect(s);
    case Schedule => ScheduleEffect(s);
  }

  lemma StopBeginEffect(s: State, k: nat, clears: bool)
    ensures var s' := NextStop(s, k, StopBegin(clears));
            StopFrame(s, s', k) && Keeps(s, s') && Harmless(s, s')
  {
    if k in s.stops {}
  }

  lemma StopReadAttemptEffect(s: State, k: nat)
    ensures var s' := NextStop(s, k, StopReadAttempt);
            StopFrame(s, s', k) && Keeps(s, s') && Harmless(s, s')
  {
    if k in s.stops && s.stops[k].ReadAttempt? {}
  }

  lemma StopReadCallEffect(s: State, k: nat)
    ensures var s' := NextStop(s, k, StopReadCall);
            StopFrame(s, s', k) && Keeps(s, s') && Harmless(s, s')
  {
    if k in s.stops && s.stops[k].ReadCall? {}
  }

  lemma StopProviderFrame(s: State, k: nat, refused: bool)
    ensures var s' := NextStop(s, k, StopProvider(refused)); StopFrame(s, s', k)
  {
    if k in s.stops && s.stops[k].AskProvider? {
      var pc := if s.stops[k].knowsId && refused then StopDone else ChangeLocal;
      SetStopFrame(s, k, s.stopIssued || s.stops[k].knowsId, pc);
      hide StopFrame;
      if s.stops[k].knowsId {}
    }
  }

  lemma StopProviderKeeps(s: State, k: nat, refused: bool)
    ensures var s' := NextStop(s, k, StopProvider(refused)); Keeps(s, s') && Harmless(s, s')
  {
    var s' := NextStop(s, k, StopProvider(refused));
    Unmoved(s);
    UnmovedHarmless(s);
    IssuedKeeps(s);
    MovedStopKeeps(s, s, s'.stops);
    MovedStopKeeps(s, s.(stopIssued := true), s'.stops);
    hide Keeps, Harmless;
    if k in s.stops && s.stops[k].AskProvider? { if s.stops[k].knowsId {} }
  }

  lemma StopProviderEffect(s: State, k: nat, refused: bool)
    ensures var s' := NextStop(s, k, StopProvider(refused));
            StopFrame(s, s', k) && Keeps(s, s') && Harmless(s, s')
  {
    hide NextStop, StopFrame, Keeps, Harmless;
    StopProviderFrame(s, k, refused);
    StopProviderKeeps(s, k, refused);
  }

  lemma StopLocalEffect(s: State, k: nat)
    ensures var s' := NextStop(s, k, StopLocal);
            StopFrame(s, s', k) && Keeps(s, s') && Harmless(s, s')
  {
    if k in s.stops && s.stops[k].ChangeLocal? {}
  }

  lemma StopDiesEffect(s: State, k: nat)
    ensures var s' := NextStop(s, k, StopDies);
            StopFrame(s, s', k) && Keeps(s, s') && Harmless(s, s')
  {
    if k in s.stops {}
  }

  lemma StopEffects(s: State, k: nat, a: StopStep)
    ensures var s' := NextStop(s, k, a);
            StopFrame(s, s', k) && Keeps(s, s')
            && Harmless(s, s')
  {
    hide NextStop, Keeps, Harmless, StopFrame;
    match a
    case StopBegin(clears) => StopBeginEffect(s, k, clears);
    case StopReadAttempt => StopReadAttemptEffect(s, k);
    case StopReadCall => StopReadCallEffect(s, k);
    case StopProvider(refused) => StopProviderEffect(s, k, refused);
    case StopLocal => StopLocalEffect(s, k);
    case StopDies => StopDiesEffect(s, k);
  }

  lemma ClaimRunEffect(s: State, k: nat)
    ensures var s' := NextRun(s, k, ClaimRun);
            && RunFrame(s, s', k) && (OwnOk(s, k) ==> Keeps(s, s') && (Core(s) ==> OwnOk(s', k)))
            && Harmless(s, s'.(job := s'.job.(attemptCount := 0)))
            && s'.job.attemptCount <= s.job.attemptCount + 1
  {
    if k !in s.runs && s.job.status.Queued? {}
  }

  lemma RunReadBriefEffect(s: State, k: nat, fails: bool)
    ensures var s' := NextRun(s, k, RunReadBrief(fails));
            RunFrame(s, s', k) && (OwnOk(s, k) ==> Keeps(s, s') && (Core(s) ==> OwnOk(s', k))) && Harmless(s, s')
  {
    SameRun(s, k);
    if k in s.runs && s.runs[k].ReadBrief? {
      SetRun(s, k, if fails || s.dataDeleted then Finish(false) else ReadTarget);
    }
    hide Keeps, Core, Harmless, RunFrame;
  }

  lemma RunReadTargetEffect(s: State, k: nat, fails: bool)
    ensures var s' := NextRun(s, k, RunReadTarget(fails));
            RunFrame(s, s', k) && (OwnOk(s, k) ==> Keeps(s, s') && (Core(s) ==> OwnOk(s', k))) && Harmless(s, s')
  {
    SameRun(s, k);
    if k in s.runs && s.runs[k].ReadTarget? {
      SetRun(s, k, if fails || !s.attached then Finish(false) else Fetch);
    }
    hide Keeps, Core, Harmless, RunFrame;
  }

  lemma RunFetchFrame(s: State, k: nat, report: CallStatus, fails: bool)
    ensures var s' := NextRun(s, k, RunFetch(report, fails));
            RunFrame(s, s', k)
  {
    if k in s.runs && s.runs[k].Fetch? { if fails {} }
  }

  lemma RunFetchKeeps(s: State, k: nat, report: CallStatus, fails: bool)
    ensures var s' := NextRun(s, k, RunFetch(report, fails));
            OwnOk(s, k) ==> Keeps(s, s') && (Core(s) ==> OwnOk(s', k))
  {
    Unmoved(s);
    if k in s.runs && s.runs[k].Fetch? {
      MovedRunKeeps(s, s, NextRun(s, k, RunFetch(report, fails)).runs);
      if Core(s) { FetchingNotIdle(s); }
      hide Keeps, Core;
      if !fails && Reports(s, report) {}
    }
  }

  lemma RunFetchHarmless(s: State, k: nat, report: CallStatus, fails: bool)
    ensures Harmless(s, NextRun(s, k, RunFetch(report, fails)))
  {
    UnmovedHarmless(s);
    MovedRunHarmless(s, s, NextRun(s, k, RunFetch(report, fails)).runs);
    hide Harmless;
  }

  /** With a provider leg in existence `start` is past its reservation. */
  lemma FetchingNotIdle(s: State)
    requires Core(s)
    ensures !s.leg.NoLeg? ==> !s.start.Idle?
  {
  }

  lemma RunFetchEffect(s: State, k: nat, report: CallStatus, fails: bool)
    ensures var s' := NextRun(s, k, RunFetch(report, fails));
            RunFrame(s, s', k) && (OwnOk(s, k) ==> Keeps(s, s') && (Core(s) ==> OwnOk(s', k))) && Harmless(s, s')
  {
    hide NextRun, RunFrame, Keeps, Core, OwnOk, Harmless, RetiredByRun;
    RunFetchFrame(s, k, report, fails);
    RunFetchKeeps(s, k, report, fails);
    RunFetchHarmless(s, k, report, fails);
  }

  lemma RunApplyFrame(s: State, k: nat, fails: bool)
    ensures var s' := NextRun(s, k, RunApply(fails));
            RunFrame(s, s', k)
  {
    if k in s.runs && s.runs[k].Apply? { if !fails && LeaseValid(s.job, k) {} }
  }

  lemma ApplyStatusKeeps(s: State, to: CallStatus)
    requires Reports(s, to) && !s.start.Idle?
    ensures Keeps(s, ApplyStatus(s, to)) && (Terminal(to) ==> Terminal(ApplyStatus(s, to).status))
  {
    if ShouldApply(s.status, to) {}
  }

  lemma RunApplyKeeps(s: State, k: nat, fails: bool)
    ensures var s' := NextRun(s, k, RunApply(fails));
            (OwnOk(s, k) ==> Keeps(s, s') && (Core(s) ==> OwnOk(s', k)))
  {
    var s' := NextRun(s, k, RunApply(fails));
    hide Keeps, Core, ApplyStatus;
    Unmoved(s);
    if k in s.runs && s.runs[k].Apply? && !fails && LeaseValid(s.job, k) && OwnOk(s, k) {
      var to := s.runs[k].report;
      ApplyStatusKeeps(s, to);
      ApplyFrame(s, to);
      MovedRunKeeps(s, ApplyStatus(s, to), s'.runs);
    } else if k in s.runs && s.runs[k].Apply? {
      MovedRunKeeps(s, s, s'.runs);
    }
  }

  lemma ApplyFrame(s: State, to: CallStatus)
    ensures ApplyStatus(s, to).runs == s.runs && ApplyStatus(s, to).leg == s.leg && ApplyStatus(s, to).start == s.start
  {
  }

  lemma RunApplyHarmless(s: State, k: nat, fails: bool)
    ensures var s' := NextRun(s, k, RunApply(fails));
            Harmless(s, s')
  {
    if k in s.runs && s.runs[k].Apply? { if !fails && LeaseValid(s.job, k) {} }
  }

  lemma RunApplyEffect(s: State, k: nat, fails: bool)
    ensures var s' := NextRun(s, k, RunApply(fails));
            RunFrame(s, s', k) && (OwnOk(s, k) ==> Keeps(s, s') && (Core(s) ==> OwnOk(s', k))) && Harmless(s, s')
  {
    hide NextRun, RunFrame, Keeps, Core, OwnOk, Harmless, RetiredByRun;
    RunApplyFrame(s, k, fails);
    RunApplyKeeps(s, k, fails);
    RunApplyHarmless(s, k, fails);
  }

  lemma RunLateFailureEffect(s: State, k: nat)
    ensures var s' := NextRun(s, k, RunLateFailure);
            RunFrame(s, s', k) && (OwnOk(s, k) ==> Keeps(s, s') && (Core(s) ==> OwnOk(s', k))) && Harmless(s, s')
  {
    SameRun(s, k);
    if k in s.runs && (s.runs[k].StopLeg? || s.runs[k].Finish?) {
      SetRun(s, k, Finish(false));
    }
    hide Keeps, Core, Harmless, RunFrame;
  }

  lemma RunStopEffect(s: State, k: nat)
    ensures var s' := NextRun(s, k, RunStop);
            RunFrame(s, s', k) && (OwnOk(s, k) ==> Keeps(s, s') && (Core(s) ==> OwnOk(s', k))) && Harmless(s, s')
  {
    if k in s.runs && s.runs[k].StopLeg? {}
  }

  lemma RunFinishFrame(s: State, k: nat)
    ensures var s' := NextRun(s, k, RunFinish);
            RunFrame(s, s', k)
  {
    if k in s.runs && s.runs[k].Finish? { if LeaseValid(s.job, k) {} }
  }

  lemma FinishJobKeeps(s: State, k: nat, ok: bool)
    requires ok ==> s.leg.Ended? && Terminal(s.status)
    ensures Keeps(s, s.(job := if ok then Complete(s.job, k) else Fail(s.job, k, true, false)))
  {
    if LeaseValid(s.job, k) { if ok {} else if s.job.attemptCount >= s.job.maxAttempts {} }
  }

  lemma RunFinishKeeps(s: State, k: nat)
    ensures var s' := NextRun(s, k, RunFinish);
            (OwnOk(s, k) ==> Keeps(s, s') && (Core(s) ==> OwnOk(s', k)))
  {
    var s' := NextRun(s, k, RunFinish);
    Unmoved(s);
    if k in s.runs && s.runs[k].Finish? && OwnOk(s, k) {
      var ok := s.runs[k].ok;
      FinishJobKeeps(s, k, ok);
      MovedRunKeeps(s, s.(job := if ok then Complete(s.job, k) else Fail(s.job, k, true, false)), s'.runs);
    }
    hide Keeps, Core;
  }

  lemma RunFinishRetires(s: State, k: nat)
    ensures var s' := NextRun(s, k, RunFinish);
            RetiredByRun(s, s', k)
  {
    if k in s.runs && s.runs[k].Finish? { if LeaseValid(s.job, k) {} }
  }

  lemma RunFinishEffect(s: State, k: nat)
    ensures var s' := NextRun(s, k, RunFinish);
            RunFrame(s, s', k) && (OwnOk(s, k) ==> Keeps(s, s') && (Core(s) ==> OwnOk(s', k))) && RetiredByRun(s, s', k)
  {
    hide NextRun, RunFrame, Keeps, Core, OwnOk, Harmless, RetiredByRun;
    RunFinishFrame(s, k);
    RunFinishKeeps(s, k);
    RunFinishRetires(s, k);
  }

  lemma RunDiesEffect(s: State, k: nat)
    ensures var s' := NextRun(s, k, RunDies);
            RunFrame(s, s', k) && (OwnOk(s, k) ==> Keeps(s, s') && (Core(s) ==> OwnOk(s', k))) && Harmless(s, s')
  {
    if k in s.runs {}
  }

  lemma RunEffects(s: State, k: nat, a: RunStep)
    ensures var s' := NextRun(s, k, a);
            && RunFrame(s, s', k) && (OwnOk(s, k) ==> Keeps(s, s') && (Core(s) ==> OwnOk(s', k)))
            && (if a.ClaimRun? then
                  Harmless(s, s'.(job := s'.job.(attemptCount := 0))) && s'.job.attemptCount <= s.job.attemptCount + 1
                else if a.RunFinish? then RetiredByRun(s, s', k)
                else Harmless(s, s'))
  {
    hide NextRun, Keeps, Harmless, RunFrame, OwnOk, RetiredByRun;
    match a
    case ClaimRun => ClaimRunEffect(s, k);
    case RunReadBrief(fails) => RunReadBriefEffect(s, k, fails);
    case RunReadTarget(fails) => RunReadTargetEffect(s, k, fails);
    case RunFetch(report, fails) => RunFetchEffect(s, k, report, fails);
    case RunApply(fails) => RunApplyEffect(s, k, fails);
    case RunLateFailure => RunLateFailureEffect(s, k);
    case RunStop => RunStopEffect(s, k);
    case RunFinish => RunFinishEffect(s, k);
    case RunDies => RunDiesEffect(s, k);
  }

  lemma LegCreatedEffect(s: State)
    ensures var s' := NextStore(s, LegCreated);
            StoreFrame(s, s') && Keeps(s, s') && Harmless(s, s')
  {
    if s.start.Calling? {}
  }

  lemma LegEndsEffect(s: State)
    ensures var s' := NextStore(s, LegEnds);
            StoreFrame(s, s') && Keeps(s, s') && Harmless(s, s')
  {
    if s.leg.Live? {}
  }

  lemma CallbackEffect(s: State, to: CallStatus)
    ensures var s' := NextStore(s, Callback(to));
            StoreFrame(s, s') && Keeps(s, s') && Harmless(s, s')
  {
    if Reports(s, to) {}
  }

  lemma LeaseRunsOutEffect(s: State)
    ensures var s' := NextStore(s, LeaseRunsOut);
            StoreFrame(s, s') && Keeps(s, s') && Harmless(s, s')
  {
    if s.job.status.Running? {}
  }

  lemma SweepLeaseEffect(s: State)
    ensures var s' := NextStore(s, SweepLease);
            StoreFrame(s, s') && Keeps(s, s') && RetiredBySweep(s, s')
  {
    if s.job.status.Running? && s.job.status.expired {}
  }

  lemma HangupReadsEffect(s: State)
    ensures var s' := NextStore(s, HangupReads);
            StoreFrame(s, s') && Keeps(s, s') && Harmless(s, s')
  {
    if s.attached && !Terminal(s.status) {}
  }

  lemma HangupEnqueuesEffect(s: State)
    ensures var s' := NextStore(s, HangupEnqueues);
            StoreFrame(s, s') && Keeps(s, s') && Harmless(s, s')
  {
    if s.recoveries > 0 {}
  }

  lemma HangupFailsEffect(s: State)
    ensures var s' := NextStore(s, HangupFails);
            StoreFrame(s, s') && Keeps(s, s') && Harmless(s, s')
  {
    if s.recoveries > 0 {}
  }

  lemma SeedEffect(s: State)
    ensures var s' := NextStore(s, Seed);
            StoreFrame(s, s') && Keeps(s, s') && Harmless(s, s')
  {
    if s.attached && Active(s.status) {}
  }

  lemma RecoverEffect(s: State)
    ensures var s' := NextStore(s, Recover);
            StoreFrame(s, s') && Keeps(s, s') && Harmless(s, s')
  {
    if Active(s.status) { if s.attached {} }
  }

  lemma RetryByAdminEffect(s: State)
    ensures var s' := NextStore(s, RetryByAdmin);
            StoreFrame(s, s') && Keeps(s, s') && Harmless(s, s')
  {
    if s.job.status.DeadLetter? {}
  }

  lemma DeleteDataEffect(s: State)
    ensures var s' := NextStore(s, DeleteData);
            StoreFrame(s, s') && Keeps(s, s') && RetiredByDeletion(s, s')
  {
    if Terminal(s.status) && !s.dataDeleted {}
  }

  lemma StoreEffects(s: State, a: StoreStep)
    ensures var s' := NextStore(s, a);
            StoreFrame(s, s') && Keeps(s, s')
            && (if a.SweepLease? then RetiredBySweep(s, s')
                else if a.DeleteData? then RetiredByDeletion(s, s')
                else Harmless(s, s'))
  {
    hide NextStore, Keeps, Harmless, StoreFrame, RetiredBySweep, RetiredByDeletion;
    match a
    case LegCreated => LegCreatedEffect(s);
    case LegEnds => LegEndsEffect(s);
    case Callback(to) => CallbackEffect(s, to);
    case LeaseRunsOut => LeaseRunsOutEffect(s);
    case SweepLease => SweepLeaseEffect(s);
    case HangupReads => HangupReadsEffect(s);
    case HangupEnqueues => HangupEnqueuesEffect(s);
    case HangupFails => HangupFailsEffect(s);
    case Seed => SeedEffect(s);
    case Recover => RecoverEffect(s);
    case RetryByAdmin => RetryByAdminEffect(s);
    case DeleteData => DeleteDataEffect(s);
  }

  lemma OthersStayOk(s: State, s': State, k: nat)
    requires Inv(s) && Core(s') && Grows(s, s') && s'.runs - {k} == s.runs - {k} && OwnOk(s', k)
    ensures Inv(s')
  {
    hide Core;
    forall j | j in s'.runs ensures RunOk(s', s'.runs[j]) {
      if j != k {
        assert j in s'.runs - {k} && (s'.runs - {k})[j] == s'.runs[j];
        assert j in s.runs && s.runs[j] == s'.runs[j];
      }
    }
  }

  lemma StepKeepsInv(s: State, a: Step)
    requires Inv(s)
    ensures Inv(Next(s, a)) && Grows(s, Next(s, a))
  {
    hide NextStart, NextAttach, NextStop, NextRun, NextStore, Core, Grows, Harmless, Targeted, RunOk;
    hide RetiredByRun, RetiredBySweep, RetiredByDeletion;
    match a {
      case Starting(b) => StartEffects(s, b);
      case Attaching(b) => AttachEffects(s, b);
      case Stopping(k, b) => StopEffects(s, k, b);
      case World(b) => StoreEffects(s, b);
      case Reconciling(k, b) => RunEffects(s, k, b);
    }
    var k := if a.Reconciling? then a.k else 0;
    assert OwnOk(Next(s, a), k) by { if !a.Reconciling? { RunOkGrows(s, Next(s, a), 0); } }
    OthersStayOk(s, Next(s, a), k);
  }

  lemma RunOkGrows(s: State, s': State, k: nat)
    requires Grows(s, s') && s'.runs == s.runs && OwnOk(s, k)
    ensures OwnOk(s', k)
  {
  }

  lemma RunKeepsInv(s: State, steps: seq<Step>)
    requires Inv(s)
    ensures Inv(Run(Next, s, steps))
  {
    forall t, a | Inv(t) ensures Inv(Next(t, a)) { StepKeepsInv(t, a); }
    RunKeeps(Next, Inv, s, steps);
  }

  // ---------------------------------------------------------------- theorems over every run

  lemma {:induction false} OverStaysOver(s: State, steps: seq<Step>)
    requires Inv(s)
    ensures Grows(s, Run(Next, s, steps))
    decreases |steps|
  {
    if steps != [] {
      StepKeepsInv(s, steps[0]);
      OverStaysOver(Next(s, steps[0]), steps[1..]);
    }
  }

  /** In every interleaving the leg whose id `start` received is covered, except exactly when a live,
      unstopped leg has lost its deadline: the job died after five claims, the owner deleted the
      call data, or the process running `start` died with the id in hand before any job existed. */
  lemma CoveredUnlessLetGo(steps: seq<Step>)
    ensures var s := Run(Next, INIT, steps);
            !Covered(s) <==> s.idReceived && LetGo(s) && !StartHolds(s.start)
  {
    RunKeepsInv(INIT, steps);
  }

  predicate IsClaim(a: Step) {
    a.Reconciling? && a.run.ClaimRun?
  }

  /** How often the deadline was claimed in a run. */
  function Claims(steps: seq<Step>): nat {
    if steps == [] then 0 else (if IsClaim(steps[0]) then 1 else 0) + Claims(steps[1..])
  }

  /** One step adds a cause of letting go only if it is that cause. */
  lemma StepCauses(s: State, a: Step)
    ensures var s' := Next(s, a);
            && (s'.diedHolding ==> s.diedHolding || a == Starting(Die))
            && (s'.job.status.Cancelled? ==> s.job.status.Cancelled? || a == World(DeleteData))
            && s'.job.attemptCount <= s.job.attemptCount + (if IsClaim(a) then 1 else 0)
  {
    hide NextStart, NextAttach, NextStop, NextRun, NextStore, Keeps, StartFrame, StopFrame, RunFrame, StoreFrame, OwnOk;
    match a
    case Starting(b) => StartEffects(s, b);
    case Attaching(b) => AttachEffects(s, b);
    case Stopping(k, b) => StopEffects(s, k, b);
    case Reconciling(k, b) => RunEffects(s, k, b);
    case World(b) => StoreEffects(s, b);
  }

  lemma {:induction false} RunCauses(s: State, steps: seq<Step>)
    ensures var t := Run(Next, s, steps);
            && (t.diedHolding ==> s.diedHolding || Starting(Die) in steps)
            && (t.job.status.Cancelled? ==> s.job.status.Cancelled? || World(DeleteData) in steps)
            && t.job.attemptCount <= s.job.attemptCount + Claims(steps)
    decreases |steps|
  {
    hide Next;
    if steps != [] {
      StepCauses(s, steps[0]);
      RunCauses(Next(s, steps[0]), steps[1..]);
      assert steps == [steps[0]] + steps[1..];
    }
  }

  /** Each of the three ways of letting go has its cause in the run; a run without a process death,
      without a data deletion and with fewer than five claims keeps every leg covered. */
  lemma LettingGoHasACause(steps: seq<Step>)
    ensures var s := Run(Next, INIT, steps);
            && (!Covered(s) && s.job.status.DeadLetter? ==> Claims(steps) >= MAX_ATTEMPTS)
            && (!Covered(s) && s.job.status.Cancelled? ==> World(DeleteData) in steps)
            && (!Covered(s) && s.job.status.Absent? ==> Starting(Die) in steps)
            && (Starting(Die) !in steps && World(DeleteData) !in steps && Claims(steps) < MAX_ATTEMPTS ==> Covered(s))
  {
    InitInv();
    RunKeepsInv(INIT, steps);
    RunCauses(INIT, steps);
  }

  /** What takes an outstanding deadline away: a run that saw and recorded the end of the leg, the
      fifth failed claim, or the deletion of the data of a finished call. */
  lemma DeadlineRetired(steps: seq<Step>, a: Step)
    ensures var s, s' := Run(Next, INIT, steps), Next(Run(Next, INIT, steps), a);
            Outstanding(s.job) && !Outstanding(s'.job) ==>
            || (&& a.Reconciling? && a.run.RunFinish? && a.k in s.runs && s.runs[a.k] == Finish(true)
                && s'.job.status.Succeeded? && s'.leg.Ended? && Terminal(s'.status))
            || ((a == World(SweepLease) || (a.Reconciling? && a.run.RunFinish?))
                && s'.job.status.DeadLetter? && s'.job.attemptCount >= MAX_ATTEMPTS)
            || (a == World(DeleteData) && s'.job.status.Cancelled? && Terminal(s'.status))
  {
    hide NextStart, NextAttach, NextStop, NextRun, NextStore, Points, Guarded;
    InitInv();
    RunKeepsInv(INIT, steps);
    var s, s' := Run(Next, INIT, steps), Next(Run(Next, INIT, steps), a);
    StepKeepsInv(s, a);
    match a
    case Starting(b) => StartEffects(s, b);
    case Attaching(b) => AttachEffects(s, b);
    case Stopping(k, b) => StopEffects(s, k, b);
    case Reconciling(k, b) => RunEffects(s, k, b);
    case World(b) => StoreEffects(s, b);
  }

  lemma InitInv()
    ensures Inv(INIT)
  {
  }

  /** The steps of one run that nothing disturbs and that finds the leg still running. */
  function FindingRun(k: nat, report: CallStatus): seq<Step> {
    [ Reconciling(k, ClaimRun), Reconciling(k, RunReadBrief(false)), Reconciling(k, RunReadTarget(false)),
      Reconciling(k, RunFetch(report, false)), Reconciling(k, RunApply(false)), Reconciling(k, RunStop) ]
  }

  lemma TwoSteps(s: State, a: Step, b: Step)
    ensures Run(Next, s, [a, b]) == Next(Next(s, a), b)
  {
    hide Next;
    RunAppend(Next, s, [], a);
    RunAppend(Next, s, [a], b);
    assert [] + [a] == [a] && [a] + [b] == [a, b];
  }

  lemma {:induction false} RunConcat(s: State, xs: seq<Step>, ys: seq<Step>)
    ensures Run(Next, s, xs + ys) == Run(Next, Run(Next, s, xs), ys)
    decreases |xs|
  {
    hide Next;
    if xs == [] {
      assert xs + ys == ys;
    } else {
      RunConcat(Next(s, xs[0]), xs[1..], ys);
      assert (xs + ys)[1..] == xs[1..] + ys;
    }
  }

  lemma SixSteps(s: State, a: Step, b: Step, c: Step, d: Step, e: Step, f: Step)
    ensures Run(Next, s, [a, b, c, d, e, f]) == Next(Next(Next(Next(Next(Next(s, a), b), c), d), e), f)
  {
    hide Next;
    var ab, cd, ef := [a, b], [c, d], [e, f];
    TwoSteps(s, a, b);
    TwoSteps(Next(Next(s, a), b), c, d);
    TwoSteps(Next(Next(Next(Next(s, a), b), c), d), e, f);
    RunConcat(s, ab, cd);
    RunConcat(s, ab + cd, ef);
    assert ab + cd + ef == [a, b, c, d, e, f];
  }

  lemma ClaimedAndRead(s: State, k: nat)
    requires s.job.status.Queued? && k !in s.runs
    ensures var t := Next(Next(s, Reconciling(k, ClaimRun)), Reconciling(k, RunReadBrief(false)));
            && k in t.runs && t.runs[k] == (if s.dataDeleted then Finish(false) else ReadTarget)
            && t == s.(job := Claim(s.job, k), runs := t.runs)
  {
    var pc := if s.dataDeleted then Finish(false) else ReadTarget;
    assert s.runs[k := ReadBrief][k := pc] == s.runs[k := pc];
  }

  lemma TargetRead(t: State, k: nat)
    requires k in t.runs && t.runs[k].ReadTarget?
    ensures var u := Next(t, Reconciling(k, RunReadTarget(false)));
            && k in u.runs && u.runs[k] == (if t.attached then Fetch else Finish(false))
            && u == t.(runs := u.runs)
  {
  }

  lemma FetchedAndApplied(t: State, k: nat, report: CallStatus)
    requires k in t.runs && t.runs[k].Fetch? && LeaseValid(t.job, k) && Reports(t, report)
    ensures var u := Next(Next(t, Reconciling(k, RunFetch(report, false))), Reconciling(k, RunApply(false)));
            && k in u.runs && u.runs[k] == (if Terminal(report) then Finish(true) else StopLeg)
            && u == ApplyStatus(t, report).(runs := u.runs)
  {
    var pc := if Terminal(report) then Finish(true) else StopLeg;
    assert t.runs[k := Apply(report)][k := pc] == t.runs[k := pc];
  }

  lemma StopsIfOpen(u: State, k: nat)
    requires k in u.runs && (u.runs[k].StopLeg? || u.runs[k].Finish?)
    ensures var v := Next(u, Reconciling(k, RunStop));
            && k in v.runs && v.runs[k] == (if u.runs[k].StopLeg? then Finish(false) else u.runs[k])
            && v == u.(runs := v.runs, stopIssued := u.stopIssued || u.runs[k].StopLeg?)
  {
  }

  lemma FinishedIdles(t: State, k: nat, report: CallStatus)
    requires k in t.runs && t.runs[k].Finish?
    ensures Next(t, Reconciling(k, RunReadTarget(false))) == t
    ensures Next(t, Reconciling(k, RunFetch(report, false))) == t
    ensures Next(t, Reconciling(k, RunApply(false))) == t && Next(t, Reconciling(k, RunStop)) == t
  {
  }

  /** With its report to the queue. */
  function WholeRun(k: nat, report: CallStatus): seq<Step> {
    FindingRun(k, report) + [Reconciling(k, RunFinish)]
  }

  /** The run finds the call and the id of the leg. */
  predicate Found(s: State) {
    s.attached && !s.dataDeleted
  }

  /** Where an undisturbed run has come before it reports to the queue. */
  lemma FindingRunEnds(s: State, k: nat, report: CallStatus)
    requires s.job.status.Queued? && k !in s.runs && Reports(s, report)
    ensures var t := Run(Next, s, FindingRun(k, report));
            && k in t.runs && t.runs[k] == Finish(Found(s) && Terminal(report))
            && t.job == Claim(s.job, k)
            && t.stopIssued == (s.stopIssued || (Found(s) && !Terminal(report)))
            && t.status == (if Found(s) && ShouldApply(s.status, report) then report else s.status)
  {
    SixSteps(s, Reconciling(k, ClaimRun), Reconciling(k, RunReadBrief(false)), Reconciling(k, RunReadTarget(false)),
      Reconciling(k, RunFetch(report, false)), Reconciling(k, RunApply(false)), Reconciling(k, RunStop));
    ClaimedAndRead(s, k);
    var t := Next(Next(s, Reconciling(k, ClaimRun)), Reconciling(k, RunReadBrief(false)));
    if s.dataDeleted {
      hide Next;
      FinishedIdles(t, k, report);
    } else {
      TargetRead(t, k);
      var u := Next(t, Reconciling(k, RunReadTarget(false)));
      if s.attached {
        FetchedAndApplied(u, k, report);
        StopsIfOpen(Next(Next(u, Reconciling(k, RunFetch(report, false))), Reconciling(k, RunApply(false))), k);
        hide Next;
      } else {
        hide Next;
        FinishedIdles(u, k, report);
      }
    }
  }

  /** Whatever the provider says of a leg that is still live, an undisturbed run stops it exactly if the
      call still has its data and the attempt carries the id of the leg. */
  lemma FindingRunStops(s: State, k: nat, report: CallStatus)
    requires s.job.status.Queued? && s.leg.Live? && !s.stopIssued && k !in s.runs
    requires report.Dialing? || report.InProgress?
    ensures Run(Next, s, FindingRun(k, report)).stopIssued <==> Found(s)
  {
    FindingRunEnds(s, k, report);
  }

  /**
   * What an undisturbed run makes of its claim, for every report of the provider: it succeeds exactly if
   * it recorded the end of the leg, and the call is then over; otherwise the claim is used up and the job
   * waits for the next one, or is dead after the last. A leg that is not over is stopped.
   */
  lemma WholeRunSettles(s: State, k: nat, report: CallStatus)
    requires s.job.status.Queued? && k !in s.runs && Reports(s, report)
    ensures var t := Run(Next, s, WholeRun(k, report));
            && (t.job.status.Succeeded? <==> Found(s) && Terminal(report))
            && (t.job.status.Succeeded? ==> Terminal(t.status))
            && (t.job.status.Queued? <==>
                !(Found(s) && Terminal(report)) && s.job.attemptCount + 1 < s.job.maxAttempts)
            && (t.job.status.DeadLetter? <==>
                !(Found(s) && Terminal(report)) && s.job.attemptCount + 1 >= s.job.maxAttempts)
            && t.job.attemptCount == s.job.attemptCount + 1
            && (t.stopIssued <==> s.stopIssued || (Found(s) && !Terminal(report)))
            && k !in t.runs
  {
    FindingRunEnds(s, k, report);
    RunAppend(Next, s, FindingRun(k, report), Reconciling(k, RunFinish));
    hide FindingRun;
  }

  /** In every run, administrators and late recoveries included: a queued deadline of a leg that is live
      and unstopped is effective, its next undisturbed run stops the leg, if and only if the data of the
      call were not deleted. */
  lemma OutstandingDeadlineStops(steps: seq<Step>, k: nat, report: CallStatus)
    requires report.Dialing? || report.InProgress?
    ensures var s := Run(Next, INIT, steps);
            s.job.status.Queued? && s.leg.Live? && !s.stopIssued && k !in s.runs ==>
            (Run(Next, s, FindingRun(k, report)).stopIssued <==> !s.dataDeleted)
  {
    InitInv();
    RunKeepsInv(INIT, steps);
    var s := Run(Next, INIT, steps);
    if s.job.status.Queued? && s.leg.Live? && !s.stopIssued && k !in s.runs {
      FindingRunStops(s, k, report);
    }
  }

  /** In every run: an undisturbed run that hears of the end of the leg settles the deadline, if and only if
      the data of the call were not deleted. */
  lemma EndedLegSettles(steps: seq<Step>, k: nat, report: CallStatus)
    requires report.Completed? || report.Failed?
    ensures var s := Run(Next, INIT, steps);
            s.job.status.Queued? && s.leg.Ended? && k !in s.runs ==>
            (Run(Next, s, WholeRun(k, report)).job.status.Succeeded? <==> !s.dataDeleted)
  {
    InitInv();
    RunKeepsInv(INIT, steps);
    var s := Run(Next, INIT, steps);
    if s.job.status.Queued? && s.leg.Ended? && k !in s.runs {
      WholeRunSettles(s, k, report);
    }
  }

  /** What a provider status changes: it attaches the leg, ends an open call when it is terminal, and
      otherwise only takes a call from its start to the dial and from the dial to the conversation. */
  lemma CallbackApplies(s: State, to: CallStatus)
    requires Reports(s, to)
    ensures !to.Stopped? && !to.Ready? && !to.AwaitingApproval?
    ensures var t := Next(s, World(Callback(to)));
            && t == s.(attached := true, status := t.status)
            && (Terminal(to) && !Terminal(s.status) ==> t.status == to)
            && (Terminal(s.status) || (s.status.AwaitingApproval? && !Terminal(to)) ==> t.status == s.status)
            && (to.Dialing? ==> t.status == if s.status.Ready? then Dialing else s.status)
            && (to.InProgress? ==> t.status == if s.status.Dialing? then InProgress else s.status)
  {
  }

  /** A stop takes its awaits in order, and one that dies does nothing more. */
  lemma StopsInOrder(s: State, k: nat, a: StopStep)
    requires k in s.stops
    ensures var t, pc := NextStop(s, k, a), s.stops[k];
            && (a.StopBegin? || (a.StopReadAttempt? && !pc.ReadAttempt?) ==> t == s)
            && ((a.StopReadCall? && !pc.ReadCall?) || (a.StopProvider? && !pc.AskProvider?) ==> t == s)
            && (a.StopLocal? && !pc.ChangeLocal? ==> t == s)
            && (a.StopDies? ==> t == s.(stops := s.stops[k := StopDone]))
  {
  }

  /** So does a reconciliation run, which begins with the claim of a queued job. */
  lemma RunsInOrder(s: State, k: nat, a: RunStep)
    ensures var t := NextRun(s, k, a);
            && (a.ClaimRun? && (k in s.runs || !s.job.status.Queued?) ==> t == s)
            && (!a.ClaimRun? && k !in s.runs ==> t == s)
    ensures k in s.runs ==> var t, pc := NextRun(s, k, a), s.runs[k];
            && ((a.RunReadBrief? && !pc.ReadBrief?) || (a.RunReadTarget? && !pc.ReadTarget?) ==> t == s)
            && ((a.RunFetch? && !pc.Fetch?) || (a.RunApply? && !pc.Apply?) ==> t == s)
            && ((a.RunStop? && !pc.StopLeg?) || (a.RunFinish? && !pc.Finish?) ==> t == s)
            && (a.RunLateFailure? && !pc.StopLeg? && !pc.Finish? ==> t == s)
  {
  }

  predicate OnlyRun(s: State, t: State, k: nat, pc: RunPc) {
    t == s.(runs := s.runs[k := pc])
  }

  /** A run in which an await throws, or that has lost its lease when it reports, fails and does nothing else. */
  lemma FaultEndsTheRun(s: State, k: nat, report: CallStatus)
    requires k in s.runs
    ensures s.runs[k].ReadBrief? ==> OnlyRun(s, NextRun(s, k, RunReadBrief(true)), k, Finish(false))
    ensures s.runs[k].ReadTarget? ==> OnlyRun(s, NextRun(s, k, RunReadTarget(true)), k, Finish(false))
    ensures s.runs[k].Fetch? ==> OnlyRun(s, NextRun(s, k, RunFetch(report, true)), k, Finish(false))
  {
  }

  lemma LateFaultEndsTheRun(s: State, k: nat, fails: bool)
    requires k in s.runs
    ensures s.runs[k].Apply? && (fails || !LeaseValid(s.job, k)) ==>
      OnlyRun(s, NextRun(s, k, RunApply(fails)), k, Finish(false))
    ensures s.runs[k].StopLeg? || s.runs[k].Finish? ==> OnlyRun(s, NextRun(s, k, RunLateFailure), k, Finish(false))
    ensures NextRun(s, k, RunDies) == s.(runs := s.runs - {k})
  {
  }

  /** A leg ends once it lives, whatever else is under way. */
  lemma LegsEnd(s: State)
    ensures Next(s, World(LegEnds)) == s.(leg := if s.leg.Live? then Ended else s.leg)
  {
  }

  /** A dial that fails, or returns no id, goes on to mark the call as failed. */
  lemma FailedDialIsMarked(s: State)
    ensures s.start.Reserved? || s.start.Calling? ==> Next(s, Starting(CallThrows)) == s.(start := FailRead)
    ensures s.start.Calling? ==> Next(s, Starting(CallReturns(false))) == s.(start := FailRead)
    ensures s.start.AttachFailed? ==>
      Next(s, Attaching(StopAfterFailure)) == s.(start := FailRead, stopIssued := true)
  {
  }

  /** The mark ends a call that is still open and leaves one that is over; when one of its two awaits throws,
      the status stays. */
  lemma MarkEndsTheCall(s: State)
    requires s.start.FailRead?
    ensures var read := Next(s, Starting(MarkFailedRead(false)));
            && Next(read, Starting(MarkFailedWrite(false))) ==
                s.(start := Threw, status := if Terminal(s.status) then s.status else Failed)
            && Next(read, Starting(MarkFailedWrite(true))) == s.(start := Threw)
            && Next(s, Starting(MarkFailedRead(true))) == s.(start := Threw)
  {
  }

  /** The attachment records the leg, and asks for a deadline exactly while the call is open; it restarts none. */
  lemma AttachmentAsks(s: State)
    requires s.start.Holding?
    ensures var t := Next(s, Attaching(Attach(true)));
            && t.attached && t.start == AttachCommitted(Terminal(s.status))
            && t.job == (if s.job.status.Absent? && !Terminal(s.status) then Job(Queued, 0, MAX_ATTEMPTS) else s.job)
    ensures Next(s, Attaching(Attach(false))) == s.(start := AttachFailed)
  {
  }

  /** A hang-up recovery starts exactly for an open call whose leg is known, and leaves a deadline, unless a
      deletion cancelled it in between. */
  lemma RecoveryAsks(s: State)
    requires s.recoveries > 0
    ensures Next(s, World(HangupEnqueues)).recoveries == s.recoveries - 1
    ensures !s.job.status.Cancelled? ==> Outstanding(Next(s, World(HangupEnqueues)).job)
  {
  }

  lemma RecoveryReads(s: State)
    ensures Next(s, World(HangupReads)).recoveries ==
      if s.attached && !Terminal(s.status) then s.recoveries + 1 else s.recoveries
  {
  }

  /** An administrator puts a dead job back with all its claims. */
  lemma RetryQueues(s: State)
    requires s.job.status.DeadLetter?
    ensures Next(s, World(RetryByAdmin)).job == Job(Queued, 0, s.job.maxAttempts)
  {
  }

  /** An open call whose leg is known and that never had a deadline gets one, at the next seeding and at
      the next restart. */
  lemma AbsentDeadlineIsAsked(s: State)
    requires Active(s.status) && s.attached && s.job.status.Absent?
    ensures Next(s, World(Seed)).job == Job(Queued, 0, MAX_ATTEMPTS)
    ensures Next(s, World(Recover)).job == Job(Queued, 0, MAX_ATTEMPTS)
  {
  }

  /** The seeding asks for nobody else, and restarts no deadline. */
  lemma SeedingAsksOnly(s: State)
    ensures var t := Next(s, World(Seed));
            t == s || (s.attached && Active(s.status) && s.job.status.Absent? && t == s.(job := t.job))
    ensures s.recoveries > 0 ==> Next(s, World(HangupFails)) == s.(recoveries := s.recoveries - 1)
  {
  }

  predicate LeftBehind(s: State) {
    !s.attached && (s.status.Dialing? || s.status.InProgress? || s.status.AwaitingApproval?)
  }

  /** A restart ends a call that it cannot follow, leaves alone one that is over, and restarts no deadline. */
  lemma RestartEndsOrFollows(s: State)
    ensures var t := Next(s, World(Recover));
            && (t.status.Failed? <==> s.status.Failed? || LeftBehind(s))
            && (t.job != s.job ==> s.attached && !Terminal(s.status) && s.job.status.Absent?)
  {
  }

  /** A deletion is refused while the call is open, and leaves neither the id nor a deadline otherwise. */
  lemma DeletionErases(s: State)
    ensures var t := Next(s, World(DeleteData));
            if Terminal(s.status) && !s.dataDeleted then t.dataDeleted && !t.attached && !Outstanding(t.job)
            else t == s
  {
  }

  /** A run whose worker is gone is made up for while claims are left, and given up afterwards. */
  lemma LostRunIsMadeUpFor(s: State)
    ensures var t := Next(Next(s, World(LeaseRunsOut)), World(SweepLease));
            && (s.job.status.Running? ==>
                t.job.status == if s.job.attemptCount >= s.job.maxAttempts then DeadLetter else Queued)
            && (!s.job.status.Running? ==> t == s)
            && t == s.(job := t.job) && t.job.attemptCount == s.job.attemptCount
  {
  }

  // ---------------------------------------------------------------- what does happen

  ghost predicate Occurs(s: State) {
    Reachable(Next, INIT, s)
  }

  /** `start` is past the dial and holds the id of a live leg. */
  lemma Dialled() returns (s: State)
    ensures Occurs(s)
    ensures s == INIT.(status := Dialing, leg := Live, idReceived := true, start := Holding)
  {
    s := INIT;
    InitReachable(Next, INIT);
    s := Extend(Next, INIT, s, Starting(Reserve));
    s := Extend(Next, INIT, s, Starting(Call));
    s := Extend(Next, INIT, s, World(LegCreated));
    s := Extend(Next, INIT, s, Starting(CallReturns(true)));
  }

  /** A stopped call whose provider leg nobody has stopped: `stop` read the attempt before `start`
      attached the id and re-read the call afterwards. Only the deadline still covers the leg. */
  lemma StoppedWithoutProviderStop() returns (s: State)
    ensures Occurs(s)
    ensures s.status.Stopped? && s.idReceived && s.leg.Live? && !s.stopIssued
    ensures s.start.Returned? && s.stops == map[0 := StopDone] && s.runs == map[]
    ensures s.job == Job(Queued, 0, MAX_ATTEMPTS) && !s.dataDeleted
  {
    s := Dialled();
    s := Extend(Next, INIT, s, Stopping(0, StopBegin(true)));
    s := Extend(Next, INIT, s, Stopping(0, StopReadAttempt));
    s := Extend(Next, INIT, s, Attaching(Attach(true)));
    s := Extend(Next, INIT, s, Attaching(ReadSnapshot(false)));
    s := Extend(Next, INIT, s, Attaching(Schedule));
    s := Extend(Next, INIT, s, Stopping(0, StopReadCall));
    s := Extend(Next, INIT, s, Stopping(0, StopProvider(false)));
    s := Extend(Next, INIT, s, Stopping(0, StopLocal));
  }

  lemma ProcessDeathLetsGo() returns (s: State)
    ensures Occurs(s) && !Covered(s) && s.diedHolding
  {
    s := Dialled();
    s := Extend(Next, INIT, s, Starting(Die));
  }

  lemma DataDeletionLetsGo() returns (s: State)
    ensures Occurs(s) && !Covered(s) && s.job.status.Cancelled?
  {
    s := StoppedWithoutProviderStop();
    s := Extend(Next, INIT, s, World(DeleteData));
  }

  /** One run that cannot read its target, on the n-th claim. */
  lemma FailedRun(s: State, k: nat) returns (s': State)
    requires Occurs(s) && s.job.status.Queued? && s.job.maxAttempts == MAX_ATTEMPTS && s.runs == map[]
    ensures Occurs(s') && s' == s.(job := s'.job)
    ensures s'.job == Job(if s.job.attemptCount + 1 >= MAX_ATTEMPTS then DeadLetter else Queued,
                          s.job.attemptCount + 1, MAX_ATTEMPTS)
  {
    s' := Extend(Next, INIT, s, Reconciling(k, ClaimRun));
    s' := Extend(Next, INIT, s', Reconciling(k, RunReadBrief(true)));
    s' := Extend(Next, INIT, s', Reconciling(k, RunFinish));
    assert s'.runs == map[];
  }

  lemma FiveFailedRunsLetGo() returns (s: State)
    ensures Occurs(s) && !Covered(s) && s.job == Job(DeadLetter, MAX_ATTEMPTS, MAX_ATTEMPTS)
    ensures s.status.Stopped? && s.leg.Live? && !s.stopIssued && s.runs == map[] && !s.dataDeleted
  {
    s := StoppedWithoutProviderStop();
    s := FailedRun(s, 1);
    s := FailedRun(s, 2);
    s := FailedRun(s, 3);
    s := FailedRun(s, 4);
    s := FailedRun(s, 5);
  }

  /** A dead job put back after the data of its call were deleted is outstanding without a target. */
  lemma RetryAfterDeletionIsBlind() returns (s: State)
    ensures Occurs(s) && s.job.status.Queued? && s.leg.Live? && !s.stopIssued && s.dataDeleted && !s.attached &&
      s.runs == map[]
    ensures s.status.Stopped?
  {
    s := FiveFailedRunsLetGo();
    s := Extend(Next, INIT, s, World(DeleteData));
    s := Extend(Next, INIT, s, World(RetryByAdmin));
  }

  /** A provider status that arrives later writes the id back, and the deadline stays blind: the call is
      no longer found. */
  lemma BlindThoughAttached() returns (s: State)
    ensures Occurs(s) && s.job.status.Queued? && s.leg.Live? && !s.stopIssued && s.dataDeleted && s.attached
  {
    s := RetryAfterDeletionIsBlind();
    s := Extend(Next, INIT, s, World(Callback(InProgress)));
  }

  /** The reads of a stop lie on either side of the attachment; five runs have failed meanwhile, and a
      hang-up recovery has read its live attempt. */
  lemma RecoveryInFlight() returns (s: State)
    ensures Occurs(s) && s.leg.Live? && !s.stopIssued && !s.dataDeleted && s.status.Dialing?
    ensures s.job.status.DeadLetter? && s.recoveries == 1 && s.stops == map[0 := ReadCall(false)]
  {
    s := Dialled();
    s := Extend(Next, INIT, s, Stopping(0, StopBegin(true)));
    s := Extend(Next, INIT, s, Stopping(0, StopReadAttempt));
    s := Extend(Next, INIT, s, Attaching(Attach(true)));
    s := Extend(Next, INIT, s, Attaching(ReadSnapshot(false)));
    s := Extend(Next, INIT, s, Attaching(Schedule));
    s := FailedRun(s, 1);
    s := FailedRun(s, 2);
    s := FailedRun(s, 3);
    s := FailedRun(s, 4);
    s := FailedRun(s, 5);
    s := Extend(Next, INIT, s, World(HangupReads));
  }

  /** No administrator is needed: the recovery enqueues after the call was stopped and its data deleted. */
  lemma LateRecoveryIsBlind() returns (s: State)
    ensures Occurs(s) && s.job.status.Queued? && s.leg.Live? && !s.stopIssued && s.dataDeleted && !s.attached
  {
    s := RecoveryInFlight();
    s := Extend(Next, INIT, s, Stopping(0, StopReadCall));
    s := Extend(Next, INIT, s, Stopping(0, StopProvider(false)));
    s := Extend(Next, INIT, s, Stopping(0, StopLocal));
    s := Extend(Next, INIT, s, World(DeleteData));
    s := Extend(Next, INIT, s, World(HangupEnqueues));
  }
}
