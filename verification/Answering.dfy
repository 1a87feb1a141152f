/** The answering state of one attempt and its transitions under the repository's call lock. */
module AnsweringPolicy {
  import opened Options

  datatype Phase = Pending | Resolved | Failed

  datatype Decision = Consent | Message | HangUp

  datatype Playback = NotRequested | NotAttempted | Issued | Completed | Interrupted | Uncertain

  datatype Action = HangUpAction | LeaveNeutralMessage

  datatype Mode = Enable | DetectMessageEnd

  datatype Answer = Human | Unknown | Fax | MachineStart | MachineEndBeep | MachineEndSilence | MachineEndOther

  datatype Kind = Bind | Resolve | Complete | Admit | Dispatch | Expire | Timeout

  datatype Answering = Answering(
    phase: Phase,
    runsAsync: bool,
    actionDispatched: bool,
    decision: Option<Decision>,
    streamAdmitted: bool,
    message: Playback)

  /** `version3` stands for an execution snapshot of version 3; `currentPolicy` for its answering
      policy version being the current one. */
  datatype Attempt = Attempt(
    id: nat,
    onTwilio: bool,
    providerCallId: Option<nat>,
    snapshotHash: nat,
    version3: bool,
    action: Action,
    currentPolicy: bool,
    ended: bool)

  datatype Input = Input(attemptId: nat, providerCallId: nat, snapshotHash: nat, kind: Kind, answeredBy: Option<Answer>)

  datatype Outcome = Outcome(state: Option<Answering>, decision: Decision, applied: bool)

  function Decide(action: Action, answer: Option<Answer>, currentPolicy: bool): Decision {
    if answer == Some(Human) || (answer == Some(Unknown) && currentPolicy) then Consent
    else if answer == Some(MachineEndBeep) && action.LeaveNeutralMessage? then Message
    else HangUp
  }

  /** Detection waits for the end of a greeting only if there is a message to leave. */
  function ModeOf(action: Action): Mode {
    if action.HangUpAction? then Enable else DetectMessageEnd
  }

  predicate Compatible(mode: Mode, answer: Option<Answer>) {
    match answer
    case None => false
    case Some(a) =>
      a.Human? || a.Unknown? || a.Fax? ||
      if mode.Enable? then a.MachineStart? else a.MachineEndBeep? || a.MachineEndSilence? || a.MachineEndOther?
  }

  predicate Targets(a: Attempt, input: Input) {
    && a.id == input.attemptId
    && a.snapshotHash == input.snapshotHash
    && (a.providerCallId.Some? ==> a.providerCallId.value == input.providerCallId)
    && a.onTwilio
    && a.version3
  }

  function Fresh(a: Attempt): Answering {
    Answering(Pending, false, false, None, false, if a.action.HangUpAction? then NotRequested else NotAttempted)
  }

  /** A detection result, or the deadline that replaces it. */
  function Settle(a: Attempt, current: Option<Answering>, input: Input): Outcome {
    var failure := input.kind.Timeout? || !Compatible(ModeOf(a.action), input.answeredBy);
    var decision := if failure then HangUp else Decide(a.action, input.answeredBy, a.currentPolicy);
    var runsAsync := current.Some? && current.value.runsAsync;
    Outcome(Some(Answering(
      if failure then Failed else Resolved,
      runsAsync,
      false,
      Some(decision),
      current.Some? && current.value.streamAdmitted,
      if decision.Message? && !runsAsync then Issued
      else if a.action.HangUpAction? then NotRequested else NotAttempted)), decision, true)
  }

  function Transition(a: Attempt, current: Option<Answering>, input: Input, active: bool): Outcome {
    var deny := Outcome(current, HangUp, false);
    if !Targets(a, input) then deny
    else match input.kind
      case Bind =>
        if !active && a.providerCallId != Some(input.providerCallId) then deny
        else Outcome(if current.Some? then current else Some(Fresh(a)), HangUp, true)
      case Complete =>
        if current.None? || !(current.value.message.Issued? || current.value.message.Uncertain?) then deny
        else Outcome(Some(current.value.(message := Completed)), HangUp, true)
      case Admit =>
        if !active || a.ended || current.None? || current.value.actionDispatched || current.value.streamAdmitted ||
           (!current.value.runsAsync && current.value.decision != Some(Consent)) then deny
        else Outcome(Some(current.value.(streamAdmitted := true)), Consent, true)
      case Dispatch =>
        if !active || a.ended || current.None? || !current.value.runsAsync || !current.value.streamAdmitted ||
           current.value.phase.Pending? || current.value.decision.None? || current.value.decision.value.Consent? ||
           current.value.actionDispatched then deny
        else Outcome(Some(current.value.(actionDispatched := true,
            message := if current.value.decision.value.Message? then Issued else current.value.message)),
          current.value.decision.value, true)
      case Expire =>
        if !active || a.ended || current.None? || !current.value.runsAsync ||
           (current.value.streamAdmitted && current.value.decision == Some(Consent)) then deny
        else Outcome(Some(current.value.(actionDispatched := true)), HangUp, true)
      case _ =>
        if !active || a.ended then deny
        else if current.Some? && !current.value.phase.Pending? &&
          !(input.kind.Timeout? && current.value.decision == Some(Consent) && !current.value.streamAdmitted) then deny
        else Settle(a, current, input)
  }

  /** Everything about the call that the transition reads. */
  datatype Store = Store(
    attempt: Attempt,
    latest: bool,
    open: bool,              // the call is dialing or in progress
    stopRequested: bool,
    consentGranted: bool,
    current: Option<Answering>,
    written: set<Kind>)      // idempotency keys of the answering events already stored

  predicate ActiveFor(s: Store, kind: Kind) {
    s.latest && s.open && !s.stopRequested && !((kind.Dispatch? || kind.Expire?) && s.consentGranted)
  }

  function Apply(s: Store, input: Input): Outcome {
    Transition(s.attempt, s.current, input, ActiveFor(s, input.kind))
  }

  /** The event of a kind is stored once; a repeated one is silently dropped. */
  function Stored(s: Store, input: Input): Store {
    var o := Apply(s, input);
    if !o.applied || o.state.None? then s
    else
      var attempt :=
        if s.attempt.providerCallId.None? then s.attempt.(providerCallId := Some(input.providerCallId))
        else s.attempt;
      if input.kind in s.written then s.(attempt := attempt)
      else s.(attempt := attempt, current := o.state, written := s.written + {input.kind})
  }

  /** A dispatched terminal action: the shape that no later transition leaves. */
  predicate Dispatched(current: Option<Answering>) {
    && current.Some?
    && current.value.actionDispatched
    && !current.value.phase.Pending?
    && current.value.decision.Some?
    && !current.value.decision.value.Consent?
  }

  /** Dispatch is a compare-and-set that holds for good: after it applied, no transition of any kind,
      with any input and in any state of the call, makes it applicable again. */
  lemma DispatchIsFinal(s: Store, input: Input)
    requires Dispatched(s.current)
    ensures Dispatched(Stored(s, input).current)
    ensures input.kind.Dispatch? ==> !Apply(s, input).applied
  {
  }

  // ---------------------------------------------------------------- what an answer leads to

  /** The request names this attempt, its plan and its leg. */
  predicate Addressed(a: Attempt, input: Input) {
    && input.attemptId == a.id && input.snapshotHash == a.snapshotHash
    && (a.providerCallId.None? || input.providerCallId == a.providerCallId.value)
    && a.onTwilio && a.version3
  }

  /** Nothing has replaced, ended or stopped the attempt. */
  predicate Ongoing(s: Store) {
    s.latest && s.open && !s.stopRequested && !s.attempt.ended
  }

  predicate AwaitsAnswer(s: Store) {
    s.current.None? || s.current.value.phase.Pending?
  }

  predicate Asynchronous(s: Store) {
    s.current.Some? && s.current.value.runsAsync
  }

  predicate Admitted(s: Store) {
    s.current.Some? && s.current.value.streamAdmitted
  }

  /** A foreign request changes nothing, and once the call is over or being stopped only the binding of
      its own leg and a report of the playback still do; nor are terminal actions handed out after a
      recorded consent, or to a call whose answer carries them out itself. */
  lemma OnlyWhileRunning(s: Store, input: Input)
    requires Apply(s, input).applied
    ensures Addressed(s.attempt, input)
    ensures Ongoing(s) || input.kind.Complete? || (input.kind.Bind? &&
      (s.attempt.providerCallId == Some(input.providerCallId) || (s.latest && s.open && !s.stopRequested)))
    ensures input.kind.Dispatch? || input.kind.Expire? ==> !s.consentGranted && Asynchronous(s)
  {
  }

  /** The first answer is taken, whatever it is. It leads to a conversation exactly for a human or, under
      the current policy, an unknown voice; to the message exactly for the end of a greeting when there is
      a message to leave; otherwise, and for an answer that the detection mode cannot give, to a hang-up. */
  lemma AnswerDecides(s: Store, input: Input)
    requires input.kind.Resolve? && Addressed(s.attempt, input) && Ongoing(s) && AwaitsAnswer(s)
    ensures var o, answer, action := Apply(s, input), input.answeredBy, s.attempt.action;
      && o.applied && o.state.Some? && o.state.value.decision == Some(o.decision)
      && (o.decision.Consent? <==> answer == Some(Human) || (answer == Some(Unknown) && s.attempt.currentPolicy))
      && (o.decision.Message? <==> answer == Some(MachineEndBeep) && action.LeaveNeutralMessage?)
      && (o.state.value.phase.Failed? <==>
        answer.None? || (answer == Some(MachineStart) && action.LeaveNeutralMessage?) ||
        ((answer.value.MachineEndBeep? || answer.value.MachineEndSilence? || answer.value.MachineEndOther?) &&
          action.HangUpAction?))
      && (o.state.value.phase.Failed? || o.state.value.phase.Resolved?)
      && !o.state.value.actionDispatched
      && o.state.value.runsAsync == Asynchronous(s) && o.state.value.streamAdmitted == Admitted(s)
    // Without a stream the message is played by the answer itself.
    ensures Apply(s, input).state.value.message ==
      if Apply(s, input).decision.Message? && !Asynchronous(s) then Issued
      else if s.attempt.action.HangUpAction? then NotRequested else NotAttempted
  {
  }

  /** A detection result counts once; its deadline replaces one that is missing or a consent that no
      stream has used, by a hang-up. */
  lemma AnswerOnce(s: Store, input: Input)
    requires Addressed(s.attempt, input) && Ongoing(s)
    ensures input.kind.Resolve? ==> (Apply(s, input).applied <==> AwaitsAnswer(s))
    ensures input.kind.Timeout? ==>
      (Apply(s, input).applied <==> AwaitsAnswer(s) || (s.current.value.decision == Some(Consent) && !Admitted(s)))
    ensures input.kind.Timeout? && Apply(s, input).applied ==>
      && Apply(s, input).state.Some? && Apply(s, input).state.value.phase.Failed?
      && Apply(s, input).state.value.decision == Some(HangUp)
  {
  }

  /** Without streaming before the answer, a stream is let in exactly after a consent, and once. */
  lemma StreamAfterConsent(s: Store, answer: Input, stream: Input)
    requires answer.kind.Resolve? && stream.kind.Admit?
    requires Addressed(s.attempt, answer) && stream == answer.(kind := Admit, answeredBy := stream.answeredBy)
    requires Ongoing(s) && AwaitsAnswer(s) && !Asynchronous(s) && !Admitted(s) && s.written !! {Resolve, Admit}
    ensures var t := Stored(s, answer);
      && (Apply(t, stream).applied <==> Apply(s, answer).decision.Consent?)
      && (Apply(t, stream).applied ==> Apply(t, stream).decision.Consent? && Admitted(Stored(t, stream)))
      && !Apply(Stored(t, stream), stream).applied
  {
    hide Decide, Compatible;
  }

  /** With a stream let in before its answer: it is let in at once, and after the answer a terminal action
      is handed out exactly if there is no consent, namely the one that was decided. */
  lemma ActionAfterAnswer(s: Store, stream: Input, answer: Input, action: Input)
    requires stream.kind.Admit? && answer.kind.Resolve? && action.kind.Dispatch?
    requires Addressed(s.attempt, stream) && answer == stream.(kind := Resolve, answeredBy := answer.answeredBy)
    requires action == stream.(kind := Dispatch, answeredBy := action.answeredBy)
    requires Ongoing(s) && !s.consentGranted && s.written !! {Admit, Resolve, Dispatch}
    requires Asynchronous(s) && AwaitsAnswer(s) && !Admitted(s) && !s.current.value.actionDispatched
    ensures var t := Stored(s, stream); var u := Stored(t, answer);
      && Apply(s, stream).applied && Admitted(t) && !Apply(t, action).applied
      && Apply(t, answer).applied
      && (Apply(u, action).applied <==> !Apply(t, answer).decision.Consent?)
      && (Apply(u, action).applied ==> Apply(u, action).decision == Apply(t, answer).decision)
      && (Stored(u, action).current.value.message.Issued? <==> Apply(t, answer).decision.Message?)
  {
    hide Decide, Compatible;
  }

  /** A conversation that has begun is final: no late answer, deadline or action ends it. */
  predicate InConversation(current: Option<Answering>) {
    && current.Some? && current.value.streamAdmitted
    && current.value.phase.Resolved? && current.value.decision == Some(Consent)
  }

  lemma ConversationIsFinal(s: Store, input: Input)
    requires InConversation(s.current)
    ensures InConversation(Stored(s, input).current)
    ensures Apply(s, input).applied ==> input.kind.Bind? || input.kind.Complete?
  {
  }

  /** The deadline of an asynchronous detection may end everything but a conversation that has begun, and
      lets no stream in afterwards. */
  lemma DeadlineCloses(s: Store, input: Input, stream: Input)
    requires input.kind.Expire? && stream.kind.Admit? && Addressed(s.attempt, input) && Ongoing(s)
    requires !s.consentGranted && Asynchronous(s) && Expire !in s.written
    ensures Apply(s, input).applied <==> !(Admitted(s) && s.current.value.decision == Some(Consent))
    ensures Apply(s, input).applied ==> Apply(s, input).decision.HangUp? && !Apply(Stored(s, input), stream).applied
  {
  }

  /** A report of the end of the playback is taken once, after a playback that was issued, and changes
      nothing else. */
  lemma PlaybackEndsOnce(s: Store, input: Input)
    requires input.kind.Complete? && Addressed(s.attempt, input) && Complete !in s.written
    ensures Apply(s, input).applied <==>
      s.current.Some? && (s.current.value.message.Issued? || s.current.value.message.Uncertain?)
    ensures Apply(s, input).applied ==>
      && Stored(s, input).current == Some(s.current.value.(message := Completed))
      && !Apply(Stored(s, input), input).applied
  {
  }

  /** Binding fixes the leg of the attempt. It starts an answering state in which nothing has happened, and
      leaves one that exists alone. */
  lemma BindingFixesTheLeg(s: Store, input: Input)
    requires input.kind.Bind? && Addressed(s.attempt, input) && Ongoing(s) && Bind !in s.written
    ensures var t := Stored(s, input);
      && t.attempt.providerCallId == Some(input.providerCallId)
      && (s.current.Some? ==> t.current == s.current)
      && (s.current.None? ==> t.current.Some? && t.current.value.phase.Pending? && t.current.value.decision.None?)
      && (s.current.None? ==> !Asynchronous(t) && !Admitted(t) && !t.current.value.actionDispatched)
      && (s.current.None? ==> (t.current.value.message.NotRequested? <==> s.attempt.action.HangUpAction?))
      && (s.current.None? ==> (t.current.value.message.NotAttempted? <==> s.attempt.action.LeaveNeutralMessage?))
  {
  }

  /** A leg that the attempt knows is bound even when the call is over; a new one only while it goes on. */
  lemma OwnLegBinds(s: Store, input: Input)
    requires input.kind.Bind? && Addressed(s.attempt, input)
    ensures Apply(s, input).applied <==>
      s.attempt.providerCallId == Some(input.providerCallId) || (s.latest && s.open && !s.stopRequested)
  {
  }

  /** A transition that applies stores its state and its event, once; one that does not apply, or whose
      event is stored already, leaves the answering state. */
  lemma RepeatedEventIsDropped(s: Store, input: Input)
    ensures !Apply(s, input).applied ==> Stored(s, input) == s
    ensures input.kind in s.written ==> Stored(s, input).current == s.current && Stored(s, input).written == s.written
    ensures Apply(s, input).applied && input.kind !in s.written ==>
      && Stored(s, input).current == Apply(s, input).state && Apply(s, input).state.Some?
      && Stored(s, input).written == s.written + {input.kind}
  {
  }

  /** What an applied dispatch leaves behind, and which action it hands out. */
  lemma DispatchClaims(s: Store, input: Input)
    requires input.kind.Dispatch? && Apply(s, input).applied && Dispatch !in s.written
    ensures Dispatched(Stored(s, input).current)
    ensures Apply(s, input).decision == s.current.value.decision.value
    ensures !Apply(s, input).decision.Consent?
  {
  }
}

/** Any number of workers calling `dispatchAsyncAnswering` for the same attempt, every awaited
    operation failing or not, workers dying anywhere, and the rest of the call changing freely. */
module AnsweringDispatch {
  import opened AnsweringPolicy
  import opened DurableJobs
  import opened Options
  import opened Traces

  /** Claims granted to a reconciliation job. */
  const MAX_ATTEMPTS := 5

  /** The awaits of one call; `recovery` marks the job request of the catch block. */
  datatype Pc =
    | Claiming
    | Publishing
    | ReadLatest
    | ReadCall(proceeds: bool)
    | Playing
    | PrepareAttempt(recovery: bool)
    | PrepareLatest(recovery: bool, target: bool)
    | PrepareEnqueue(recovery: bool)
    | HangingUp
    | Done(result: bool)
    | Rethrown
    | Aborted

  /** What a recovery request met: a live attempt at its first read, the latest attempt at its second,
      and a job row that is not cancelled at its enqueue. */
  datatype Sight = Sight(live: bool, latest: bool, kept: bool)

  const NOTHING_SEEN := Sight(false, false, false)

  /** How a recovery request ended: with an outstanding job, without a live target, or at a row that
      deletion has cancelled and that an enqueue leaves as it is. */
  datatype Preparation = NotPrepared | JobRequested | TargetGone | JobCancelled

  /** The effects are those of the one worker whose claim applied. */
  datatype State = State(
    store: Store,
    job: Job,                  // the reconciliation job of the attempt
    workers: map<nat, Pc>,
    owner: Option<nat>,
    leg: nat,                  // the provider call id that the owner was called with
    decision: Decision,
    plays: nat,
    hangups: nat,
    prepared: Preparation,     // before the hang-up
    saw: Sight,
    updateFailed: bool,        // the live update, or the step before it, threw inside the try block
    recovered: Preparation,    // in the catch block
    sawAgain: Sight)

  function Init(store: Store, job: Job): State {
    State(store, job, map[], None, 0, HangUp, 0, 0, NotPrepared, NOTHING_SEEN, false, NotPrepared, NOTHING_SEEN)
  }

  datatype Step =
    | Enter(k: nat)
    | Claim(k: nat, input: Input, fails: bool)
    | Read(k: nat, fails: bool)
    | Play(k: nat, available: bool, fails: bool)
    | Prepare(k: nat, fails: bool)
    | HangUpLeg(k: nat, fails: bool)
    | Die(k: nat)
    | OtherTransition(input: Input)
    | CallChanges(store: Store)
    | JobMoves(move: JobMove)
    | DeleteData

  /** What the rest of the system does to the job: other requests, its worker and an administrator. */
  datatype JobMove =
    | EnqueueIt(restartTerminal: bool)
    | ClaimIt(owner: nat)
    | LeaseEnds
    | SweepIt
    | CompleteIt(owner: nat)
    | FailIt(owner: nat, retryable: bool, deferred: bool)
    | RetryIt

  function Moved(j: Job, move: JobMove): Job {
    match move
    case EnqueueIt(restartTerminal) => Enqueue(j, MAX_ATTEMPTS, restartTerminal)
    case ClaimIt(owner) => DurableJobs.Claim(j, owner)
    case LeaseEnds => ExpireLease(j)
    case SweepIt => Sweep(j)
    case CompleteIt(owner) => DurableJobs.Complete(j, owner)
    case FailIt(owner, retryable, deferred) => Fail(j, owner, retryable, deferred)
    case RetryIt => AdminRetry(j)
  }

  /** Only a call that is over loses its data; its provider id goes with them. */
  function Deleted(s: State): State {
    if s.store.open then s
    else s.(job := Cancel(s.job), store := s.store.(attempt := s.store.attempt.(providerCallId := None)))
  }

  function At(s: State, k: nat): Pc {
    if k in s.workers then s.workers[k] else Aborted
  }

  function Move(s: State, k: nat, pc: Pc): State {
    s.(workers := s.workers[k := pc])
  }

  /** The claim; only an applied one goes on. A duplicate key can never be applied (see `DispatchIsFinal`). */
  function TakeClaim(s: State, k: nat, input: Input, fails: bool): State {
    if fails || !input.kind.Dispatch? then Move(s, k, Aborted)
    else if !Apply(s.store, input).applied then Move(s, k, Done(false))
    else Move(s, k, Publishing).(
      store := Stored(s.store, input), owner := Some(k), leg := input.providerCallId,
      decision := Apply(s.store, input).decision)
  }

  /** The reads between the claim and the action lie outside the try block. */
  function TakeRead(s: State, k: nat, fails: bool): State {
    if fails then Move(s, k, Aborted)
    else match At(s, k)
      case Publishing => Move(s, k, ReadLatest)
      case ReadLatest => Move(s, k, ReadCall(s.store.latest && !s.store.attempt.ended && s.store.attempt.version3))
      case ReadCall(proceeds) =>
        if !proceeds || s.store.stopRequested then Move(s, k, Done(false))
        else Move(s, k, if s.decision.Message? then Playing else PrepareAttempt(false))
      case _ => s
  }

  function Recover(s: State, k: nat): State {
    Move(s, k, PrepareAttempt(true)).(updateFailed := true)
  }

  /** The voicemail update is issued before its outcome is known. */
  function TakePlay(s: State, k: nat, available: bool, fails: bool): State {
    if !available then Recover(s, k)
    else
      var issued := s.(plays := s.plays + 1);
      if fails then Recover(issued, k) else Move(issued, k, Done(true))
  }

  function TakeHangUp(s: State, k: nat, fails: bool): State {
    var issued := s.(hangups := s.hangups + 1);
    if fails then Recover(issued, k) else Move(issued, k, Done(true))
  }

  /** The attempt that the recovery request insists on: still running on this leg. */
  predicate LiveTarget(a: Attempt, leg: nat) {
    a.onTwilio && a.providerCallId == Some(leg) && !a.ended
  }

  /** The recovery request; it declines when the attempt is no longer the live target. */
  function TakePrepare(s: State, k: nat, fails: bool): State {
    match At(s, k)
    case PrepareAttempt(recovery) =>
      if fails then PrepareFails(s, k, recovery)
      else
        var live := LiveTarget(s.store.attempt, s.leg);
        Saw(Move(s, k, PrepareLatest(recovery, live)), recovery, Sight(live, false, false))
    case PrepareLatest(recovery, ok) =>
      if fails then PrepareFails(s, k, recovery)
      else
        var t := Saw(s, recovery, Sight(ok, s.store.latest, false));
        if ok && s.store.latest then Move(t, k, PrepareEnqueue(recovery)) else Prepared(t, k, recovery, TargetGone)
    case PrepareEnqueue(recovery) =>
      if fails then PrepareFails(s, k, recovery) else Enqueued(s, k, recovery)
    case _ => s
  }

  /** The row of a cancelled job stays cancelled, and the request returns all the same. A request that
      commits and then throws is another request's enqueue followed by a failure. */
  function Enqueued(s: State, k: nat, recovery: bool): State {
    var job := Enqueue(s.job, MAX_ATTEMPTS, true);
    var saw := (if recovery then s.sawAgain else s.saw).(kept := !s.job.status.Cancelled?);
    Prepared(Saw(s.(job := job), recovery, saw), k, recovery, if Outstanding(job) then JobRequested else JobCancelled)
  }

  function Saw(s: State, recovery: bool, sight: Sight): State {
    if recovery then s.(sawAgain := sight) else s.(saw := sight)
  }

  /** A failed request before the hang-up is caught and tried again; one in the catch block escapes. */
  function PrepareFails(s: State, k: nat, recovery: bool): State {
    if recovery then Move(s, k, Aborted) else Recover(s, k)
  }

  function Prepared(s: State, k: nat, recovery: bool, p: Preparation): State {
    if recovery then Move(s, k, Rethrown).(recovered := p) else Move(s, k, HangingUp).(prepared := p)
  }

  /** The call around the answering state: anything may change except the answering events. */
  function CallBecomes(s: State, store: Store): State {
    s.(store := store.(current := s.store.current, written := s.store.written))
  }

  function Next(s: State, a: Step): State {
    match a
    case Enter(k) => if k in s.workers then s else Move(s, k, Claiming)
    case Claim(k, input, fails) => if At(s, k).Claiming? then TakeClaim(s, k, input, fails) else s
    case Read(k, fails) =>
      if At(s, k).Publishing? || At(s, k).ReadLatest? || At(s, k).ReadCall? then TakeRead(s, k, fails) else s
    case Play(k, available, fails) => if At(s, k).Playing? then TakePlay(s, k, available, fails) else s
    case Prepare(k, fails) => TakePrepare(s, k, fails)
    case HangUpLeg(k, fails) => if At(s, k).HangingUp? then TakeHangUp(s, k, fails) else s
    case Die(k) => if k in s.workers then Move(s, k, Aborted) else s
    case OtherTransition(input) => if input.kind.Dispatch? then s else s.(store := Stored(s.store, input))
    case CallChanges(store) => CallBecomes(s, store)
    case JobMoves(move) => s.(job := Moved(s.job, move))
    case DeleteData => Deleted(s)
  }

  predicate PastClaim(pc: Pc) {
    !pc.Claiming? && !pc.Aborted? && pc != Done(false)
  }

  /** In the recovery request before the hang-up. */
  predicate Preparing(pc: Pc) {
    pc == PrepareAttempt(false) || (pc.PrepareLatest? && !pc.recovery) || pc == PrepareEnqueue(false)
  }

  predicate BeforeUpdate(pc: Pc) {
    pc.Claiming? || pc.Publishing? || pc.ReadLatest? || pc.ReadCall? || pc.Playing? || pc.HangingUp? ||
    Preparing(pc)
  }

  predicate InCatch(pc: Pc) {
    pc == PrepareAttempt(true) || (pc.PrepareLatest? && pc.recovery) || pc == PrepareEnqueue(true) || pc.Rethrown?
  }

  /** What the claim fixes, and what the owner has done at each of its awaits. */
  predicate OwnerOk(s: State, pc: Pc) {
    && (BeforeUpdate(pc) ==> s.plays == 0 && s.hangups == 0 && !s.updateFailed && s.recovered.NotPrepared?)
    && (pc.HangingUp? ==> !s.prepared.NotPrepared?)
    && (pc == Done(true) ==> s.plays + s.hangups == 1 && !s.updateFailed)
    && (pc.Playing? ==> s.decision.Message?)
    && (pc.HangingUp? || Preparing(pc) ==> s.decision.HangUp?)
    && (InCatch(pc) <==> s.updateFailed && !pc.Aborted?)
    && (pc.Rethrown? ==> !s.recovered.NotPrepared?)
  }

  /** A request that ran to its end left an outstanding job exactly if both of its reads found the
      target and the row was not cancelled when it enqueued. */
  predicate AsSeen(p: Preparation, saw: Sight) {
    match p
    case NotPrepared => true
    case JobRequested => saw.live && saw.latest && saw.kept
    case TargetGone => !(saw.live && saw.latest)
    case JobCancelled => saw.live && saw.latest && !saw.kept
  }

  predicate SightOk(s: State, pc: Pc) {
    && (pc.PrepareLatest? ==> (if pc.recovery then s.sawAgain else s.saw).live == pc.target)
    && (pc.PrepareEnqueue? ==> var saw := if pc.recovery then s.sawAgain else s.saw; saw.live && saw.latest)
    && (BeforeUpdate(pc) && !pc.HangingUp? ==> s.prepared.NotPrepared?)
    && (InCatch(pc) && !pc.Rethrown? ==> s.recovered.NotPrepared?)
    && AsSeen(s.prepared, s.saw) && AsSeen(s.recovered, s.sawAgain)
  }

  predicate Effects(s: State) {
    && s.plays + s.hangups <= 1
    && (s.plays > 0 ==> s.decision.Message?)
    && (s.hangups > 0 ==> s.decision.HangUp? && !s.prepared.NotPrepared?)
    && (s.owner.Some? ==> !s.decision.Consent? && Dispatched(s.store.current))
    && (s.owner.None? ==>
      s.plays == 0 && s.hangups == 0 && !s.updateFailed && s.prepared.NotPrepared? && s.recovered.NotPrepared?)
    && (s.owner.None? ==> Dispatch !in s.store.written)
  }

  ghost predicate Inv(s: State) {
    && Effects(s)
    && (forall k :: k in s.workers && PastClaim(s.workers[k]) ==> s.owner == Some(k))
    && (s.owner.Some? ==>
      s.owner.value in s.workers && !s.workers[s.owner.value].Claiming? && OwnerOk(s, s.workers[s.owner.value]))
  }

  lemma ClaimKeepsInv(s: State, k: nat, input: Input, fails: bool)
    requires Inv(s) && At(s, k).Claiming?
    ensures Inv(TakeClaim(s, k, input, fails))
    // A claim succeeds only while there is no owner.
    ensures s.owner.Some? ==>
      TakeClaim(s, k, input, fails) == Move(s, k, if fails || !input.kind.Dispatch? then Aborted else Done(false))
  {
    hide Transition, Dispatched;
    if s.owner.Some? && input.kind.Dispatch? { DispatchIsFinal(s.store, input); }
    if !fails && input.kind.Dispatch? && Apply(s.store, input).applied {
      DispatchClaims(s.store, input);
      var s' := TakeClaim(s, k, input, fails);
      assert s.owner.None? && s'.owner == Some(k);
    }
  }

  lemma ReadKeepsInv(s: State, k: nat, fails: bool)
    requires Inv(s) && (At(s, k).Publishing? || At(s, k).ReadLatest? || At(s, k).ReadCall?)
    ensures Inv(TakeRead(s, k, fails))
  {
    hide Dispatched;
    if fails {} else {
      match At(s, k)
      case Publishing =>
      case ReadLatest =>
      case ReadCall(proceeds) => if proceeds && !s.store.stopRequested {}
    }
  }

  lemma DieKeepsInv(s: State, k: nat)
    requires Inv(s) && k in s.workers
    ensures Inv(Move(s, k, Aborted))
  {
    hide Dispatched;
    if s.owner == Some(k) {}
  }

  lemma UpdateKeepsInv(s: State, k: nat, available: bool, fails: bool)
    requires Inv(s)
    ensures Inv(Next(s, Play(k, available, fails))) && Inv(Next(s, HangUpLeg(k, fails)))
  {
    hide Dispatched;
  }

  lemma PrepareFirstKeepsInv(s: State, k: nat, fails: bool)
    requires Inv(s) && !At(s, k).PrepareLatest?
    ensures Inv(TakePrepare(s, k, fails))
  {
    hide Dispatched;
  }

  lemma PrepareLatestKeepsInv(s: State, k: nat, fails: bool)
    requires Inv(s) && At(s, k).PrepareLatest?
    ensures Inv(TakePrepare(s, k, fails))
  {
    hide Dispatched;
  }

  lemma StoreKeepsInv(s: State, a: Step)
    requires Inv(s) && (a.OtherTransition? || a.CallChanges? || a.Enter? || a.JobMoves? || a.DeleteData?)
    ensures Inv(Next(s, a))
  {
    hide Transition;
    if a.OtherTransition? && s.owner.Some? { DispatchIsFinal(s.store, a.input); }
  }

  lemma RunKeepsInv(s: State, steps: seq<Step>)
    requires Inv(s)
    ensures Inv(Run(Next, s, steps))
  {
    forall t, a | Inv(t) ensures Inv(Next(t, a)) { StepKeepsInv(t, a); }
    RunKeeps(Next, Inv, s, steps);
  }

  lemma StepKeepsInv(s: State, a: Step)
    requires Inv(s)
    ensures Inv(Next(s, a))
  {
    hide Inv, TakeClaim, TakeRead, TakePlay, TakePrepare, TakeHangUp, CallBecomes, Stored;
    match a
    case Claim(k, input, fails) => if At(s, k).Claiming? { ClaimKeepsInv(s, k, input, fails); }
    case Read(k, fails) =>
      if At(s, k).Publishing? || At(s, k).ReadLatest? || At(s, k).ReadCall? { ReadKeepsInv(s, k, fails); }
    case Play(k, available, fails) => UpdateKeepsInv(s, k, available, fails);
    case HangUpLeg(k, fails) => UpdateKeepsInv(s, k, true, fails);
    case Die(k) => if k in s.workers { DieKeepsInv(s, k); }
    case Prepare(k, fails) =>
      if At(s, k).PrepareLatest? { PrepareLatestKeepsInv(s, k, fails); }
      else { PrepareFirstKeepsInv(s, k, fails); }
    case _ => StoreKeepsInv(s, a);
  }

  // ---------------------------------------------------------------- theorems over every run

  /** The live call is updated at most once, a message is played only for a message decision, and a
      hang-up is issued only after its recovery request ran to its end. */
  lemma AtMostOneUpdate(store: Store, job: Job, steps: seq<Step>)
    requires Dispatch !in store.written
    ensures var s := Run(Next, Init(store, job), steps);
            && s.plays + s.hangups <= 1
            && (s.plays == 1 ==> s.owner.Some? && s.decision.Message?)
            && (s.hangups == 1 ==> s.owner.Some? && s.decision.HangUp? && !s.prepared.NotPrepared?)
  {
    RunKeepsInv(Init(store, job), steps);
  }

  /** Only the worker whose claim applied acts; a caller is told `true` exactly for its one update,
      and sees the original error only after the catch block asked for recovery. */
  lemma FailedUpdateIsRecovered(store: Store, job: Job, steps: seq<Step>, k: nat)
    requires Dispatch !in store.written
    requires k in Run(Next, Init(store, job), steps).workers
    ensures var s := Run(Next, Init(store, job), steps); var pc := s.workers[k];
            && (PastClaim(pc) ==> s.owner == Some(k))
            && (pc == Done(true) ==> s.plays + s.hangups == 1 && !s.updateFailed)
            && (pc.Rethrown? ==> s.updateFailed && !s.recovered.NotPrepared?)
            && (s.owner == Some(k) && s.updateFailed ==> InCatch(pc) || pc.Aborted?)
  {
    RunKeepsInv(Init(store, job), steps);
  }

  /** What the owner has seen matches where it is. */
  ghost predicate SightInv(s: State) {
    s.owner.Some? ==> s.owner.value in s.workers && SightOk(s, s.workers[s.owner.value])
  }

  lemma ClaimKeepsSight(s: State, k: nat, input: Input, fails: bool)
    requires Inv(s) && SightInv(s) && At(s, k).Claiming?
    ensures SightInv(TakeClaim(s, k, input, fails))
  {
    hide Apply, Stored, OwnerOk, Dispatched;
    if !fails && input.kind.Dispatch? && Apply(s.store, input).applied {
      ClaimKeepsInv(s, k, input, fails);
      NotYetPrepared(s, k, input, fails);
    }
  }

  lemma PrepareKeepsSight(s: State, k: nat, fails: bool)
    requires Inv(s) && SightInv(s)
    ensures SightInv(TakePrepare(s, k, fails))
  {
    hide LiveTarget, Effects, Dispatched;
    if k in s.workers && PastClaim(s.workers[k]) {
      match s.workers[k]
      case PrepareAttempt(recovery) => if fails {}
      case PrepareLatest(recovery, ok) => if fails {}
      case PrepareEnqueue(recovery) => if fails {}
      case _ =>
    }
  }

  lemma ActKeepsSight(s: State, a: Step)
    requires Inv(s) && SightInv(s) && (a.Read? || a.Play? || a.HangUpLeg?)
    ensures SightInv(Next(s, a))
  {
    hide LiveTarget, Effects, Dispatched, TakeClaim, TakePrepare, Stored;
    match a
    case Read(k, fails) => if fails {}
    case Play(k, available, fails) => if !available {} else if fails {}
    case HangUpLeg(k, fails) => if fails {}
  }

  lemma WaitKeepsSight(s: State, a: Step)
    requires Inv(s) && SightInv(s) &&
      (a.Enter? || a.Die? || a.OtherTransition? || a.CallChanges? || a.JobMoves? || a.DeleteData?)
    ensures SightInv(Next(s, a))
  {
    hide LiveTarget, Effects, Dispatched, TakeClaim, TakePrepare, Stored;
  }

  lemma StepKeepsSight(s: State, a: Step)
    requires Inv(s) && SightInv(s)
    ensures SightInv(Next(s, a))
  {
    hide Inv, SightInv, TakeClaim, TakeRead, TakePlay, TakePrepare, TakeHangUp, Apply, Stored;
    match a
    case Claim(k, input, fails) => if At(s, k).Claiming? { ClaimKeepsSight(s, k, input, fails); }
    case Prepare(k, fails) => PrepareKeepsSight(s, k, fails);
    case Read(_, _) => ActKeepsSight(s, a);
    case Play(_, _, _) => ActKeepsSight(s, a);
    case HangUpLeg(_, _) => ActKeepsSight(s, a);
    case _ => WaitKeepsSight(s, a);
  }

  lemma {:induction false} RunKeepsSight(s: State, steps: seq<Step>)
    requires Inv(s) && SightInv(s)
    ensures SightInv(Run(Next, s, steps)) && Inv(Run(Next, s, steps))
    decreases |steps|
  {
    hide Inv, SightInv, Next;
    if steps != [] {
      StepKeepsSight(s, steps[0]);
      StepKeepsInv(s, steps[0]);
      RunKeepsSight(Next(s, steps[0]), steps[1..]);
    }
  }

  /**
   * In every run a hang-up was preceded by its outstanding recovery job if and only if the attempt was
   * live at the first read of the request, the latest one at the second, and the job row not cancelled
   * at the enqueue; the same holds of the request in the catch block, before the error is rethrown.
   */
  lemma JobExactlyIfTargetSeen(store: Store, job: Job, steps: seq<Step>)
    requires Dispatch !in store.written
    ensures var s := Run(Next, Init(store, job), steps);
            && (s.hangups == 1 ==> (s.prepared.JobRequested? <==> s.saw.live && s.saw.latest && s.saw.kept))
            && (s.hangups == 1 ==> (s.prepared.TargetGone? <==> !(s.saw.live && s.saw.latest)))
            && (forall k :: k in s.workers && s.workers[k].Rethrown? ==>
                (s.recovered.JobRequested? <==> s.sawAgain.live && s.sawAgain.latest && s.sawAgain.kept))
  {
    RunKeepsSight(Init(store, job), steps);
  }

  /** While the attempt of a claim stays live and the latest one and no data are deleted, the owner's
      recovery request finds its target and its job row. */
  predicate Unchanged(s: State) {
    && !s.job.status.Cancelled? && !s.prepared.JobCancelled? && !s.recovered.JobCancelled?
    && (s.owner.Some? ==>
      && LiveTarget(s.store.attempt, s.leg) && s.store.latest
      && !s.prepared.TargetGone? && !s.recovered.TargetGone?
      && (s.owner.value in s.workers && s.workers[s.owner.value].PrepareLatest? ==> s.workers[s.owner.value].target))
  }

  /** A change of the call that leaves the claimed attempt live and the latest one; before a claim, any
      change. A deletion is refused. */
  predicate KeepsTarget(s: State, a: Step) {
    && (a.CallChanges? && s.owner.Some? ==> LiveTarget(a.store.attempt, s.leg) && a.store.latest)
    && (a.DeleteData? ==> s.store.open)
  }

  predicate KeepsTargetAlong(s: State, steps: seq<Step>)
    decreases |steps|
  {
    steps == [] || (KeepsTarget(s, steps[0]) && KeepsTargetAlong(Next(s, steps[0]), steps[1..]))
  }

  lemma ClaimedTarget(store: Store, input: Input)
    requires input.kind.Dispatch? && Apply(store, input).applied
    ensures Stored(store, input).latest && LiveTarget(Stored(store, input).attempt, input.providerCallId)
  {
  }

  lemma OtherKeepsTarget(store: Store, input: Input, leg: nat)
    requires LiveTarget(store.attempt, leg) && store.latest
    ensures Stored(store, input).latest && LiveTarget(Stored(store, input).attempt, leg)
  {
    hide Transition;
  }

  /** Only a deletion cancels the job. */
  lemma MoveKeepsRow(j: Job, move: JobMove)
    requires !j.status.Cancelled?
    ensures !Moved(j, move).status.Cancelled?
  {
  }

  lemma ClaimLeavesTarget(s: State, k: nat, input: Input, fails: bool)
    requires Inv(s) && Unchanged(s) && At(s, k).Claiming?
    ensures Unchanged(TakeClaim(s, k, input, fails))
  {
    hide Apply, Stored, LiveTarget, OwnerOk, Dispatched;
    if !fails && input.kind.Dispatch? && Apply(s.store, input).applied {
      hide Inv;
      ClaimKeepsInv(s, k, input, fails);
      ClaimedTarget(s.store, input);
      NotYetPrepared(s, k, input, fails);
    }
  }

  lemma NotYetPrepared(s: State, k: nat, input: Input, fails: bool)
    requires Inv(s) && Inv(TakeClaim(s, k, input, fails))
    requires At(s, k).Claiming? && !fails && input.kind.Dispatch? && Apply(s.store, input).applied
    ensures s.prepared.NotPrepared? && s.recovered.NotPrepared?
  {
    hide Transition, Dispatched;
    if s.owner.Some? { DispatchIsFinal(s.store, input); }
  }

  lemma PrepareLeavesTarget(s: State, k: nat, fails: bool)
    requires Inv(s) && Unchanged(s)
    ensures Unchanged(TakePrepare(s, k, fails))
  {
    hide LiveTarget, OwnerOk, Effects, Dispatched;
    if k in s.workers && PastClaim(s.workers[k]) {
      match s.workers[k]
      case PrepareAttempt(recovery) => if fails {}
      case PrepareLatest(recovery, ok) => if fails {}
      case PrepareEnqueue(recovery) => if fails {}
      case _ =>
    }
  }

  lemma ActLeavesTarget(s: State, a: Step)
    requires Inv(s) && Unchanged(s) && (a.Enter? || a.Read? || a.Play? || a.HangUpLeg? || a.Die?)
    ensures Unchanged(Next(s, a))
  {
    hide LiveTarget, OwnerOk, Effects, Dispatched, TakeClaim, TakePrepare, Stored;
    match a
    case Enter(k) =>
    case Read(k, fails) => if fails {}
    case Play(k, available, fails) => if !available {} else if fails {}
    case HangUpLeg(k, fails) => if fails {}
    case Die(k) =>
  }

  lemma StepLeavesTarget(s: State, a: Step)
    requires Inv(s) && Unchanged(s) && KeepsTarget(s, a)
    ensures Unchanged(Next(s, a))
  {
    hide Inv, TakeClaim, TakeRead, TakePlay, TakePrepare, TakeHangUp, Apply, Stored, LiveTarget;
    match a
    case Claim(k, input, fails) => if At(s, k).Claiming? { ClaimLeavesTarget(s, k, input, fails); }
    case Prepare(k, fails) => PrepareLeavesTarget(s, k, fails);
    case OtherTransition(input) => if s.owner.Some? { OtherKeepsTarget(s.store, input, s.leg); }
    case CallChanges(_) =>
    case JobMoves(move) => MoveKeepsRow(s.job, move);
    case DeleteData =>
    case _ => ActLeavesTarget(s, a);
  }

  lemma {:induction false} RunLeavesTarget(s: State, steps: seq<Step>)
    requires Inv(s) && Unchanged(s) && KeepsTargetAlong(s, steps)
    ensures Unchanged(Run(Next, s, steps))
    decreases |steps|
  {
    hide Inv, Unchanged, KeepsTarget, Next;
    if steps != [] {
      StepLeavesTarget(s, steps[0]);
      StepKeepsInv(s, steps[0]);
      RunLeavesTarget(Next(s, steps[0]), steps[1..]);
    }
  }

  /** Whatever else happens to the call and its job, as long as the claimed attempt stays live and the
      latest one and the data are kept, the job was outstanding before the hang-up, and before any error
      is rethrown. */
  lemma JobBeforeHangUp(store: Store, job: Job, steps: seq<Step>)
    requires Dispatch !in store.written && !job.status.Cancelled?
    requires KeepsTargetAlong(Init(store, job), steps)
    ensures var s := Run(Next, Init(store, job), steps);
            && (s.hangups == 1 ==> s.prepared.JobRequested?)
            && (forall k :: k in s.workers && s.workers[k].Rethrown? ==> s.recovered.JobRequested?)
  {
    RunKeepsInv(Init(store, job), steps);
    RunLeavesTarget(Init(store, job), steps);
  }

  // ---------------------------------------------------------------- runs that reach the gaps

  predicate HandsOutHangUp(store: Store, input: Input) {
    input.kind.Dispatch? && Apply(store, input).applied && Apply(store, input).decision.HangUp?
  }

  lemma Claimed(store: Store, job: Job, input: Input) returns (s: State)
    requires input.kind.Dispatch? && Apply(store, input).applied
    ensures Reachable(Next, Init(store, job), s) && At(s, 0) == Publishing && s.owner == Some(0)
    ensures s == Init(store, job).(store := Stored(store, input), workers := map[0 := Publishing], owner := Some(0),
                leg := input.providerCallId, decision := Apply(store, input).decision)
  {
    hide Transition, Apply, Stored, TakeRead, TakePlay, TakePrepare, TakeHangUp;
    s := Init(store, job);
    InitReachable(Next, s);
    s := Extend(Next, Init(store, job), s, Enter(0));
    s := Extend(Next, Init(store, job), s, Claim(0, input, false));
    assert map[0 := Claiming][0 := Publishing] == map[0 := Publishing];
  }

  lemma ClaimReads(store: Store, input: Input)
    requires input.kind.Dispatch? && Apply(store, input).applied
    ensures var claimed := Stored(store, input);
            claimed.latest && !claimed.attempt.ended && claimed.attempt.version3 && !claimed.stopRequested
  {
  }

  /** A worker that claimed a hang-up is about to ask for recovery. */
  lemma ClaimedHangUp(store: Store, job: Job, input: Input) returns (s: State)
    requires HandsOutHangUp(store, input)
    ensures Reachable(Next, Init(store, job), s) && At(s, 0) == PrepareAttempt(false) && s.hangups == 0
    ensures s.store == Stored(store, input) && s.job == job && s.leg == input.providerCallId
  {
    ClaimReads(store, input);
    s := Claimed(store, job, input);
    hide Transition, Apply, Stored, TakeClaim, TakePlay, TakePrepare, TakeHangUp;
    s := Extend(Next, Init(store, job), s, Read(0, false));
    s := Extend(Next, Init(store, job), s, Read(0, false));
    s := Extend(Next, Init(store, job), s, Read(0, false));
  }

  lemma EndedHangUp(store: Store, job: Job, input: Input) returns (s: State)
    requires HandsOutHangUp(store, input)
    ensures Reachable(Next, Init(store, job), s) && At(s, 0) == PrepareAttempt(false) && s.hangups == 0
    ensures !LiveTarget(s.store.attempt, s.leg)
  {
    s := ClaimedHangUp(store, job, input);
    hide Transition, Apply, Stored, TakePlay, TakeClaim, TakeRead, TakePrepare, TakeHangUp;
    s := Extend(Next, Init(store, job), s, CallChanges(s.store.(attempt := s.store.attempt.(ended := true))));
  }

  /** The result of the recovery request is not looked at: when the attempt ends between the claim
      and the request, the leg is hung up without any recovery job. */
  lemma HangUpWithoutRecoveryJob(store: Store, job: Job, input: Input) returns (s: State)
    requires HandsOutHangUp(store, input)
    ensures Reachable(Next, Init(store, job), s) && s.hangups == 1 && s.prepared.TargetGone? && At(s, 0) == Done(true)
  {
    s := EndedHangUp(store, job, input);
    hide Transition, Apply, Stored, TakePlay, TakeClaim, TakeRead, LiveTarget;
    s := Extend(Next, Init(store, job), s, Prepare(0, false));
    s := Extend(Next, Init(store, job), s, Prepare(0, false));
    s := Extend(Next, Init(store, job), s, HangUpLeg(0, false));
  }

  /** Both reads of the request have found their target. */
  lemma TargetFound(store: Store, job: Job, input: Input) returns (s: State)
    requires HandsOutHangUp(store, input)
    ensures Reachable(Next, Init(store, job), s) && At(s, 0) == PrepareEnqueue(false) && s.hangups == 0
    ensures s.job == job && s.saw.live && s.saw.latest
  {
    ClaimedTarget(store, input);
    s := ClaimedHangUp(store, job, input);
    hide Transition, Apply, Stored, TakePlay, TakeClaim, TakeRead, TakeHangUp, LiveTarget;
    s := Extend(Next, Init(store, job), s, Prepare(0, false));
    s := Extend(Next, Init(store, job), s, Prepare(0, false));
  }

  /** Nor does finding the target make sure of the job: the call is ended and its data are deleted before
      the enqueue, which leaves the cancelled row alone, and the leg is hung up all the same. */
  lemma HangUpWithCancelledJob(store: Store, job: Job, input: Input) returns (s: State)
    requires HandsOutHangUp(store, input) && Outstanding(job)
    ensures Reachable(Next, Init(store, job), s) && s.hangups == 1 && s.prepared.JobCancelled? && At(s, 0) == Done(true)
    ensures s.saw.live && s.saw.latest && s.job.status.Cancelled?
  {
    s := TargetFound(store, job, input);
    hide Transition, Apply, Stored, TakePlay, TakeClaim, TakeRead, LiveTarget;
    s := Extend(Next, Init(store, job), s, CallChanges(s.store.(open := false, stopRequested := true)));
    s := Extend(Next, Init(store, job), s, DeleteData);
    s := Extend(Next, Init(store, job), s, Prepare(0, false));
    s := Extend(Next, Init(store, job), s, HangUpLeg(0, false));
  }

  // ---------------------------------------------------------------- undisturbed runs

  /** The reads between the claim and the action: the worker goes on to its action exactly while the call
      is still that of the attempt, open and not being stopped. */
  lemma ReadsDecide(s: State, k: nat)
    requires At(s, k).Publishing?
    ensures At(Next(s, Read(k, false)), k).ReadLatest? && At(Next(Next(s, Read(k, false)), Read(k, false)), k).ReadCall?
    ensures var t := Next(Next(Next(s, Read(k, false)), Read(k, false)), Read(k, false));
      && t == s.(workers := t.workers)
      && At(t, k) ==
        if !(s.store.latest && !s.store.attempt.ended && s.store.attempt.version3 && !s.store.stopRequested)
        then Done(false)
        else if s.decision.Message? then Playing else PrepareAttempt(false)
  {
  }

  /** A recovery request that nothing disturbs leaves an outstanding job for a live target. */
  lemma RequestRuns(s: State, k: nat, recovery: bool)
    requires At(s, k) == PrepareAttempt(recovery) && LiveTarget(s.store.attempt, s.leg) && s.store.latest
    ensures var t := Next(Next(Next(s, Prepare(k, false)), Prepare(k, false)), Prepare(k, false));
      && (Outstanding(t.job) <==> !s.job.status.Cancelled?)
      && At(t, k) == (if recovery then Rethrown else HangingUp)
      && ((if recovery then t.recovered else t.prepared).JobRequested? <==> !s.job.status.Cancelled?)
      && t.store == s.store && t.plays == s.plays && t.hangups == s.hangups && t.decision == s.decision
      && t.updateFailed == s.updateFailed
  {
    hide LiveTarget;
  }

  /** A deadline that ends the call first leaves nothing to dispatch. */
  lemma ExpiryBeatsDispatch(s: State, k: nat, expiry: Input, input: Input)
    requires expiry.kind.Expire? && Apply(s.store, expiry).applied && Expire !in s.store.written
    requires At(s, k).Claiming? && input.kind.Dispatch?
    ensures var t := Next(Next(s, OtherTransition(expiry)), Claim(k, input, false));
      At(t, k) == Done(false) && t.plays == s.plays && t.hangups == s.hangups && t.owner == s.owner
  {
    hide Settle;
  }

  /** The job that a request leaves takes its course: it is run and ends, or it is queued again when its
      worker is gone, while attempts are left. */
  lemma JobTakesItsCourse(s: State, worker: nat)
    requires s.job.status.Queued?
    ensures var claimed := Next(s, JobMoves(ClaimIt(worker)));
      && Next(claimed, JobMoves(CompleteIt(worker))).job.status.Succeeded?
      && (Next(claimed, JobMoves(FailIt(worker, true, false))).job.status.Queued? <==>
        s.job.attemptCount + 1 < s.job.maxAttempts)
      && Next(claimed, JobMoves(FailIt(worker, true, false))).job.status ==
        Next(Next(claimed, JobMoves(LeaseEnds)), JobMoves(SweepIt)).job.status
  {
    hide Stored, Apply, TakeClaim, TakeRead, TakePlay, TakePrepare, TakeHangUp;
  }

  /** A recovery request that fails before the hang-up is made again by the catch block; one that fails there
      ends the dispatch. Whichever of its awaits throws, nothing else changes. */
  lemma FailedRequestIsRetried(s: State, k: nat, recovery: bool)
    requires At(s, k) == PrepareAttempt(recovery) || At(s, k) == PrepareEnqueue(recovery) ||
      (At(s, k).PrepareLatest? && At(s, k).recovery == recovery)
    ensures var t := Next(s, Prepare(k, true));
      && t == s.(workers := t.workers, updateFailed := s.updateFailed || !recovery)
      && At(t, k) == if recovery then Aborted else PrepareAttempt(true)
  {
  }

  /** Every claimed action is carried out: a message is played, or else the leg is hung up behind an
      outstanding recovery job; the caller is told so. */
  lemma ClaimedActionIsTaken(store: Store, job: Job, input: Input) returns (s: State)
    requires input.kind.Dispatch? && Apply(store, input).applied && !job.status.Cancelled?
    ensures Reachable(Next, Init(store, job), s) && At(s, 0) == Done(true) && !s.updateFailed
    ensures if Apply(store, input).decision.Message? then s.plays == 1 && s.hangups == 0
            else s.hangups == 1 && s.plays == 0 && s.prepared.JobRequested?
  {
    s := AtItsAction(store, job, input);
    ghost var before := s;
    hide Transition, Apply, Stored, TakeClaim, TakeRead, LiveTarget;
    if s.decision.Message? {
      s := Extend(Next, Init(store, job), s, Play(0, true, false));
    } else {
      s := ThroughRequest(store, job, s, false);
      s := Extend(Next, Init(store, job), s, HangUpLeg(0, false));
    }
  }

  /** And when its update fails, or there is no voicemail to play, the request of the catch block leaves an
      outstanding job before the error is rethrown. */
  lemma FailedActionIsRecovered(store: Store, job: Job, input: Input, available: bool) returns (s: State)
    requires input.kind.Dispatch? && Apply(store, input).applied && !job.status.Cancelled?
    ensures Reachable(Next, Init(store, job), s) && At(s, 0).Rethrown? && s.recovered.JobRequested?
    ensures if Apply(store, input).decision.Message? then s.plays == (if available then 1 else 0) && s.hangups == 0
            else s.hangups == 1 && s.plays == 0
  {
    s := AtItsAction(store, job, input);
    hide Transition, Apply, Stored, TakeClaim, TakeRead, LiveTarget;
    if s.decision.Message? {
      s := Extend(Next, Init(store, job), s, Play(0, available, true));
    } else {
      s := ThroughRequest(store, job, s, false);
      s := Extend(Next, Init(store, job), s, HangUpLeg(0, true));
    }
    s := ThroughRequest(store, job, s, true);
  }

  lemma AtItsAction(store: Store, job: Job, input: Input) returns (s: State)
    requires input.kind.Dispatch? && Apply(store, input).applied
    ensures Reachable(Next, Init(store, job), s)
    ensures s.job == job && s.store.latest && LiveTarget(s.store.attempt, s.leg)
    ensures s.plays == 0 && s.hangups == 0 && !s.updateFailed && s.decision == Apply(store, input).decision
    ensures At(s, 0) == if s.decision.Message? then Playing else PrepareAttempt(false)
  {
    ClaimReads(store, input);
    ClaimedTarget(store, input);
    s := Claimed(store, job, input);
    hide Transition, Apply, Stored, TakeClaim, TakePlay, TakePrepare, TakeHangUp, LiveTarget;
    s := Extend(Next, Init(store, job), s, Read(0, false));
    s := Extend(Next, Init(store, job), s, Read(0, false));
    s := Extend(Next, Init(store, job), s, Read(0, false));
  }

  lemma ThroughRequest(store: Store, job: Job, from: State, recovery: bool) returns (s: State)
    requires Reachable(Next, Init(store, job), from)
    requires At(from, 0) == PrepareAttempt(recovery) && !from.job.status.Cancelled?
    requires LiveTarget(from.store.attempt, from.leg) && from.store.latest
    ensures Reachable(Next, Init(store, job), s)
    ensures At(s, 0) == (if recovery then Rethrown else HangingUp) && !s.job.status.Cancelled?
    ensures if recovery then s.recovered.JobRequested? else s.prepared.JobRequested?
    ensures s.store == from.store && s.leg == from.leg && s.plays == from.plays && s.hangups == from.hangups
    ensures s.decision == from.decision && s.updateFailed == from.updateFailed
  {
    RequestRuns(from, 0, recovery);
    hide LiveTarget, Next;
    PrepareKeepsLeg(from, 0);
    s := Extend(Next, Init(store, job), from, Prepare(0, false));
    PrepareKeepsLeg(s, 0);
    s := Extend(Next, Init(store, job), s, Prepare(0, false));
    PrepareKeepsLeg(s, 0);
    s := Extend(Next, Init(store, job), s, Prepare(0, false));
  }

  lemma PrepareKeepsLeg(s: State, k: nat)
    ensures Next(s, Prepare(k, false)).leg == s.leg
  {
    hide LiveTarget;
  }

  /** Once the data of a finished call are deleted, no recovery request finds a target, and no job is left. */
  lemma DeletionHidesTheTarget(s: State, leg: nat)
    ensures !s.store.open ==>
      !LiveTarget(Next(s, DeleteData).store.attempt, leg) && !Outstanding(Next(s, DeleteData).job)
    ensures s.store.open ==> Next(s, DeleteData) == s
  {
  }

  /** A dispatch that does not apply does nothing. */
  lemma DeclinedDispatch(s: State, k: nat, input: Input)
    requires At(s, k).Claiming? && input.kind.Dispatch? && !Apply(s.store, input).applied
    ensures var t := Next(s, Claim(k, input, false)); At(t, k) == Done(false) && t == s.(workers := t.workers)
  {
  }

  /** The claim is spent and its worker has left without acting on it. */
  ghost predicate Dropped(s: State) {
    && Inv(s)
    && s.owner.Some? && s.owner.value in s.workers && s.workers[s.owner.value].Aborted?
    && s.plays == 0 && s.hangups == 0 && s.prepared.NotPrepared? && s.recovered.NotPrepared?
  }

  lemma StepStaysDropped(s: State, a: Step)
    requires Dropped(s)
    ensures Dropped(Next(s, a))
  {
    StepKeepsInv(s, a);
    hide OwnerOk, Effects, Dispatched, Apply, Stored, LiveTarget, Moved;
    match a
    case Claim(k, input, fails) => if At(s, k).Claiming? { ClaimKeepsInv(s, k, input, fails); }
    case Prepare(k, fails) => if k in s.workers && s.workers[k].PrepareAttempt? {}
    case _ =>
  }

  /**
   * The reads between the claim and the `try` block are not recovered: when one of them fails, the
   * worker leaves without an update or a recovery request, and in no continuation does any dispatch of
   * the attempt update the call or ask for recovery.
   */
  lemma FailedReadSpendsTheClaim(store: Store, job: Job, input: Input, more: seq<Step>) returns (s: State)
    requires Dispatch !in store.written && input.kind.Dispatch? && Apply(store, input).applied
    ensures Reachable(Next, Init(store, job), s) && s.owner == Some(0) && At(s, 0).Aborted?
    ensures var t := Run(Next, s, more);
            t.plays == 0 && t.hangups == 0 && t.prepared.NotPrepared? && t.recovered.NotPrepared?
  {
    s := Claimed(store, job, input);
    ClaimKeepsInv(Move(Init(store, job), 0, Claiming), 0, input, false);
    assert Inv(s);
    DieKeepsInv(s, 0);
    s := Extend(Next, Init(store, job), s, Read(0, true));
    hide Inv, Next;
    forall t, a | Dropped(t) ensures Dropped(Next(t, a)) { StepStaysDropped(t, a); }
    RunKeeps(Next, Dropped, s, more);
  }
}
