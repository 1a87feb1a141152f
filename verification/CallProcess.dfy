/** `start` and `stop` of the call service as the source writes them: one method each, one `Await`
    per await. While a method waits, the rest of the system takes whatever steps `others` says, and
    `fails` decides which awaited operation throws; every result holds for all of both. */
module CallProcess {
  import opened DurableJobs
  import opened CallLeg
  import opened Traces

  datatype StartOutcome = Current | NotReserved | Started | StartFailed | AttachmentFailed

  datatype StopOutcome = AlreadyOver | StoppedNow | Refused | Aborted

  datatype Phase = StopRequested | StopSucceeded | StopFailed

  /** What `stop` did to the outside world, in order. */
  datatype Effect =
    | Telemetry(phase: Phase)
    | TelemetryLost(phase: Phase)
    | ProviderStop(accepted: bool)
    | LocalStop(stopped: bool)

  /** The telemetry of a phase, stored or lost. */
  predicate Told(e: Effect, phase: Phase) {
    e == Telemetry(phase) || e == TelemetryLost(phase)
  }

  /** The rest of the system never moves the program counters of `start`. */
  ghost predicate LeavesStart(others: nat -> seq<Step>) {
    forall n: nat, i: nat {:trigger others(n)[i]} ::
      i < |others(n)| ==> !others(n)[i].Starting? && !others(n)[i].Attaching?
  }

  /** The rest of the system never moves the program counter of the k-th stop. */
  ghost predicate LeavesStop(others: nat -> seq<Step>, k: nat) {
    forall n: nat, i: nat {:trigger others(n)[i]} ::
      i < |others(n)| && others(n)[i].Stopping? ==> others(n)[i].k != k
  }

  /** Only the provider acts: the leg comes into being or ends. */
  ghost predicate Quiet(others: nat -> seq<Step>) {
    forall n: nat, i: nat {:trigger others(n)[i]} ::
      i < |others(n)| ==> others(n)[i] == World(LegCreated) || others(n)[i] == World(LegEnds)
  }

  lemma {:induction false} OthersLeaveStart(s: State, steps: seq<Step>)
    requires forall i :: 0 <= i < |steps| ==> !steps[i].Starting? && !steps[i].Attaching?
    ensures Run(Next, s, steps).start == s.start && Run(Next, s, steps).idReceived == s.idReceived
    ensures Run(Next, s, steps).diedHolding == s.diedHolding
    decreases |steps|
  {
    if steps != [] {
      OtherStepLeavesStart(s, steps[0]);
      OthersLeaveStart(Next(s, steps[0]), steps[1..]);
    }
  }

  lemma OtherStepLeavesStart(s: State, a: Step)
    requires !a.Starting? && !a.Attaching?
    ensures Next(s, a).start == s.start && Next(s, a).idReceived == s.idReceived
    ensures Next(s, a).diedHolding == s.diedHolding
  {
    hide NextStop, NextRun, NextStore;
    match a
    case Stopping(k, b) => StopEffects(s, k, b);
    case Reconciling(k, b) => RunEffects(s, k, b);
    case World(b) => StoreEffects(s, b);
  }

  /** A leg comes into being exactly when the provider creates it while `start` dials. */
  lemma {:induction false} LegNeedsDial(s: State, steps: seq<Step>)
    requires forall i :: 0 <= i < |steps| ==> !steps[i].Starting? && !steps[i].Attaching?
    ensures !s.leg.NoLeg? ==> !Run(Next, s, steps).leg.NoLeg?
    ensures s.leg.NoLeg? ==> (!Run(Next, s, steps).leg.NoLeg? <==> s.start.Calling? && World(LegCreated) in steps)
    decreases |steps|
  {
    hide Next;
    if steps != [] {
      OtherStepLeavesStart(s, steps[0]);
      StepNeedsDial(s, steps[0]);
      LegNeedsDial(Next(s, steps[0]), steps[1..]);
      assert steps == [steps[0]] + steps[1..];
    }
  }

  lemma StepNeedsDial(s: State, a: Step)
    requires !a.Starting? && !a.Attaching?
    ensures !s.leg.NoLeg? ==> !Next(s, a).leg.NoLeg?
    ensures s.leg.NoLeg? ==> (!Next(s, a).leg.NoLeg? <==> s.start.Calling? && a == World(LegCreated))
  {
    hide NextStop, NextRun, NextStore;
    match a
    case Stopping(k, b) => StopEffects(s, k, b);
    case Reconciling(k, b) => RunEffects(s, k, b);
    case World(b) => StoreNeedsDial(s, b);
  }

  lemma StoreNeedsDial(s: State, a: StoreStep)
    ensures !s.leg.NoLeg? ==> !NextStore(s, a).leg.NoLeg?
    ensures s.leg.NoLeg? ==> (!NextStore(s, a).leg.NoLeg? <==> s.start.Calling? && a.LegCreated?)
  {
  }

  lemma {:induction false} OthersLeaveStop(s: State, steps: seq<Step>, k: nat)
    requires k in s.stops
    requires forall i :: 0 <= i < |steps| && steps[i].Stopping? ==> steps[i].k != k
    ensures k in Run(Next, s, steps).stops && Run(Next, s, steps).stops[k] == s.stops[k]
    decreases |steps|
  {
    if steps != [] {
      OtherStepLeavesStop(s, steps[0], k);
      OthersLeaveStop(Next(s, steps[0]), steps[1..], k);
    }
  }

  lemma OtherStepLeavesStop(s: State, a: Step, k: nat)
    requires k in s.stops && (a.Stopping? ==> a.k != k)
    ensures k in Next(s, a).stops && Next(s, a).stops[k] == s.stops[k]
  {
    hide NextStart, NextAttach, NextStop, NextRun, NextStore;
    match a
    case Starting(b) => StartEffects(s, b);
    case Attaching(b) => AttachEffects(s, b);
    case Stopping(j, b) =>
      StopEffects(s, j, b);
      assert k in s.stops - {j} && (s.stops - {j})[k] == s.stops[k];
      assert k in Next(s, a).stops - {j} && (Next(s, a).stops - {j})[k] == Next(s, a).stops[k];
    case Reconciling(j, b) => RunEffects(s, j, b);
    case World(b) => StoreEffects(s, b);
  }

  lemma {:induction false} QuietChangesTheLegOnly(s: State, steps: seq<Step>)
    requires forall i :: 0 <= i < |steps| ==> steps[i] == World(LegCreated) || steps[i] == World(LegEnds)
    ensures Run(Next, s, steps) == s.(leg := Run(Next, s, steps).leg)
    decreases |steps|
  {
    if steps != [] {
      hide Next;
      QuietStep(s, steps[0]);
      QuietChangesTheLegOnly(Next(s, steps[0]), steps[1..]);
    }
  }

  lemma QuietStep(s: State, a: Step)
    requires a == World(LegCreated) || a == World(LegEnds)
    ensures Next(s, a) == s.(leg := Next(s, a).leg)
  {
    hide NextStart, NextAttach, NextStop, NextRun, Reports, ApplyStatus, Active;
    hide Terminal, ExpireLease, Sweep, Enqueue, AdminRetry, Cancel;
    match a.store
    case LegCreated => if s.start.Calling? && s.leg.NoLeg? {}
    case LegEnds => if s.leg.Live? {}
    case _ =>
  }

  /** What the own steps of a stop do, one at a time. */
  lemma StopReads(s: State, k: nat)
    ensures k !in s.stops ==> NextStop(s, k, StopBegin(true)) == s.(stops := s.stops[k := ReadAttempt], timer := false)
    ensures k in s.stops && s.stops[k].ReadAttempt? ==>
      NextStop(s, k, StopReadAttempt) == s.(stops := s.stops[k := ReadCall(s.attached)])
    ensures k in s.stops && s.stops[k].ReadCall? ==>
      NextStop(s, k, StopReadCall) ==
        s.(stops := s.stops[k := if Terminal(s.status) then StopDone else AskProvider(s.stops[k].knowsId)])
  {
  }

  lemma StopAsks(s: State, k: nat, refused: bool)
    requires k in s.stops && s.stops[k].AskProvider?
    ensures NextStop(s, k, StopProvider(refused)) ==
      if s.stops[k].knowsId then
        s.(stopIssued := true, stops := s.stops[k := if refused then StopDone else ChangeLocal])
      else s.(stops := s.stops[k := ChangeLocal])
  {
  }

  /** What the own steps of a dial do. */
  lemma DialSteps(s: State)
    ensures s.start.Reserved? ==> NextStart(s, Call) == s.(start := CallLeg.Calling)
    ensures s.start.Calling? && !s.leg.NoLeg? ==>
      NextStart(s, CallReturns(true)) == s.(idReceived := true, start := Holding)
    ensures s.start.Reserved? || s.start.Calling? ==> NextStart(s, CallThrows) == s.(start := FailRead)
  {
  }

  /** What the own steps of `start` do once it holds an id. */
  lemma AttachSteps(s: State)
    ensures s.start.Holding? ==> NextAttach(s, Attach(true)) == AttachCommit(s)
    ensures s.start.Holding? ==> NextAttach(s, Attach(false)) == s.(start := CallLeg.AttachFailed)
    ensures s.start.AttachCommitted? ==> forall fails :: NextAttach(s, ReadSnapshot(fails)) == s.(start :=
      if fails || s.dataDeleted then CallLeg.AttachFailed
      else if Terminal(s.status) then AttachedTerminal
      else AttachedActive)
    ensures s.start.AttachFailed? ==> NextAttach(s, StopAfterFailure) == s.(stopIssued := true, start := FailRead)
    ensures s.start.AttachedTerminal? ==> NextAttach(s, StopAfterTerminal) == s.(stopIssued := true, start := Returned)
    ensures s.start.AttachedActive? ==> NextAttach(s, Schedule) == s.(timer := true, start := Returned)
  {
  }

  lemma ActiveHasDeadline(s: State)
    requires Inv(s) && s.start.AttachedActive?
    ensures !s.job.status.Absent? && s.idReceived
  {
  }

  lemma HoldsItsId(s: State)
    requires Inv(s) && s.start.Holding?
    ensures s.idReceived
  {
  }

  lemma DialHoldsNothing(s: State)
    requires Inv(s) && (s.start.Reserved? || s.start.Calling?)
    ensures !s.idReceived
  {
  }

  lemma StopWrites(s: State, k: nat)
    requires k in s.stops && s.stops[k].ChangeLocal?
    ensures NextStop(s, k, StopLocal)
         == s.(status := if Terminal(s.status) then s.status else Stopped, stops := s.stops[k := StopDone])
  {
  }

  lemma IdleHoldsNothing(s: State)
    requires Inv(s) && s.start.Idle?
    ensures !s.idReceived && s.leg.NoLeg? && s.job.status.Absent?
  {
  }

  lemma GrowsOn(s: State, t: State, u: State)
    requires Grows(s, t) && Grows(t, u)
    ensures Grows(s, u)
  {
  }

  class CallService {
    var leg: State
    var log: seq<Effect>
    var awaits: nat
    const others: nat -> seq<Step>
    const fails: nat -> bool
    const telemetryFails: nat -> bool

    constructor (others: nat -> seq<Step>, fails: nat -> bool, telemetryFails: nat -> bool)
      ensures leg == INIT && log == [] && awaits == 0
      ensures this.others == others && this.fails == fails && this.telemetryFails == telemetryFails
    {
      this.others, this.fails, this.telemetryFails := others, fails, telemetryFails;
      leg, log, awaits := INIT, [], 0;
    }

    predicate NoneFails(first: nat, end: nat) {
      forall n :: first <= n < end ==> !fails(n)
    }

    /** The rest of the system runs; the awaited operation then succeeds or throws. */
    method Await() returns (failed: bool)
      modifies this`leg, this`awaits
      ensures leg == Run(Next, old(leg), others(old(awaits))) && awaits == old(awaits) + 1
      ensures failed == fails(old(awaits))
      ensures Inv(old(leg)) ==> Inv(leg) && Grows(old(leg), leg)
      ensures LeavesStart(others) ==>
        leg.start == old(leg.start) && leg.idReceived == old(leg.idReceived) && leg.diedHolding == old(leg.diedHolding)
      ensures LeavesStart(others) && old(leg.leg.NoLeg?) ==>
        (!leg.leg.NoLeg? <==> old(leg.start.Calling?) && World(LegCreated) in others(old(awaits)))
      ensures Quiet(others) ==> leg == old(leg).(leg := leg.leg)
    {
      ghost var steps := others(awaits);
      if Inv(leg) {
        RunKeepsInv(leg, steps);
        OverStaysOver(leg, steps);
      }
      if LeavesStart(others) {
        OthersLeaveStart(leg, steps);
        LegNeedsDial(leg, steps);
      }
      if Quiet(others) { QuietChangesTheLegOnly(leg, steps); }
      failed := fails(awaits);
      leg, awaits := Run(Next, leg, others(awaits)), awaits + 1;
    }

    /** An await of the k-th stop, whose own program counter nobody else moves. */
    method AwaitInStop(k: nat) returns (failed: bool)
      requires Inv(leg) && k in leg.stops && LeavesStop(others, k)
      modifies this`leg, this`awaits
      ensures Inv(leg) && Grows(old(leg), leg)
      ensures leg == Run(Next, old(leg), others(old(awaits)))
      ensures awaits == old(awaits) + 1 && failed == fails(old(awaits))
      ensures k in leg.stops && leg.stops[k] == old(leg.stops[k])
      ensures Quiet(others) ==> leg == old(leg).(leg := leg.leg)
    {
      OthersLeaveStop(leg, others(awaits), k);
      failed := Await();
    }

    /** Unless its own last await throws, the call is over afterwards. */
    method MarkFailedIfActive()
      requires Inv(leg) && leg.start.FailRead? && LeavesStart(others)
      modifies this`leg, this`awaits
      ensures Inv(leg) && leg.start.Threw? && leg.idReceived == old(leg.idReceived)
      ensures awaits > old(awaits)
      ensures awaits > 0 && (fails(awaits - 1) || Terminal(leg.status))
      ensures (old(leg.stopIssued) ==> leg.stopIssued) && (old(leg.dataDeleted) ==> leg.dataDeleted)
    {
      var failed := Await();
      StepKeepsInv(leg, Starting(MarkFailedRead(failed)));
      leg := Next(leg, Starting(MarkFailedRead(failed)));
      if leg.start.FailWrite? {
        failed := Await();
        StepKeepsInv(leg, Starting(MarkFailedWrite(failed)));
        leg := Next(leg, Starting(MarkFailedWrite(failed)));
      }
    }

    /** One own step of `start`, taken atomically with the code around it. */
    method Take(a: Step)
      requires Inv(leg)
      modifies this`leg
      ensures leg == Next(old(leg), a)
      ensures Inv(leg) && Grows(old(leg), leg)
    {
      StepKeepsInv(leg, a);
      leg := Next(leg, a);
    }

    /** One own step of `start` up to the answer of the dial. */
    method TakeStart(a: StartStep)
      requires Inv(leg)
      modifies this`leg
      ensures leg == NextStart(old(leg), a)
      ensures Inv(leg) && Grows(old(leg), leg)
    {
      hide NextStart, Inv;
      Take(Starting(a));
    }

    /** `start`. Whatever fails and whatever the others do in between, an id it received has been
        stopped, or it is attached to an open call, its deadline exists and the maximum-duration
        timer is running; a start that fails leaves a call that is over, unless marking it threw. */
    method Start() returns (r: StartOutcome)
      requires Inv(leg) && leg.start.Idle? && LeavesStart(others)
      modifies this`leg, this`awaits
      ensures Inv(leg)
      ensures leg.idReceived ==> leg.stopIssued || (r.Started? && leg.timer && !leg.job.status.Absent?)
      ensures leg.idReceived && !leg.stopIssued ==> leg.attached && !Terminal(leg.status)
      ensures Quiet(others) && leg.idReceived && !leg.stopIssued ==>
        leg.attached && leg.status.Dialing? && leg.job == Job(Queued, 0, MAX_ATTEMPTS)
      ensures r.StartFailed? ==> !leg.idReceived
      ensures r.AttachmentFailed? ==> leg.stopIssued
      ensures r.StartFailed? || r.AttachmentFailed? ==> awaits > 0 && (fails(awaits - 1) || Terminal(leg.status))
      ensures (forall n :: !fails(n)) && !leg.dataDeleted ==> !r.AttachmentFailed?
      ensures r.Current? || r.NotReserved? ==> leg.start.Idle?
      // Exactly a ready call is started: it is reserved and dialled unless something fails.
      ensures r.Current? ==> !leg.status.Ready?
      ensures fails(old(awaits)) ==> r.NotReserved?
      ensures fails(old(awaits) + 1) ==> r.Current? || r.NotReserved?
      ensures Quiet(others) && (forall n :: !fails(n)) && !old(leg.dataDeleted) ==>
        if !old(leg.status.Ready?) then r.Current? && leg == old(leg).(leg := leg.leg)
        else if World(LegCreated) in others(old(awaits) + 5) then r.Started?
        else r.StartFailed?
    {
      IdleHoldsNothing(leg);
      hide Inv, Next, NextAttach, NextStop, NextRun, NextStore, Grows, Quiet, LeavesStart, LeavesStop;
      r := ReserveCall();
      if !leg.start.Reserved? { return; }
      var dialled := Dial();
      if !dialled { return StartFailed; }
      r := AttachOrStop();
    }

    /** The call as it is, which ends the start of one that is not ready, and the reservation. */
    method ReserveCall() returns (r: StartOutcome)
      requires Inv(leg) && leg.start.Idle? && LeavesStart(others)
      modifies this`leg, this`awaits
      ensures Inv(leg) && !leg.idReceived && leg.leg.NoLeg?
      ensures r.Current? || r.NotReserved? || r.Started?
      ensures if r.Started? then leg.start.Reserved? && awaits == old(awaits) + 2 else leg.start.Idle?
      ensures r.Current? ==> !leg.status.Ready?
      ensures fails(old(awaits)) ==> r.NotReserved?
      ensures fails(old(awaits) + 1) ==> !r.Started?
      ensures Quiet(others) && r.Started? ==> leg == old(leg).(leg := leg.leg, status := Dialing, start := Reserved)
      ensures Quiet(others) && (forall n :: !fails(n)) && !old(leg.dataDeleted) ==>
        if old(leg.status.Ready?) then r.Started? else r.Current? && leg == old(leg).(leg := leg.leg)
    {
      IdleHoldsNothing(leg);
      hide Inv, Next, NextAttach, NextStop, NextRun, NextStore, Grows, Quiet, LeavesStart, LeavesStop;
      var failed := Await();
      if failed || leg.dataDeleted { return NotReserved; }
      if !leg.status.Ready? { return Current; }
      failed := Await();
      if failed || !leg.status.Ready? { return NotReserved; }
      TakeStart(Reserve);
      return Started;
    }

    /** The provider operation, the pending telemetry, the detection job, then the dial itself. */
    method Dial() returns (dialled: bool)
      requires Inv(leg) && leg.start.Reserved? && LeavesStart(others)
      modifies this`leg, this`awaits
      ensures Inv(leg)
      ensures if dialled then leg.start.Holding? else leg.start.Threw? && !leg.idReceived
      ensures !dialled ==> awaits > 0 && (fails(awaits - 1) || Terminal(leg.status))
      // It succeeds exactly if none of its awaits throws and the provider dials while the last is awaited.
      ensures old(leg.leg.NoLeg?) ==>
        (dialled <==> NoneFails(old(awaits), old(awaits) + 4) && World(LegCreated) in others(old(awaits) + 3))
      ensures dialled ==> awaits == old(awaits) + 4
      ensures Quiet(others) && dialled ==> leg == old(leg).(leg := leg.leg, start := Holding, idReceived := true)
    {
      hide Inv, Next, NextStart, NextAttach, NextStop, NextRun, NextStore, Grows, LeavesStart, LeavesStop, Quiet;
      var ready := PrepareDial();
      if !ready { DialFails(); return false; }
      DialSteps(leg);
      TakeStart(Call);
      var failed := Await();
      if failed || leg.leg.NoLeg? { DialFails(); return false; }
      DialSteps(leg);
      TakeStart(CallReturns(true));
      return true;
    }

    /** What comes before the dial: one await each. */
    method PrepareDial() returns (ready: bool)
      requires Inv(leg) && leg.start.Reserved? && LeavesStart(others)
      modifies this`leg, this`awaits
      ensures Inv(leg) && leg.start.Reserved?
      ensures ready <==> NoneFails(old(awaits), old(awaits) + 3)
      ensures ready ==> awaits == old(awaits) + 3
      ensures old(leg.leg.NoLeg?) ==> leg.leg.NoLeg?
      ensures Quiet(others) ==> leg == old(leg).(leg := leg.leg)
    {
      hide Inv, Next, NextStart, NextAttach, NextStop, NextRun, NextStore, Grows, LeavesStart, LeavesStop, Quiet;
      for i := 0 to 3
        invariant Inv(leg) && leg.start.Reserved? && awaits == old(awaits) + i
        invariant NoneFails(old(awaits), awaits)
        invariant old(leg.leg.NoLeg?) ==> leg.leg.NoLeg?
        invariant Quiet(others) ==> leg == old(leg).(leg := leg.leg)
      {
        var failed := Await();
        if failed { return false; }
      }
      return true;
    }

    method DialFails()
      requires Inv(leg) && (leg.start.Reserved? || leg.start.Calling?) && LeavesStart(others)
      modifies this`leg, this`awaits
      ensures Inv(leg) && leg.start.Threw? && !leg.idReceived
      ensures awaits > 0 && (fails(awaits - 1) || Terminal(leg.status))
    {
      DialHoldsNothing(leg);
      DialSteps(leg);
      TakeStart(CallThrows);
      MarkFailedIfActive();
    }

    /** One own step of `start` once it holds an id. */
    method TakeAttach(a: AttachStep)
      requires Inv(leg)
      modifies this`leg
      ensures leg == NextAttach(old(leg), a)
      ensures Inv(leg) && Grows(old(leg), leg)
    {
      hide NextAttach, Inv;
      Take(Attaching(a));
    }

    /** The leg could not be attached: it is stopped, whether or not the provider answers. */
    method StopUnattached()
      requires Inv(leg) && leg.start.AttachFailed? && LeavesStart(others)
      modifies this`leg, this`awaits
      ensures Inv(leg) && leg.stopIssued && leg.idReceived == old(leg.idReceived)
      ensures awaits >= old(awaits) + 2
      ensures old(leg.dataDeleted) ==> leg.dataDeleted
      ensures awaits > 0 && (fails(awaits - 1) || Terminal(leg.status))
    {
      hide Inv, LeavesStart, LeavesStop, Quiet;
      TakeAttach(StopAfterFailure);
      var _ := Await();
      MarkFailedIfActive();
    }

    /** The attachment and the snapshot that it returns: two awaits, either of which may throw. */
    method AttachAndRead()
      requires Inv(leg) && leg.start.Holding? && LeavesStart(others)
      modifies this`leg, this`awaits
      ensures Inv(leg) && leg.idReceived
      ensures leg.start.AttachFailed? || leg.start.AttachedTerminal? || leg.start.AttachedActive?
      ensures fails(old(awaits)) || fails(old(awaits) + 1) ==> leg.start.AttachFailed?
      ensures (forall n :: !fails(n)) && !leg.dataDeleted ==> !leg.start.AttachFailed?
      ensures leg.start.AttachedActive? ==> leg.attached && !Terminal(leg.status)
      ensures !leg.start.AttachFailed? ==> awaits == old(awaits) + 2
      ensures Quiet(others) && leg.start.AttachedActive? ==>
        leg == AttachCommit(old(leg)).(leg := leg.leg, start := AttachedActive)
      ensures Quiet(others) ==> leg.dataDeleted == old(leg.dataDeleted)
    {
      HoldsItsId(leg);
      hide NextStart, NextAttach, NextStop, NextRun, NextStore, Next, Enqueue, Quiet, LeavesStart, LeavesStop;
      var failed := Await();
      AttachSteps(leg);
      TakeAttach(Attach(!failed));
      if !failed {
        failed := Await();
        AttachSteps(leg);
        TakeAttach(ReadSnapshot(failed));
      }
    }

    method AttachOrStop() returns (r: StartOutcome)
      requires Inv(leg) && leg.start.Holding? && LeavesStart(others)
      modifies this`leg, this`awaits
      ensures Inv(leg) && leg.idReceived
      ensures r.Started? || (r.AttachmentFailed? && leg.stopIssued)
      ensures fails(old(awaits)) || fails(old(awaits) + 1) ==> r.AttachmentFailed?
      ensures (forall n :: !fails(n)) && !leg.dataDeleted ==> r.Started?
      ensures Quiet(others) && (forall n :: !fails(n)) && !old(leg.dataDeleted) ==> r.Started?
      ensures leg.stopIssued || (leg.timer && !leg.job.status.Absent? && leg.attached && !Terminal(leg.status))
      ensures r.AttachmentFailed? ==> awaits > 0 && (fails(awaits - 1) || Terminal(leg.status))
      ensures Quiet(others) && !leg.stopIssued ==>
        leg == AttachCommit(old(leg)).(leg := leg.leg, start := Returned, timer := true) && !Terminal(leg.status)
    {
      hide Inv, NextStart, NextAttach, NextStop, NextRun, NextStore, Next, Enqueue, Quiet, LeavesStart, LeavesStop;
      AttachAndRead();
      if leg.start.AttachFailed? {
        StopUnattached();
        return AttachmentFailed;
      }
      AttachSteps(leg);
      if leg.start.AttachedTerminal? {
        TakeAttach(StopAfterTerminal);
        var _ := Await();
        return Started;
      }
      ActiveHasDeadline(leg);
      TakeAttach(Schedule);
      return Started;
    }

    /** A telemetry write of `stop`; its failure is reported and forgotten. */
    method RecordStop(k: nat, phase: Phase)
      requires Inv(leg) && k in leg.stops && LeavesStop(others, k)
      modifies this`leg, this`awaits, this`log
      ensures Inv(leg) && Grows(old(leg), leg)
      ensures log == old(log) + [if telemetryFails(old(awaits)) then TelemetryLost(phase) else Telemetry(phase)]
      ensures awaits == old(awaits) + 1
      ensures k in leg.stops && leg.stops[k] == old(leg.stops[k])
      ensures Quiet(others) ==> leg == old(leg).(leg := leg.leg)
    {
      var lost := telemetryFails(awaits);
      var _ := AwaitInStop(k);
      log := log + [if lost then TelemetryLost(phase) else Telemetry(phase)];
    }

    /** One own step of the k-th stop. */
    method TakeStop(k: nat, a: StopStep)
      requires Inv(leg)
      modifies this`leg
      ensures leg == NextStop(old(leg), k, a)
      ensures Inv(leg) && Grows(old(leg), leg)
    {
      hide NextStop, Inv;
      Take(Stopping(k, a));
    }

    /** The first read at the head of `stop`: the attempt with or without the id. */
    method ReadAttempt(k: nat) returns (read: bool, knowsId: bool)
      requires Inv(leg) && k !in leg.stops && LeavesStop(others, k)
      modifies this`leg, this`awaits
      ensures Inv(leg) && Grows(old(leg), leg)
      ensures read == !fails(old(awaits)) && awaits == old(awaits) + 1
      ensures knowsId == FirstRead(old(leg), k, old(awaits)).attached
      ensures read ==> k in leg.stops && leg.stops[k] == CallLeg.ReadCall(knowsId)
      ensures Quiet(others) ==> leg.status == old(leg.status) && leg.stopIssued == old(leg.stopIssued)
      ensures Quiet(others) ==> knowsId == old(leg.attached)
    {
      hide Inv, Next, NextStop, Grows, Quiet, LeavesStart, LeavesStop;
      ghost var first := leg;
      StopReads(leg, k);
      TakeStop(k, StopBegin(true));
      ghost var second := leg;
      var failed := AwaitInStop(k);
      ghost var third := leg;
      GrowsOn(first, second, third);
      read, knowsId := !failed, leg.attached;
      if read {
        StopReads(leg, k);
        TakeStop(k, StopReadAttempt);
        GrowsOn(first, third, leg);
      }
    }

    /** The reads at the head of `stop`; `knowsId` tells whether the attempt carried the id. */
    method ReadBeforeStop(k: nat) returns (read: bool, knowsId: bool)
      requires Inv(leg) && k !in leg.stops && LeavesStop(others, k)
      modifies this`leg, this`awaits
      ensures Inv(leg) && Grows(old(leg), leg)
      ensures read ==> k in leg.stops && (leg.stops[k] == StopDone || leg.stops[k] == AskProvider(knowsId))
      ensures read <==> NoneFails(old(awaits), old(awaits) + 2) && !leg.dataDeleted
      ensures read && leg.stops[k].StopDone? ==> Terminal(leg.status)
      ensures read && Terminal(old(leg.status)) ==> leg.stops[k].StopDone?
      ensures (forall n :: !fails(n)) && !leg.dataDeleted ==> read
      ensures Quiet(others) ==> leg.status == old(leg.status) && leg.stopIssued == old(leg.stopIssued)
      // The id is the one of the first read; others may attach or delete it before the second.
      ensures read ==> knowsId == FirstRead(old(leg), k, old(awaits)).attached
      ensures Quiet(others) && read ==> knowsId == old(leg.attached)
    {
      hide Inv, Next, NextStop, Quiet, LeavesStart, LeavesStop;
      read, knowsId := ReadAttempt(k);
      if !read { return; }
      var failed := AwaitInStop(k);
      if failed || leg.dataDeleted { return false, knowsId; }
      StopReads(leg, k);
      TakeStop(k, StopReadCall);
    }

    /** `stop`, as the k-th stop of the system; `log` holds what it did to the outside, in order. */
    method Stop(k: nat) returns (r: StopOutcome)
      requires Inv(leg) && k !in leg.stops && LeavesStop(others, k)
      modifies this`leg, this`awaits, this`log
      ensures Inv(leg)
      // A call that is over is left alone: no provider request, no write, no telemetry.
      ensures Terminal(old(leg.status)) ==> (r.AlreadyOver? || r.Aborted?) && log == []
      ensures r.AlreadyOver? ==> log == [] && Terminal(leg.status)
      // The provider is asked before the local status changes, and a refusal changes nothing locally.
      ensures AskedFirst(log)
      ensures r.Refused? ==> leg.stopIssued && ProviderStop(false) in log && !Committed(log)
      // Every stop that goes on says so first, and a refused one says so last.
      ensures log != [] ==> Told(log[0], StopRequested)
      ensures r.Refused? ==> Told(log[|log| - 1], StopFailed)
      ensures r.Refused? || r.StoppedNow? ==> log != []
      // Under every interference: a stop that commits has asked the provider about the id of its first read.
      ensures Committed(log) && FirstRead(old(leg), k, old(awaits)).attached ==>
        leg.stopIssued && ProviderStop(true) in log
      ensures r.StoppedNow? ==> Terminal(leg.status) && Committed(log)
      // Without interference nothing but the committed local stop changes the status.
      ensures Quiet(others) ==>
        leg.status == if Committed(log) && !Terminal(old(leg.status)) then Stopped else old(leg.status)
      ensures Quiet(others) && r.StoppedNow? ==> leg.status.Stopped? && (old(leg.attached) ==> leg.stopIssued)
      // A stop that cannot read its call changes nothing and tells nobody.
      ensures !NoneFails(old(awaits), old(awaits) + 2) ==> r.Aborted? && log == []
      // Lost telemetry never decides the outcome.
      ensures (forall n :: !fails(n)) && !leg.dataDeleted ==> r.AlreadyOver? || r.StoppedNow?
    {
      hide Inv, Next, Quiet, LeavesStart, LeavesStop, FirstRead;
      log := [];
      var read, knowsId := ReadBeforeStop(k);
      if !read { return Aborted; }
      if leg.stops[k].StopDone? { return AlreadyOver; }
      RecordStop(k, StopRequested);
      assert NothingDecided(log);
      var refused := AskTheProvider(k, knowsId);
      if refused { return Refused; }
      ghost var asked := log;
      r := ChangeLocally(k);
      if knowsId { assert ProviderStop(true) in asked && asked <= log; }
    }

    /** What the first read of a stop sees, after whatever the others did while it was awaited. */
    ghost function FirstRead(before: State, k: nat, n: nat): State {
      Run(Next, NextStop(before, k, StopBegin(true)), others(n))
    }

    method AskTheProvider(k: nat, knowsId: bool) returns (refused: bool)
      requires Inv(leg) && k in leg.stops && leg.stops[k] == AskProvider(knowsId) && LeavesStop(others, k)
      requires NothingDecided(log)
      modifies this`leg, this`awaits, this`log
      ensures Inv(leg) && Grows(old(leg), leg)
      ensures (forall n :: !fails(n)) ==> !refused
      ensures !refused ==> k in leg.stops && leg.stops[k].ChangeLocal? && NothingDecided(log)
      ensures refused ==> knowsId && leg.stopIssued && ProviderStop(false) in log && AskedFirst(log) && !Committed(log)
      ensures !refused && knowsId ==> leg.stopIssued && ProviderStop(true) in log
      ensures old(log) <= log && (refused ==> Told(log[|log| - 1], StopFailed))
      ensures Quiet(others) ==> leg.status == old(leg.status)
    {
      hide Inv, Next, NextStop, Quiet, LeavesStart, LeavesStop, NothingDecided, AskedFirst, Committed;
      if !knowsId {
        StopAsks(leg, k, false);
        TakeStop(k, StopProvider(false));
        return false;
      }
      ghost var before := log;
      var failed := AwaitInStop(k);
      log := log + [ProviderStop(!failed)];
      StopAsks(leg, k, failed);
      TakeStop(k, StopProvider(failed));
      if failed {
        RecordStop(k, StopFailed);
        RefusalComesLast(before, log[|log| - 1]);
      } else {
        AcceptanceDecidesNothing(before);
      }
      return failed;
    }

    /** The local stop commits, and is then read back: a failing read leaves the committed stop. */
    method ChangeLocally(k: nat) returns (r: StopOutcome)
      requires Inv(leg) && k in leg.stops && leg.stops[k].ChangeLocal? && LeavesStop(others, k)
      requires NothingDecided(log)
      modifies this`leg, this`awaits, this`log
      ensures Inv(leg) && (old(leg.stopIssued) ==> leg.stopIssued) && old(log) <= log
      ensures r.StoppedNow? || r.Aborted?
      ensures (forall n :: !fails(n)) && !leg.dataDeleted ==> r.StoppedNow?
      ensures r.StoppedNow? ==> Terminal(leg.status) && Committed(log)
      // What is written is decided by the status at that moment, after the others had their turn.
      ensures Committed(log) <==> !fails(old(awaits))
      ensures Committed(log) ==> var before := Run(Next, old(leg), others(old(awaits))).status;
        old(log) + [LocalStop(!Terminal(before) || before.Stopped?)] <= log
      ensures Quiet(others) ==>
        leg.status == if Committed(log) && !Terminal(old(leg.status)) then Stopped else old(leg.status)
      ensures AskedFirst(log)
    {
      hide Inv, Next, NextStop, Quiet, LeavesStart, LeavesStop;
      hide AskedFirst, NothingDecided, Committed;
      ghost var decided := log;
      var failed := AwaitInStop(k);
      if failed {
        NothingDecidedIsFine(decided);
        return Aborted;
      }
      StopWrites(leg, k);
      TakeStop(k, StopLocal);
      var stopped := leg.status.Stopped?;
      log := log + [LocalStop(stopped)];
      r := ReadBack(k, decided, stopped);
    }

    /** The committed stop is read back and, when it took effect, recorded. */
    method ReadBack(k: nat, ghost decided: seq<Effect>, ghost stopped: bool) returns (r: StopOutcome)
      requires Inv(leg) && k in leg.stops && LeavesStop(others, k) && Terminal(leg.status)
      requires NothingDecided(decided) && log == decided + [LocalStop(stopped)]
      modifies this`leg, this`awaits, this`log
      ensures Inv(leg) && Grows(old(leg), leg) && old(log) <= log
      ensures r.StoppedNow? || r.Aborted?
      ensures (forall n :: !fails(n)) && !leg.dataDeleted ==> r.StoppedNow?
      ensures Committed(log) && AskedFirst(log)
      ensures Quiet(others) ==> leg.status == old(leg.status)
      // It answers exactly if the read succeeds, and records a success exactly if the call reads as stopped.
      ensures var read := Run(Next, old(leg), others(old(awaits)));
        && (r.StoppedNow? <==> !fails(old(awaits)) && !read.dataDeleted)
        && |log| == |old(log)| + (if r.StoppedNow? && read.status.Stopped? then 1 else 0)
        && (|log| > |old(log)| ==> Told(log[|log| - 1], StopSucceeded))
    {
      hide Inv, Next, NextStop, Quiet, LeavesStart, LeavesStop;
      hide AskedFirst, NothingDecided, Committed, Grows;
      LocalStopComesLast(decided, stopped, []);
      ghost var first := leg;
      var failed := AwaitInStop(k);
      if failed || leg.dataDeleted { return Aborted; }
      if leg.status.Stopped? {
        ghost var second := leg;
        RecordStop(k, StopSucceeded);
        GrowsOn(first, second, leg);
        LocalStopComesLast(decided, stopped, [log[|log| - 1]]);
      }
      return StoppedNow;
    }
  }

  lemma NothingDecidedIsFine(effects: seq<Effect>)
    requires NothingDecided(effects)
    ensures AskedFirst(effects) && !Committed(effects)
  {
  }

  lemma AcceptanceDecidesNothing(before: seq<Effect>)
    requires NothingDecided(before)
    ensures NothingDecided(before + [ProviderStop(true)]) && ProviderStop(true) in before + [ProviderStop(true)]
  {
  }

  lemma RefusalComesLast(before: seq<Effect>, after: Effect)
    requires NothingDecided(before) && (after.Telemetry? || after.TelemetryLost?)
    ensures var all := before + [ProviderStop(false)] + [after];
      ProviderStop(false) in all && AskedFirst(all) && !Committed(all)
  {
    var all := before + [ProviderStop(false)] + [after];
    assert all[|before|] == ProviderStop(false);
    forall i | 0 <= i < |all| ensures !all[i].LocalStop? {
      if i < |before| { assert all[i] == before[i]; }
    }
  }

  lemma LocalStopComesLast(before: seq<Effect>, stopped: bool, after: seq<Effect>)
    requires NothingDecided(before)
    requires |after| <= 1 && forall e :: e in after ==> !e.ProviderStop? && !e.LocalStop?
    ensures AskedFirst(before + [LocalStop(stopped)] + after)
    ensures Committed(before + [LocalStop(stopped)] + after)
    ensures before + [LocalStop(stopped)] + [] == before + [LocalStop(stopped)]
  {
    var all := before + [LocalStop(stopped)] + after;
    assert all[|before|] == LocalStop(stopped);
    forall i, j | 0 <= i < j < |all|
      ensures !(all[i] == ProviderStop(false) && all[j].LocalStop?) && !(all[i].LocalStop? && all[j].ProviderStop?)
    {
      if i < |before| { assert all[i] == before[i]; }
    }
  }

  /** The local stop was written. */
  ghost predicate Committed(effects: seq<Effect>) {
    exists i :: 0 <= i < |effects| && effects[i].LocalStop?
  }

  /** Neither a local stop nor a refusal so far. */
  ghost predicate NothingDecided(effects: seq<Effect>) {
    forall i :: 0 <= i < |effects| ==> !effects[i].LocalStop? && effects[i] != ProviderStop(false)
  }

  /** No local stop after a refusal, and no provider request after a local stop. */
  ghost predicate AskedFirst(effects: seq<Effect>) {
    forall i, j :: 0 <= i < j < |effects| ==>
      && !(effects[i] == ProviderStop(false) && effects[j].LocalStop?)
      && !(effects[i].LocalStop? && effects[j].ProviderStop?)
  }
}
