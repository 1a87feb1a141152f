/** User deletion, retention jobs and call-data deletion of the one recording of a call, in any
    interleaving, with every awaited operation failing or not and every process dying anywhere. */
module RecordingDeletion {
  import opened Traces

  datatype RecordingStatus = NoRecording | Starting | InProgress | Processing | Available | Failed | Deleted

  /** Disposition of the provider copy recorded with a call-data deletion. */
  datatype Disposition = NotPresent | AlreadyDeleted | DeletedNow

  datatype Pc =
    | UserRead
    | UserRequest
    | UserProvider
    | UserMark
    | JobRead
    | JobProvider
    | JobMark
    | DataRead
    | DataProvider
    | DataErase(disposition: Disposition)
    | Finished(ok: bool)

  datatype State = State(
    status: RecordingStatus,
    callKnown: bool,         // the attempt carries the provider call id
    attached: bool,          // the row carries the provider recording id
    erased: bool,            // call-data deletion has run
    callOver: bool,
    providerMade: bool,      // the provider created a recording for this call
    providerHolds: bool,     // and still keeps it
    everAttached: bool,
    hadId: bool,             // the id was attached before the row became deleted
    erasedUnseen: bool,      // an erasure decided on "not present" hit a row that carried an id
    lateId: bool,            // the id was first attached to a row that was deleted already
    dispositions: set<Disposition>,
    processes: map<nat, Pc>)

  const INIT := State(NoRecording, false, false, false, false, false, false, false, false, false, false, {}, map[])

  datatype Step =
    | BeginUser(k: nat)
    | BeginJob(k: nat)
    | BeginData(k: nat)
    | Read(k: nat, fails: bool)
    | Request(k: nat, fails: bool)
    | AskProvider(k: nat, fails: bool)
    | Write(k: nat, fails: bool)
    | Die(k: nat)
    | World(change: Change)

  datatype Change =
    | BeginRecording
    | ProviderCreates
    | AttachProviderRecording
    | FailRecording
    | StatusCallback
    | RecordingCallback(report: Report)
    | CallEnds

  datatype Report = RecordingRuns | RecordingCompleted | RecordingAbsent

  function Move(s: State, k: nat, pc: Pc): State {
    s.(processes := s.processes[k := pc])
  }

  function At(s: State, k: nat): Pc {
    if k in s.processes then s.processes[k] else Finished(false)
  }

  /** The first read of each operation and the branch it takes. */
  function AfterRead(s: State, pc: Pc, fails: bool): Pc {
    match pc
    case UserRead =>
      if fails || s.status.NoRecording? then Finished(false)
      else if s.status.Deleted? then Finished(true)
      else if !s.status.Available? || !s.attached then Finished(false)
      else UserRequest
    case JobRead =>
      if fails then Finished(false)
      else if s.status.NoRecording? || s.status.Deleted? then Finished(true)
      else if !s.status.Available? || !s.attached then Finished(false)
      else JobProvider
    case DataRead =>
      if fails || !s.callOver || s.erased then Finished(false)
      else if s.status.NoRecording? || !s.attached then DataErase(NotPresent)
      else if s.status.Deleted? then DataErase(AlreadyDeleted)
      else DataProvider
    case _ => pc
  }

  function TakeRead(s: State, k: nat, fails: bool): State {
    if k in s.processes then Move(s, k, AfterRead(s, s.processes[k], fails)) else s
  }

  /** `requestRecordingDeletion` insists on an available recording. */
  function TakeRequest(s: State, k: nat, fails: bool): State {
    if !At(s, k).UserRequest? then s
    else Move(s, k, if fails || !s.status.Available? then Finished(false) else UserProvider)
  }

  /** A provider delete that returns (found or already gone) leaves nothing behind. */
  function TakeProvider(s: State, k: nat, fails: bool): State {
    match At(s, k)
    case UserProvider => Move(Asked(s, fails), k, if fails then Finished(false) else UserMark)
    case JobProvider => Move(Asked(s, fails), k, if fails then Finished(false) else JobMark)
    case DataProvider => Move(Asked(s, fails), k, if fails then Finished(false) else DataErase(DeletedNow))
    case _ => s
  }

  function Asked(s: State, fails: bool): State {
    if fails then s else s.(providerHolds := false)
  }

  /** The erasure of the call data, which leaves neither of the provider ids. */
  function Erased(s: State, d: Disposition): State {
    s.(
      erased := true,
      callKnown := false,
      attached := false,
      status := if s.status.NoRecording? then NoRecording else Deleted,
      hadId := if s.status.NoRecording? || s.status.Deleted? then s.hadId else s.everAttached,
      erasedUnseen := s.erasedUnseen || (d.NotPresent? && s.attached && !s.status.Deleted?),
      dispositions := s.dispositions + {d})
  }

  function TakeWrite(s: State, k: nat, fails: bool): State {
    match At(s, k)
    case UserMark => Mark(s, k, fails)
    case JobMark => Mark(s, k, fails)
    case DataErase(d) =>
      if fails || s.erased then Move(s, k, Finished(false))
      else Move(Erased(s, d), k, Finished(true))
    case _ => s
  }

  /** `markRecordingDeleted` needs a recording row and nothing else. */
  function Mark(s: State, k: nat, fails: bool): State {
    if fails || s.status.NoRecording? then Move(s, k, Finished(false))
    else Move(s, k, Finished(true)).(status := Deleted, hadId := if s.status.Deleted? then s.hadId else s.everAttached)
  }

  function Changed(s: State, c: Change): State {
    match c
    case BeginRecording => if s.status.NoRecording? && s.callKnown && !s.callOver then s.(status := Starting) else s
    case ProviderCreates =>
      if !s.providerMade && !s.status.NoRecording? then s.(providerMade := true, providerHolds := true) else s
    case AttachProviderRecording =>
      if s.providerMade && (s.status.Starting? || s.status.InProgress? || s.status.Processing? || s.status.Available?)
      then s.(attached := true, everAttached := true, status := if s.status.Starting? then InProgress else s.status)
      else s
    case FailRecording => if s.status.Starting? || s.status.InProgress? then s.(status := Failed) else s
    // A provider status finds the attempt by the call when it carries no provider id, and writes the
    // id back; also after an erasure has taken it away.
    case StatusCallback => s.(callKnown := true)
    case RecordingCallback(report) =>
      if !s.providerMade || s.status.NoRecording? || !s.callKnown then s
      else s.(attached := true, everAttached := true, status := AfterReport(s.status, report),
              lateId := s.lateId || (s.status.Deleted? && !s.everAttached))
    case CallEnds =>
      s.(callOver := true, status := if s.status.Starting? || s.status.InProgress? then Processing else s.status)
  }

  function AfterReport(status: RecordingStatus, report: Report): RecordingStatus {
    if status.Deleted? then Deleted
    else match report
      case RecordingCompleted => Available
      case RecordingAbsent => if status.Available? then Available else Failed
      case RecordingRuns => if status.Available? || status.Processing? then status else InProgress
  }

  function Next(s: State, a: Step): State {
    match a
    case BeginUser(k) => if k in s.processes then s else Move(s, k, UserRead)
    case BeginJob(k) => if k in s.processes then s else Move(s, k, JobRead)
    case BeginData(k) => if k in s.processes then s else Move(s, k, DataRead)
    case Read(k, fails) => TakeRead(s, k, fails)
    case Request(k, fails) => TakeRequest(s, k, fails)
    case AskProvider(k, fails) => TakeProvider(s, k, fails)
    case Write(k, fails) => TakeWrite(s, k, fails)
    case Die(k) => if k in s.processes then Move(s, k, Finished(false)) else s
    case World(c) => Changed(s, c)
  }

  /** The provider copy is gone although it was once there. */
  predicate ProviderDeleted(s: State) {
    s.providerMade && !s.providerHolds
  }

  predicate Rows(s: State) {
    && (s.attached ==> s.everAttached)
    && (s.everAttached ==> s.providerMade)
    && (s.providerMade ==> !s.status.NoRecording?)
    && (s.erased ==> s.status.NoRecording? || s.status.Deleted?)
    && (s.erased ==> s.callOver)
    && (s.status.Deleted? && !s.erased ==> ProviderDeleted(s) && s.hadId)
    && (s.hadId ==> s.status.Deleted? && s.everAttached)
    && (s.hadId && !s.erasedUnseen ==> ProviderDeleted(s))
    && (s.status.Deleted? && s.everAttached ==> s.hadId || s.lateId)
    && (s.everAttached && !s.attached ==> s.erased)
    && (AlreadyDeleted in s.dispositions || DeletedNow in s.dispositions ==> ProviderDeleted(s))
    && (s.erasedUnseen ==> s.erased && s.hadId && NotPresent in s.dispositions)
    && (s.lateId ==> s.erased && s.everAttached && s.status.Deleted? && !s.hadId)
  }

  /** What a process may rely on between its awaits. */
  predicate ProcessOk(s: State, pc: Pc) {
    && ((pc.UserMark? || pc.JobMark?) ==> ProviderDeleted(s) && s.everAttached)
    && ((pc.UserRequest? || pc.UserProvider? || pc.JobProvider? || pc.DataProvider?) ==> s.everAttached)
    && (pc.DataErase? && !pc.disposition.NotPresent? ==> ProviderDeleted(s))
    && (pc.DataErase? || pc.DataProvider? ==> s.callOver)
  }

  ghost predicate Inv(s: State) {
    && Rows(s)
    && forall k :: k in s.processes ==> ProcessOk(s, s.processes[k])
  }

  /** A provider copy that is gone does not come back, and an id once attached stays known. */
  predicate Settles(s: State, s': State) {
    && (ProviderDeleted(s) ==> ProviderDeleted(s'))
    && (s.everAttached ==> s'.everAttached)
    && (s.callOver ==> s'.callOver)
  }

  predicate OnlyMoves(s: State, s': State, k: nat) {
    s.processes - {k} == s'.processes - {k}
  }

  lemma ReadKeeps(s: State, k: nat, fails: bool)
    requires Rows(s) && ProcessOk(s, At(s, k))
    ensures KeepsAt(s, TakeRead(s, k, fails), k)
  {
    if k in s.processes {
      BranchIsOk(s, s.processes[k], fails);
      hide AfterRead;
    }
  }

  lemma BranchIsOk(s: State, pc: Pc, fails: bool)
    requires Rows(s) && ProcessOk(s, pc)
    ensures ProcessOk(s, AfterRead(s, pc, fails))
  {
  }

  lemma RequestKeeps(s: State, k: nat, fails: bool)
    requires Rows(s) && ProcessOk(s, At(s, k))
    ensures KeepsAt(s, TakeRequest(s, k, fails), k)
  {
  }

  /** A provider delete that returns leaves no copy; one that throws changes nothing but the process. */
  lemma ProviderDeletes(s: State, k: nat, fails: bool)
    requires Rows(s) && ProcessOk(s, At(s, k))
    ensures var pc, s' := At(s, k), TakeProvider(s, k, fails);
            (pc.UserProvider? || pc.JobProvider? || pc.DataProvider?) && !fails ==> ProviderDeleted(s')
    ensures fails ==> TakeProvider(s, k, fails) == s.(processes := TakeProvider(s, k, fails).processes)
  {
    match At(s, k)
    case UserProvider => if fails {}
    case JobProvider => if fails {}
    case DataProvider => if fails {}
    case _ =>
  }

  predicate KeepsAt(s: State, s': State, k: nat) {
    Rows(s') && Settles(s, s') && ProcessOk(s', At(s', k)) && OnlyMoves(s, s', k)
  }

  lemma CopyGone(s: State, k: nat, pc: Pc)
    requires Rows(s) && s.everAttached && (pc.UserMark? || pc.JobMark? || (pc == DataErase(DeletedNow) && s.callOver))
    ensures KeepsAt(s, Move(s.(providerHolds := false), k, pc), k)
  {
  }

  lemma GivesUp(s: State, k: nat)
    requires Rows(s)
    ensures KeepsAt(s, Move(s, k, Finished(false)), k)
  {
  }

  lemma ProviderKeeps(s: State, k: nat, fails: bool)
    requires Rows(s) && ProcessOk(s, At(s, k))
    ensures KeepsAt(s, TakeProvider(s, k, fails), k)
  {
    StandsStill(s, k);
    hide Rows, KeepsAt, ProviderDeleted;
    match At(s, k)
    case UserProvider => if fails { GivesUp(s, k); } else { CopyGone(s, k, UserMark); }
    case JobProvider => if fails { GivesUp(s, k); } else { CopyGone(s, k, JobMark); }
    case DataProvider => if fails { GivesUp(s, k); } else { CopyGone(s, k, DataErase(DeletedNow)); }
    case _ =>
  }

  lemma MarkKeeps(s: State, k: nat, fails: bool)
    requires Rows(s) && ProviderDeleted(s) && s.everAttached
    ensures KeepsAt(s, Mark(s, k, fails), k)
  {
    if fails || s.status.NoRecording? {}
  }

  lemma ErasedRows(s: State, d: Disposition)
    requires Rows(s) && !s.erased && s.callOver && (!d.NotPresent? ==> ProviderDeleted(s))
    ensures Rows(Erased(s, d)) && Settles(s, Erased(s, d))
  {
    if s.status.NoRecording? {} else if s.status.Deleted? {} else if d.NotPresent? {}
  }

  lemma EraseKeeps(s: State, k: nat, fails: bool)
    requires Rows(s) && ProcessOk(s, At(s, k)) && At(s, k).DataErase?
    ensures KeepsAt(s, TakeWrite(s, k, fails), k)
  {
    if fails || s.erased {
      GivesUp(s, k);
    } else {
      var d := At(s, k).disposition;
      ErasedRows(s, d);
      assert TakeWrite(s, k, fails) == Move(Erased(s, d), k, Finished(true));
      MoveKeepsRows(Erased(s, d), k);
      hide Rows;
    }
  }

  lemma MoveKeepsRows(s: State, k: nat)
    requires Rows(s)
    ensures Rows(Move(s, k, Finished(true)))
  {
  }

  lemma WriteKeeps(s: State, k: nat, fails: bool)
    requires Rows(s) && ProcessOk(s, At(s, k))
    ensures KeepsAt(s, TakeWrite(s, k, fails), k)
  {
    StandsStill(s, k);
    hide Rows, KeepsAt, Mark, ProviderDeleted, Erased;
    match At(s, k)
    case UserMark => MarkKeeps(s, k, fails);
    case JobMark => MarkKeeps(s, k, fails);
    case DataErase(_) => EraseKeeps(s, k, fails);
    case _ =>
  }

  lemma StandsStill(s: State, k: nat)
    requires Rows(s) && ProcessOk(s, At(s, k))
    ensures KeepsAt(s, s, k)
  {
  }

  lemma WorldKeeps(s: State, c: Change)
    requires Rows(s)
    ensures var s' := Changed(s, c); Rows(s') && Settles(s, s') && s'.processes == s.processes
  {
  }

  lemma ProcessStaysOk(s: State, s': State, pc: Pc)
    requires Settles(s, s') && ProcessOk(s, pc)
    ensures ProcessOk(s', pc)
  {
  }

  lemma OthersStayOk(s: State, s': State, k: nat)
    requires Inv(s) && Settles(s, s') && Rows(s') && OnlyMoves(s, s', k) && ProcessOk(s', At(s', k))
    ensures Inv(s')
  {
    hide Rows, Settles, ProcessOk;
    forall j | j in s'.processes ensures ProcessOk(s', s'.processes[j]) {
      if j != k {
        assert j in s'.processes - {k} && (s'.processes - {k})[j] == s'.processes[j];
        assert j in s.processes && s.processes[j] == s'.processes[j];
        ProcessStaysOk(s, s', s.processes[j]);
      }
    }
  }

  lemma StepKeepsInv(s: State, a: Step)
    requires Inv(s)
    ensures Inv(Next(s, a))
  {
    hide Rows, TakeRead, TakeRequest, TakeProvider, TakeWrite, Changed;
    match a
    case Read(k, fails) => AtOk(s, k); ReadKeeps(s, k, fails); OthersStayOk(s, Next(s, a), k);
    case Request(k, fails) => AtOk(s, k); RequestKeeps(s, k, fails); OthersStayOk(s, Next(s, a), k);
    case AskProvider(k, fails) => AtOk(s, k); ProviderKeeps(s, k, fails); OthersStayOk(s, Next(s, a), k);
    case Write(k, fails) => AtOk(s, k); WriteKeeps(s, k, fails); OthersStayOk(s, Next(s, a), k);
    case World(c) =>
      WorldKeeps(s, c);
      forall j | j in s.processes ensures ProcessOk(Next(s, a), s.processes[j]) {
        ProcessStaysOk(s, Next(s, a), s.processes[j]);
      }
    case _ => MovesKeepRows(s, a);
  }

  lemma AtOk(s: State, k: nat)
    requires Inv(s)
    ensures ProcessOk(s, At(s, k))
  {
    hide Rows;
  }

  lemma MovesKeepRows(s: State, a: Step)
    requires Inv(s) && (a.BeginUser? || a.BeginJob? || a.BeginData? || a.Die?)
    ensures Inv(Next(s, a))
  {
    match a
    case BeginUser(k) => if k in s.processes {}
    case BeginJob(k) => if k in s.processes {}
    case BeginData(k) => if k in s.processes {}
    case Die(k) => if k in s.processes {}
  }

  // ---------------------------------------------------------------- undisturbed operations

  predicate Deletable(s: State) {
    s.status.Available? && s.attached
  }

  lemma Moved(s: State, k: nat, pc: Pc)
    ensures var t := Move(s, k, pc);
      && k in t.processes && At(t, k) == pc && Unmoved(s, t)
  {
  }

  /** All but the processes is as before. */
  predicate Unmoved(s: State, t: State) {
    t == s.(processes := t.processes)
  }

  lemma UnmovedReads(s: State, t: State)
    requires Unmoved(s, t)
    ensures t.status == s.status && t.attached == s.attached && t.erased == s.erased && t.callOver == s.callOver
    ensures forall pc :: AfterRead(t, pc, false) == AfterRead(s, pc, false)
  {
  }

  lemma UnmovedOn(s: State, t: State, u: State)
    requires Unmoved(s, t) && Unmoved(t, u)
    ensures Unmoved(s, u)
  {
  }

  /** The steps of one process, which nothing disturbs, from each of its awaits. */
  lemma ProcessBegins(s: State, k: nat)
    requires k !in s.processes
    ensures Next(s, BeginUser(k)) == Move(s, k, UserRead)
    ensures Next(s, BeginJob(k)) == Move(s, k, JobRead)
    ensures Next(s, BeginData(k)) == Move(s, k, DataRead)
  {
    hide Changed, TakeRead, TakeRequest, TakeProvider, TakeWrite, Move;
  }

  lemma ProcessReads(s: State, k: nat)
    requires k in s.processes
    ensures Next(s, Read(k, false)) == Move(s, k, AfterRead(s, At(s, k), false))
  {
    hide Changed, TakeRequest, TakeProvider, TakeWrite, AfterRead, Move;
  }

  lemma ProcessRequests(s: State, k: nat)
    ensures Next(s, Request(k, false)) ==
      if !At(s, k).UserRequest? then s
      else Move(s, k, if s.status.Available? then UserProvider else Finished(false))
  {
    hide Changed, TakeRead, TakeProvider, TakeWrite, AfterRead, Move;
  }

  lemma ProcessAsks(s: State, k: nat)
    ensures var t, pc := Next(s, AskProvider(k, false)), At(s, k);
      && (pc.UserProvider? ==> t == Move(s.(providerHolds := false), k, UserMark))
      && (pc.JobProvider? ==> t == Move(s.(providerHolds := false), k, JobMark))
      && (pc.DataProvider? ==> t == Move(s.(providerHolds := false), k, DataErase(DeletedNow)))
      && (!pc.UserProvider? && !pc.JobProvider? && !pc.DataProvider? ==> t == s)
  {
    hide Changed, TakeRead, TakeRequest, TakeWrite, AfterRead, Move;
  }

  lemma ProcessWrites(s: State, k: nat)
    ensures var t, pc := Next(s, Write(k, false)), At(s, k);
      && (pc.UserMark? || pc.JobMark? ==> t == Mark(s, k, false))
      && (pc.DataErase? && !s.erased ==> t == Move(Erased(s, pc.disposition), k, Finished(true)))
      && (pc.Finished? ==> t == s)
  {
    hide Changed, TakeRead, TakeRequest, TakeProvider, AfterRead, Erased, Move, Mark;
  }

  function UserDeletes(s: State, k: nat): State {
    var requested := Next(Next(Next(s, BeginUser(k)), Read(k, false)), Request(k, false));
    Next(Next(requested, AskProvider(k, false)), Write(k, false))
  }

  function JobDeletes(s: State, k: nat): State {
    Next(Next(Next(Next(s, BeginJob(k)), Read(k, false)), AskProvider(k, false)), Write(k, false))
  }

  function DataDeletes(s: State, k: nat): State {
    Next(Next(Next(Next(s, BeginData(k)), Read(k, false)), AskProvider(k, false)), Write(k, false))
  }

  lemma AfterTheRead(s: State, k: nat, begin: Step, pc: Pc)
    requires k !in s.processes && Next(s, begin) == Move(s, k, pc)
    ensures var t := Next(Next(s, begin), Read(k, false));
      At(t, k) == AfterRead(s, pc, false) && k in t.processes && Unmoved(s, t)
  {
    Moved(s, k, pc);
    hide Next, AfterRead, Move, At, Unmoved;
    var a := Next(s, begin);
    ProcessReads(a, k);
    UnmovedReads(s, a);
    Moved(a, k, AfterRead(s, pc, false));
    UnmovedOn(s, a, Next(a, Read(k, false)));
  }

  /** The provider delete and the mark of a process that has come so far. */
  lemma DeletesAndMarks(s: State, k: nat)
    requires (At(s, k).UserProvider? || At(s, k).JobProvider?) && !s.status.NoRecording?
    ensures var t := Next(Next(s, AskProvider(k, false)), Write(k, false));
      At(t, k) == Finished(true) && t.status.Deleted? && !t.providerHolds
  {
    ProcessAsks(s, k);
    var t := Next(s, AskProvider(k, false));
    ProcessWrites(t, k);
    hide Next;
  }

  /** The same of an erasure, which asks the provider only about a recording that it has to delete. */
  lemma AsksAndErases(s: State, k: nat)
    requires !s.erased && (At(s, k).DataProvider? || At(s, k).DataErase?)
    ensures var t, asks := Next(Next(s, AskProvider(k, false)), Write(k, false)), At(s, k).DataProvider?;
      && At(t, k) == Finished(true) && t.erased && !t.attached && !t.callKnown
      && (t.status.Deleted? <==> !s.status.NoRecording?)
      && t.dispositions == s.dispositions + {if asks then DeletedNow else At(s, k).disposition}
      && t.providerHolds == (s.providerHolds && !asks)
  {
    ProcessAsks(s, k);
    var t := Next(s, AskProvider(k, false));
    ProcessWrites(t, k);
    hide Next;
  }

  lemma StaysFinished(s: State, k: nat)
    requires At(s, k).Finished?
    ensures Next(Next(s, AskProvider(k, false)), Write(k, false)) == s && Next(s, Request(k, false)) == s
  {
    hide Changed, TakeRead, AfterRead, Move;
  }

  /** A user's deletion succeeds exactly for a recording that is available with its id, which it deletes at
      the provider and then here, or that is deleted already; otherwise it changes nothing. */
  lemma UserDeletionDeletes(s: State, k: nat)
    requires k !in s.processes
    ensures var t := UserDeletes(s, k);
      && (At(t, k) == Finished(true) <==> Deletable(s) || s.status.Deleted?)
      && (Deletable(s) ==> t.status.Deleted? && !t.providerHolds)
      && (!Deletable(s) ==> Unmoved(s, t))
  {
    ProcessBegins(s, k);
    AfterTheRead(s, k, BeginUser(k), UserRead);
    hide Next, Move, At;
    var b := Next(Next(s, BeginUser(k)), Read(k, false));
    if Deletable(s) {
      ProcessRequests(b, k);
      Moved(b, k, UserProvider);
      DeletesAndMarks(Next(b, Request(k, false)), k);
    } else {
      StaysFinished(b, k);
    }
  }

  /** So does a retention job, which also has nothing left to do for a call without a recording. */
  lemma RetentionDeletes(s: State, k: nat)
    requires k !in s.processes
    ensures var t := JobDeletes(s, k);
      && (At(t, k) == Finished(true) <==> Deletable(s) || s.status.Deleted? || s.status.NoRecording?)
      && (Deletable(s) ==> t.status.Deleted? && !t.providerHolds)
      && (!Deletable(s) ==> Unmoved(s, t))
  {
    ProcessBegins(s, k);
    AfterTheRead(s, k, BeginJob(k), JobRead);
    hide Next, Move, At;
    var b := Next(Next(s, BeginJob(k)), Read(k, false));
    if Deletable(s) { DeletesAndMarks(b, k); } else { StaysFinished(b, k); }
  }

  function DispositionOf(s: State): Disposition {
    if s.status.NoRecording? || !s.attached then NotPresent
    else if s.status.Deleted? then AlreadyDeleted
    else DeletedNow
  }

  /** Deleting the data of a call that is over erases both provider ids, marks every recording deleted,
      deletes one with an id at the provider first, and records which of the three cases it was. */
  lemma DataDeletionErases(s: State, k: nat)
    requires k !in s.processes
    ensures var t := DataDeletes(s, k);
      && (At(t, k) == Finished(true) <==> s.callOver && !s.erased)
      && (s.callOver && !s.erased ==> t.erased && !t.attached && !t.callKnown)
      && (s.callOver && !s.erased ==> (t.status.Deleted? <==> !s.status.NoRecording?))
      && (s.callOver && !s.erased ==> t.dispositions == s.dispositions + {DispositionOf(s)})
      && (s.callOver && !s.erased ==> t.providerHolds == (s.providerHolds && !DispositionOf(s).DeletedNow?))
      && (!(s.callOver && !s.erased) ==> Unmoved(s, t))
  {
    ProcessBegins(s, k);
    AfterTheRead(s, k, BeginData(k), DataRead);
    hide Next, Move, At;
    var b := Next(Next(s, BeginData(k)), Read(k, false));
    if !s.callOver || s.erased {
      StaysFinished(b, k);
    } else {
      AsksAndErases(b, k);
    }
  }

  /** A provider that refuses leaves the recording as it was, here and there, and the operation fails. */
  lemma RefusalKeepsTheRecording(s: State, k: nat)
    requires At(s, k).UserProvider? || At(s, k).JobProvider? || At(s, k).DataProvider?
    ensures var t := Next(Next(s, AskProvider(k, true)), Write(k, false));
      At(t, k) == Finished(false) && t == s.(processes := t.processes)
  {
    var t := Next(s, AskProvider(k, true));
    assert t == Move(s, k, Finished(false)) by { hide Changed, TakeRead, TakeRequest, TakeWrite, AfterRead, Move; }
    ProcessWrites(t, k);
    hide Next;
  }

  /** So does every other await that throws. */
  lemma FailureKeepsTheRecording(s: State, k: nat)
    requires k in s.processes && !At(s, k).Finished?
    ensures var pc := At(s, k);
      var t := if pc.UserRead? || pc.JobRead? || pc.DataRead? then Next(s, Read(k, true))
        else if pc.UserRequest? then Next(s, Request(k, true))
        else if pc.UserMark? || pc.JobMark? || pc.DataErase? then Next(s, Write(k, true))
        else Next(s, AskProvider(k, true));
      At(t, k) == Finished(false) && Unmoved(s, t)
  {
    Moved(s, k, Finished(false));
    hide Move, Unmoved;
  }

  /** A process that dies changes nothing but itself, and a number is not given out twice. */
  lemma ProcessesComeAndGo(s: State, k: nat)
    requires k in s.processes
    ensures At(Next(s, Die(k)), k) == Finished(false) && Unmoved(s, Next(s, Die(k)))
    ensures Next(s, BeginUser(k)) == Next(s, BeginJob(k)) == Next(s, BeginData(k)) == s
  {
    Moved(s, k, Finished(false));
    hide Move, Unmoved;
  }

  /** The data of a call are erased once. */
  lemma ErasedOnce(s: State, k: nat)
    requires At(s, k).DataErase? && s.erased
    ensures var t := Next(s, Write(k, false)); At(t, k) == Finished(false) && Unmoved(s, t)
  {
    Moved(s, k, Finished(false));
    hide Move, Unmoved;
  }

  predicate Runs(status: RecordingStatus) {
    status.Starting? || status.InProgress?
  }

  /** Before there is a file: a recording starts once, on an open call whose leg is known, fails only while
      it runs, and is processed when the call ends. */
  lemma RecordingRuns(s: State)
    ensures Changed(s, BeginRecording).status ==
      if s.status.NoRecording? && s.callKnown && !s.callOver then Starting else s.status
    ensures Changed(s, FailRecording).status == if Runs(s.status) then Failed else s.status
  {
    hide AfterReport;
  }

  lemma RecordingEnds(s: State)
    ensures Changed(s, CallEnds).status == if Runs(s.status) then Processing else s.status
    ensures Changed(s, CallEnds).callOver
  {
    hide AfterReport;
  }

  /** Its id is attached while there is a recording at the provider and an open row for it, which then runs. */
  lemma RecordingIsAttached(s: State)
    ensures var t := Changed(s, AttachProviderRecording);
      if s.providerMade && (Runs(s.status) || s.status.Processing? || s.status.Available?)
      then t.attached && t.status == if s.status.Starting? then InProgress else s.status
      else t == s
    ensures s.everAttached ==> Changed(s, AttachProviderRecording).everAttached
  {
    hide AfterReport;
  }

  /** A callback for a call that nobody knows, or without a recording, is ignored. */
  lemma CallbackNeedsTheCall(s: State, report: Report)
    requires !s.callKnown || !s.providerMade || s.status.NoRecording?
    ensures Changed(s, RecordingCallback(report)) == s
  {
    hide AfterReport;
  }

  predicate BecomesDeleted(s: State, t: State) {
    !s.status.Deleted? && t.status.Deleted?
  }

  /** How the three facts that the theorems below tell of the past come about: an id was there when the row
      became deleted, an erasure overlooked one, an id came after the deletion. */
  predicate Remembers(s: State, t: State) {
    && (t.hadId <==> s.hadId || (BecomesDeleted(s, t) && s.everAttached))
    && (t.lateId <==> s.lateId || (s.status.Deleted? && !s.everAttached && t.everAttached))
    && (t.erasedUnseen ==> s.erasedUnseen || (BecomesDeleted(s, t) && !s.erased && t.erased && s.attached))
    && (t.everAttached <==> s.everAttached || t.attached)
  }

  /** The rows of the call tell the same of the past. */
  predicate SamePast(s: State, t: State) {
    && t.status == s.status && t.hadId == s.hadId && t.lateId == s.lateId && t.erasedUnseen == s.erasedUnseen
    && t.everAttached == s.everAttached && t.attached == s.attached
  }

  lemma MoveKeepsThePast(s: State, k: nat, pc: Pc, fails: bool)
    ensures SamePast(s, Move(Asked(s, fails), k, pc))
  {
  }

  lemma OwnPast(s: State)
    ensures SamePast(s, s)
  {
  }

  lemma AskingKeepsThePast(s: State, k: nat, fails: bool)
    ensures SamePast(s, TakeProvider(s, k, fails))
  {
    MoveKeepsThePast(s, k, Finished(false), fails);
    MoveKeepsThePast(s, k, UserMark, fails);
    MoveKeepsThePast(s, k, JobMark, fails);
    MoveKeepsThePast(s, k, DataErase(DeletedNow), fails);
    OwnPast(s);
    hide Move, Asked, SamePast, At;
  }

  lemma MarkHistory(s: State, k: nat, fails: bool)
    requires Rows(s)
    ensures Remembers(s, Mark(s, k, fails))
  {
    if fails || s.status.NoRecording? {}
  }

  lemma EraseHistory(s: State, k: nat, d: Disposition)
    requires Rows(s) && !s.erased
    ensures Remembers(s, Move(Erased(s, d), k, Finished(true)))
  {
    if s.status.NoRecording? || s.status.Deleted? {}
  }

  lemma WriteHistory(s: State, k: nat, fails: bool)
    requires Rows(s)
    ensures Remembers(s, TakeWrite(s, k, fails))
  {
    OwnPast(s);
    SameHistory(s, s);
    MovesKeepThePast(s, k);
    SameHistory(s, Move(s, k, Finished(false)));
    hide Rows, Remembers, SamePast, Move, Mark, Erased;
    match At(s, k)
    case UserMark => MarkHistory(s, k, fails);
    case JobMark => MarkHistory(s, k, fails);
    case DataErase(d) => if !s.erased { EraseHistory(s, k, d); }
    case _ =>
  }

  /** Every step keeps them true to what happened. */
  lemma HistoryIsTrue(s: State, a: Step)
    requires Inv(s)
    ensures Remembers(s, Next(s, a))
  {
    hide Inv, ProcessOk, Changed, TakeProvider, TakeWrite, Remembers, Rows, Move, At, AfterRead;
    assert Rows(s) by { RowsOf(s); }
    match a
    case Write(k, fails) => WriteHistory(s, k, fails);
    case World(c) => WorldHistory(s, c);
    case AskProvider(k, fails) => AskingKeepsThePast(s, k, fails); SameHistory(s, Next(s, a));
    case Read(k, fails) => OwnPast(s); MovesKeepThePast(s, k); SameHistory(s, Next(s, a));
    case Request(k, fails) => OwnPast(s); MovesKeepThePast(s, k); SameHistory(s, Next(s, a));
    case BeginUser(k) => OwnPast(s); MovesKeepThePast(s, k); SameHistory(s, Next(s, a));
    case BeginJob(k) => OwnPast(s); MovesKeepThePast(s, k); SameHistory(s, Next(s, a));
    case BeginData(k) => OwnPast(s); MovesKeepThePast(s, k); SameHistory(s, Next(s, a));
    case Die(k) => OwnPast(s); MovesKeepThePast(s, k); SameHistory(s, Next(s, a));
  }

  lemma RowsOf(s: State)
    requires Inv(s)
    ensures Rows(s)
  {
    hide Rows;
  }

  lemma SameHistory(s: State, t: State)
    requires Rows(s) && SamePast(s, t)
    ensures Remembers(s, t)
  {
  }

  lemma MovesKeepThePast(s: State, k: nat)
    ensures forall pc :: SamePast(s, Move(s, k, pc))
  {
  }

  lemma WorldHistory(s: State, c: Change)
    requires Rows(s)
    ensures Remembers(s, Changed(s, c))
  {
  }

  /** What the provider says of a recording: a finished one is available with its id, an available one
      stays so, and a deleted one stays deleted. */
  lemma CallbackRecords(s: State, report: Report)
    requires s.providerMade && !s.status.NoRecording? && s.callKnown
    ensures var t := Next(s, World(RecordingCallback(report)));
      && t.attached && t.everAttached
      && (t.status.Deleted? <==> s.status.Deleted?)
      && (t.status.Available? <==> !s.status.Deleted? && (report.RecordingCompleted? || s.status.Available?))
      && (t.status.Failed? <==> !s.status.Deleted? && !s.status.Available? && report.RecordingAbsent?)
      && (t.status.Processing? <==> s.status.Processing? && report.RecordingRuns?)
  {
  }

  /** The ordinary life of a recording: it runs, is attached, ends with the call and becomes available. */
  lemma RecordingBecomesAvailable() returns (s: State)
    ensures Reachable(Next, INIT, s)
    ensures Deletable(s) && s.providerHolds && s.callOver && s.processes == map[]
  {
    hide TakeRead, TakeRequest, TakeProvider, TakeWrite, Move;
    s := INIT;
    InitReachable(Next, INIT);
    s := Extend(Next, INIT, s, World(StatusCallback));
    s := Extend(Next, INIT, s, World(BeginRecording));
    s := Extend(Next, INIT, s, World(ProviderCreates));
    s := Extend(Next, INIT, s, World(AttachProviderRecording));
    assert s.status.InProgress?;
    s := Extend(Next, INIT, s, World(CallEnds));
    assert s.status.Processing?;
    s := Extend(Next, INIT, s, World(RecordingCallback(RecordingCompleted)));
  }

  // ---------------------------------------------------------------- theorems over every run

  /** A recording whose provider id was attached beforehand is marked deleted or erased while the
      provider keeps it if and only if an erasure that had read no id met a row that carried one.
      Counting ids that arrive afterwards too, the one other case is an id first attached to a row
      that was erased already. `already_deleted` and `deleted` are always truthful. */
  lemma DeletedOnlyAfterProvider(steps: seq<Step>)
    ensures var s := Run(Next, INIT, steps);
            && (s.status.Deleted? && s.hadId && s.providerHolds <==> s.erasedUnseen && s.providerHolds)
            && (s.status.Deleted? && s.everAttached && s.providerHolds <==>
              (s.erasedUnseen || s.lateId) && s.providerHolds)
            && (s.erasedUnseen || s.lateId ==> s.erased)
            && (s.erasedUnseen ==> NotPresent in s.dispositions)
            && (AlreadyDeleted in s.dispositions || DeletedNow in s.dispositions ==> ProviderDeleted(s))
            && (s.status.Deleted? && !s.erased ==> ProviderDeleted(s))
  {
    forall t, a | Inv(t) ensures Inv(Next(t, a)) { StepKeepsInv(t, a); }
    RunKeeps(Next, Inv, INIT, steps);
  }

  lemma OverBeforeTheIdArrived() returns (s: State)
    ensures Reachable(Next, INIT, s)
    ensures s == INIT.(status := Processing, callOver := true, callKnown := true, providerMade := true,
      providerHolds := true)
  {
    s := INIT;
    InitReachable(Next, INIT);
    s := Extend(Next, INIT, s, World(StatusCallback));
    s := Extend(Next, INIT, s, World(BeginRecording));
    s := Extend(Next, INIT, s, World(ProviderCreates));
    s := Extend(Next, INIT, s, World(CallEnds));
  }

  /** The exception occurs: the recording is erased while the provider still keeps it. */
  lemma ErasedWhileProviderHolds() returns (s: State)
    ensures Reachable(Next, INIT, s)
    ensures s.status.Deleted? && s.hadId && s.providerHolds && s.erasedUnseen
  {
    s := OverBeforeTheIdArrived();
    s := Extend(Next, INIT, s, BeginData(0));
    s := Extend(Next, INIT, s, Read(0, false));
    s := Extend(Next, INIT, s, World(AttachProviderRecording));
    s := Extend(Next, INIT, s, Write(0, false));
  }

  lemma ErasedWithoutId() returns (s: State)
    ensures Reachable(Next, INIT, s)
    ensures s.status.Deleted? && s.erased && s.providerMade && s.providerHolds && !s.everAttached && !s.hadId &&
      !s.erasedUnseen
  {
    s := OverBeforeTheIdArrived();
    s := Extend(Next, INIT, s, BeginData(0));
    s := Extend(Next, INIT, s, Read(0, false));
    s := Extend(Next, INIT, s, Write(0, false));
  }

  /** The other case occurs as well: a provider status that arrives after the erasure writes the call id
      back, and the next recording callback attaches its id to the erased row. */
  lemma IdArrivesAfterErasure() returns (s: State)
    ensures Reachable(Next, INIT, s)
    ensures s.status.Deleted? && s.erased && s.attached && s.providerHolds && !s.hadId && !s.erasedUnseen && s.lateId
  {
    s := ErasedWithoutId();
    s := Extend(Next, INIT, s, World(StatusCallback));
    s := Extend(Next, INIT, s, World(RecordingCallback(RecordingCompleted)));
  }
}
