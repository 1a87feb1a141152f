/**
 * The administrator's switch for outbound calls: what it shows, and the requests it has under way.
 * Requests are numbered; an answer counts only while its request is the newest one.
 */
module OutboundControl {
  import opened Options
  import opened Traces

  datatype Control = Control(enabled: bool, reason: string)

  datatype Message = ControlLoadError | ControlError

  /** A response, or none: the request failed or its response was lost. */
  datatype Answer = Answered(control: Control) | Lost

  datatype View = View(version: nat, control: Option<Control>, loading: bool, applying: bool, error: Option<Message>)

  const INITIAL_VIEW := View(0, None, true, false, None)

  // ---------------------------------------------------------------- what each handler does to the view

  function Refreshed(v: View): View {
    v.(version := v.version + 1, loading := true, error := None)
  }

  /** An answer is shown if it is for the newest request, and then it ends the waiting. */
  function Loaded(v: View, version: nat, answer: Answer): View {
    if version != v.version then v
    else match answer
      case Answered(c) => v.(control := Some(c), loading := false)
      case Lost => v.(control := None, error := Some(ControlLoadError), loading := false)
  }

  function Changed(v: View, version: nat, answer: Answer): View {
    if version != v.version then v
    else match answer
      case Answered(c) => v.(control := Some(c), applying := false)
      case Lost => v.(control := None, error := Some(ControlError), applying := false)
  }

  /** Only a switch known to be off offers to be turned on. */
  predicate OffersEnable(v: View) {
    v.control.Some? && !v.control.value.enabled
  }

  predicate Accepts(v: View, superadmin: bool, reason: string, confirmed: bool) {
    !v.loading && !v.applying && (OffersEnable(v) ==> superadmin) && |reason| >= 3 && confirmed
  }

  function Submitted(v: View): View {
    v.(version := v.version + 1, applying := true, error := None)
  }

  function Invalidated(v: View): View {
    v.(version := v.version + 1)
  }

  /** The component: its state and its handlers, cut at their awaits. */
  class Component {
    var requestVersion: nat
    var control: Option<Control>
    var loading: bool
    var applying: bool
    var error: Option<Message>

    ghost function Shown(): View
      reads this
    {
      View(requestVersion, control, loading, applying, error)
    }

    constructor ()
      ensures Shown() == INITIAL_VIEW
    {
      requestVersion, control, loading, applying, error := 0, None, true, false, None;
    }

    method Refresh() returns (version: nat)
      modifies this
      ensures Shown() == Refreshed(old(Shown()))
      ensures version == requestVersion
    {
      requestVersion := requestVersion + 1;
      version := requestVersion;
      loading := true;
      error := None;
    }

    method RefreshSettled(version: nat, answer: Answer)
      modifies this
      ensures Shown() == Loaded(old(Shown()), version, answer)
    {
      match answer {
        case Answered(result) =>
          if version == requestVersion { control := Some(result); }
        case Lost =>
          if version == requestVersion {
            control := None;
            error := Some(ControlLoadError);
          }
      }
      if version == requestVersion { loading := false; }
    }

    /** The request sent, if any: its number and the state asked for. */
    method ChangeControl(superadmin: bool, reason: string, confirmed: bool) returns (request: Option<(nat, bool)>)
      modifies this
      ensures request.Some? <==> Accepts(old(Shown()), superadmin, reason, confirmed)
      ensures request.Some? ==> request.value == (requestVersion, OffersEnable(old(Shown())))
      ensures Shown() == if request.Some? then Submitted(old(Shown())) else old(Shown())
    {
      var enabled := control.Some? && control.value.enabled == false;
      if loading || applying || (enabled && !superadmin) { return None; }
      if |reason| < 3 { return None; }
      if !confirmed { return None; }
      requestVersion := requestVersion + 1;
      applying := true;
      error := None;
      return Some((requestVersion, enabled));
    }

    method ChangeSettled(version: nat, answer: Answer)
      modifies this
      ensures Shown() == Changed(old(Shown()), version, answer)
    {
      match answer {
        case Answered(result) =>
          if version == requestVersion { control := Some(result); }
        case Lost =>
          if version == requestVersion {
            control := None;
            error := Some(ControlError);
          }
      }
      if version == requestVersion { applying := false; }
    }

    method InvalidatePendingRequests()
      modifies this
      ensures Shown() == Invalidated(old(Shown()))
    {
      requestVersion := requestVersion + 1;
    }
  }

  // ---------------------------------------------------------------- runs

  datatype Request = Load | Change(enabled: bool)

  /** The view, the requests without an answer by their number, and the answers that came. */
  datatype Session = Session(view: View, mounted: bool, pending: map<nat, Request>, answers: map<nat, Answer>)

  const INIT := Session(INITIAL_VIEW, false, map[], map[])

  datatype Event =
    | Mount
    | RefreshClick
    | Submit(superadmin: bool, reason: string, confirmed: bool)
    | Response(version: nat, answer: Answer)
    | Unmount

  function Answering(v: View, request: Request, version: nat, answer: Answer): View {
    if request.Load? then Loaded(v, version, answer) else Changed(v, version, answer)
  }

  /** The refresh button is disabled while anything is under way; effects are not run again after a change was sent. */
  function Next(s: Session, e: Event): Session {
    match e
    case Mount =>
      if s.mounted || s.view.applying then s
      else
        var v := Refreshed(s.view);
        s.(view := v, mounted := true, pending := s.pending[v.version := Load])
    case RefreshClick =>
      if !s.mounted || s.view.loading || s.view.applying then s else Refreshing(s)
    case Submit(superadmin, reason, confirmed) =>
      if !s.mounted || !Accepts(s.view, superadmin, reason, confirmed) then s
      else
        var v := Submitted(s.view);
        s.(view := v, pending := s.pending[v.version := Change(OffersEnable(s.view))])
    case Response(version, answer) =>
      if version !in s.pending then s
      else
        s.(view := Answering(s.view, s.pending[version], version, answer),
           pending := s.pending - {version}, answers := s.answers[version := answer])
    case Unmount =>
      if !s.mounted then s else s.(view := Invalidated(s.view), mounted := false)
  }

  function Refreshing(s: Session): Session {
    var v := Refreshed(s.view);
    s.(view := v, pending := s.pending[v.version := Load])
  }

  /** What is on display when nothing is under way: what the newest request was answered. */
  predicate ShowsNewest(s: Session) {
    && s.view.version in s.answers
    && match s.answers[s.view.version]
       case Answered(c) => s.view.control == Some(c) && s.view.error == None
       case Lost => s.view.control == None && s.view.error.Some?
  }

  /** A flag that is up has its own request under way, which is the newest; with no flag, none is. */
  predicate FlagsHaveRequests(s: Session) {
    var version := s.view.version;
    && (s.view.loading ==> version in s.pending && s.pending[version] == Load)
    && (s.view.applying ==> version in s.pending && s.pending[version].Change?)
    && (version in s.pending ==> s.view.loading || s.view.applying)
    && (s.view.loading || s.view.applying ==> s.view.error == None)
  }

  predicate Inv(s: Session) {
    && (forall n :: n in s.pending ==> n <= s.view.version && n !in s.answers)
    && (forall n :: n in s.answers ==> n <= s.view.version)
    && (s.mounted ==> FlagsHaveRequests(s))
    && (s.mounted && !s.view.loading && !s.view.applying ==> ShowsNewest(s))
    && (!s.mounted ==> s.view.version !in s.pending)
  }

  lemma StepKeepsInv(s: Session, e: Event)
    requires Inv(s)
    ensures Inv(Next(s, e))
  {
    match e
    case Response(version, answer) =>
      if version in s.pending && version == s.view.version && s.mounted {
        var s' := Next(s, e);
        assert s'.view.version in s'.answers;
      }
    case _ =>
  }

  lemma RunKeepsInv(steps: seq<Event>)
    ensures Inv(Run(Next, INIT, steps))
  {
    forall s, e | Inv(s) ensures Inv(Next(s, e)) { StepKeepsInv(s, e); }
    RunKeeps(Next, Inv, INIT, steps);
  }

  /** While mounted, the flags say exactly which request is under way, and never two at once. */
  lemma FlagsAreTrue(steps: seq<Event>)
    ensures var s := Run(Next, INIT, steps);
      s.mounted ==>
        && (s.view.loading <==> s.view.version in s.pending && s.pending[s.view.version].Load?)
        && (s.view.applying <==> s.view.version in s.pending && s.pending[s.view.version].Change?)
        && !(s.view.loading && s.view.applying)
  {
    RunKeepsInv(steps);
  }

  /**
   * The disabled button is what makes this work: a refresh that starts in any state keeps the
   * flags true exactly when no change is being applied.
   */
  lemma RefreshNeedsTheGuard(s: Session)
    requires Inv(s) && s.mounted
    ensures FlagsHaveRequests(Refreshing(s)) <==> !s.view.applying
  {
  }

  /** Once superseded, always superseded. */
  lemma {:induction false} VersionGrows(s: Session, steps: seq<Event>)
    ensures s.view.version <= Run(Next, s, steps).view.version
    decreases |steps|
  {
    if steps != [] {
      VersionGrows(Next(s, steps[0]), steps[1..]);
    }
  }

  /** A response to a superseded request, whenever it comes, changes nothing that is shown. */
  lemma SupersededIsIgnored(s: Session, steps: seq<Event>, version: nat, answer: Answer)
    requires version < s.view.version
    ensures var t := Run(Next, s, steps); Next(t, Response(version, answer)).view == t.view
  {
    VersionGrows(s, steps);
  }

  /** A run without the responses to superseded requests. */
  function OnlyCurrent(s: Session, steps: seq<Event>): seq<Event>
    decreases |steps|
  {
    if steps == [] then []
    else
      var rest := OnlyCurrent(Next(s, steps[0]), steps[1..]);
      if steps[0].Response? && steps[0].version != s.view.version then rest else [steps[0]] + rest
  }

  /** Sessions that differ only in superseded requests. */
  ghost predicate SameForUser(s: Session, t: Session) {
    && s.view == t.view && s.mounted == t.mounted
    && (s.view.version in s.pending <==> s.view.version in t.pending)
    && (s.view.version in s.pending ==> s.pending[s.view.version] == t.pending[s.view.version])
    && (forall n :: n in s.pending || n in t.pending ==> n <= s.view.version)
  }

  lemma SameStep(s: Session, t: Session, e: Event)
    requires SameForUser(s, t)
    ensures e.Response? && e.version != s.view.version ==> SameForUser(Next(s, e), t)
    ensures !(e.Response? && e.version != s.view.version) ==> SameForUser(Next(s, e), Next(t, e))
  {
  }

  /** However responses are ordered, the display is what it would be had superseded ones never come. */
  lemma {:induction false} SupersededLeaveNoTrace(s: Session, t: Session, steps: seq<Event>)
    requires SameForUser(s, t)
    ensures Run(Next, s, steps).view == Run(Next, t, OnlyCurrent(s, steps)).view
    decreases |steps|
  {
    if steps != [] {
      var e, s' := steps[0], Next(s, steps[0]);
      SameStep(s, t, e);
      var rest := OnlyCurrent(s', steps[1..]);
      if e.Response? && e.version != s.view.version {
        SupersededLeaveNoTrace(s', t, steps[1..]);
      } else {
        SupersededLeaveNoTrace(s', Next(t, e), steps[1..]);
        assert ([e] + rest)[0] == e && ([e] + rest)[1..] == rest;
      }
    }
  }

  /** A request to enable is sent only by a superadmin, when the newest request was answered "disabled". */
  lemma EnableOnlyWhenDisabled(steps: seq<Event>, e: Event)
    ensures var s := Run(Next, INIT, steps);
      var t := Next(s, e);
      t.view.version !in s.pending && t.view.version in t.pending && t.pending[t.view.version] == Change(true) ==>
        && e.Submit? && e.superadmin && e.confirmed
        && s.view.version in s.answers && s.answers[s.view.version].Answered?
        && !s.answers[s.view.version].control.enabled
  {
    RunKeepsInv(steps);
    var s := Run(Next, INIT, steps);
    assert ShowsNewest(s) || !s.mounted || s.view.loading || s.view.applying;
  }

  /** After a failed or lost response to the newest request, only disabling can be sent. */
  lemma AfterLossOnlyDisable(steps: seq<Event>, superadmin: bool, reason: string)
    ensures var s := Run(Next, INIT, steps);
      var t := Next(s, Submit(superadmin, reason, true));
      s.mounted && s.view.version in s.answers && s.answers[s.view.version] == Lost && |reason| >= 3 ==>
        t.view.version in t.pending && t.pending[t.view.version] == Change(false)
  {
    RunKeepsInv(steps);
    var s := Run(Next, INIT, steps);
    if s.mounted && s.view.version in s.answers {
      assert s.view.version !in s.pending;
      assert ShowsNewest(s);
    }
  }

  // ---------------------------------------------------------------- an undisturbed request

  predicate Idle(s: Session) {
    !s.view.loading && !s.view.applying
  }

  /** What the component lets a user do: load when it appears or on a click, and submit a change. */
  predicate Possible(s: Session, e: Event) {
    match e
    case Mount => !s.mounted && !s.view.applying
    case RefreshClick => s.mounted && Idle(s)
    case Submit(superadmin, reason, confirmed) =>
      s.mounted && Idle(s) && |reason| >= 3 && confirmed && (superadmin || !OffersEnable(s.view))
    case _ => false
  }

  /** Each of these sends one request, which the flags show until its answer is on display; a lost answer
      is shown as an error, with the state of the switch unknown. */
  lemma RequestIsAnswered(s: Session, e: Event, answer: Answer)
    requires Inv(s) && Possible(s, e)
    ensures var t := Next(s, e);
      && t.mounted && t.view.version == s.view.version + 1 && t.view.error.None?
      && t.pending == s.pending[t.view.version := if e.Submit? then Change(OffersEnable(s.view)) else Load]
      && (t.view.loading <==> !e.Submit?) && (t.view.applying <==> e.Submit?)
      && t.view.control == s.view.control
    ensures var u := Next(Next(s, e), Response(s.view.version + 1, answer));
      && Idle(u) && u.mounted && u.view.version !in u.pending
      && u.view.control == (if answer.Answered? then Some(answer.control) else None)
      && u.view.error == (if answer.Answered? then None else Some(if e.Submit? then ControlError else ControlLoadError))
  {
    match e
    case Mount =>
    case RefreshClick =>
    case Submit(_, _, _) =>
  }

  /** Nothing else sends a request, or changes anything before an answer or the end of the component. */
  lemma NothingElseIsSent(s: Session, e: Event)
    requires !Possible(s, e)
    ensures e.Mount? || e.RefreshClick? || e.Submit? ==> Next(s, e) == s
    ensures e.Unmount? && !s.mounted ==> Next(s, e) == s
    ensures Next(s, e).pending.Keys <= s.pending.Keys
  {
  }

  /** And leaving makes whatever is under way stale. */
  lemma LeavingSilences(s: Session, version: nat, answer: Answer)
    requires Inv(s) && s.mounted
    ensures var t := Next(s, Unmount);
      && !t.mounted && t.view == s.view.(version := t.view.version)
      && (version in s.pending ==> Next(t, Response(version, answer)).view == t.view)
  {
  }
}
