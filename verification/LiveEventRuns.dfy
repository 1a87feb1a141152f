/**
 * Several instances that fan out call events. A change is published on one instance; its signal
 * may reach the others later, in any order, or get lost. The log records every delivery.
 */
module LiveEventRuns {
  import opened LiveEvents
  import opened Traces

  datatype Node = Node(mode: Mode, registry: Registry)

  datatype Change = Change(source: string, call: CallId, event: EventType)

  /** A subscriber of an instance was told about the change with this number. */
  datatype Entry = Entry(change: nat, instance: string, subscriber: Subscriber)

  /** Signals on their way to an instance, and those whose snapshot is being read there. */
  datatype System = System(nodes: map<string, Node>, changes: seq<Change>,
                           channel: set<(string, nat)>, reading: set<(string, nat)>, log: seq<Entry>)

  datatype Step =
    | JoinOn(instance: string, call: CallId, subscriber: Subscriber)
    | LeaveOn(instance: string, handle: Handle)
    | PublishOn(instance: string, call: CallId, event: EventType)
    | Arrive(instance: string, change: nat)
    | SnapshotRead(instance: string, change: nat, found: bool)
    | Lose(instance: string, change: nat)

  function Entries(n: nat, instance: string, listeners: seq<Subscriber>): (r: seq<Entry>) {
    seq(|listeners|, k requires 0 <= k < |listeners| => Entry(n, instance, listeners[k]))
  }

  predicate Listening(mode: Mode) {
    mode == SubscribeOnly || mode == Both
  }

  function Heard(s: System, instance: string, call: CallId): seq<Subscriber> {
    if instance in s.nodes then Listeners(s.nodes[instance].registry, call) else []
  }

  function WithRegistry(s: System, instance: string, r: Registry): System
    requires instance in s.nodes
  {
    s.(nodes := s.nodes[instance := s.nodes[instance].(registry := r)])
  }

  function Published(s: System, instance: string, call: CallId, event: EventType): System
    requires instance in s.nodes
  {
    var n := |s.changes|;
    var sent := if Signals(s.nodes[instance].mode, event)
                then set i | i in s.nodes && Listening(s.nodes[i].mode) :: (i, n) else {};
    s.(changes := s.changes + [Change(instance, call, event)],
       channel := s.channel + sent,
       log := s.log + Entries(n, instance, Heard(s, instance, call)))
  }

  function Arrived(s: System, instance: string, n: nat): System
    requires instance in s.nodes && n < |s.changes|
  {
    var follow := s.changes[n].source != instance && s.changes[n].call in s.nodes[instance].registry.live;
    s.(channel := s.channel - {(instance, n)},
       reading := if follow then s.reading + {(instance, n)} else s.reading)
  }

  function Relayed(s: System, instance: string, n: nat, found: bool): System
    requires n < |s.changes|
  {
    s.(reading := s.reading - {(instance, n)},
       log := if found then s.log + Entries(n, instance, Heard(s, instance, s.changes[n].call)) else s.log)
  }

  function Next(s: System, e: Step): System {
    match e
    case JoinOn(i, call, x) =>
      if i !in s.nodes then s else WithRegistry(s, i, Subscribed(s.nodes[i].registry, call, x).0)
    case LeaveOn(i, h) =>
      if i !in s.nodes then s else WithRegistry(s, i, Unsubscribed(s.nodes[i].registry, h))
    case PublishOn(i, call, event) =>
      if i !in s.nodes then s else Published(s, i, call, event)
    case Arrive(i, n) =>
      if (i, n) !in s.channel || i !in s.nodes || n >= |s.changes| then s else Arrived(s, i, n)
    case SnapshotRead(i, n, found) =>
      if (i, n) !in s.reading || n >= |s.changes| then s else Relayed(s, i, n, found)
    case Lose(i, n) => s.(channel := s.channel - {(i, n)})
  }

  function Init(modes: map<string, Mode>): System {
    System(map i | i in modes :: Node(modes[i], EMPTY), [], {}, {}, [])
  }

  predicate NoRepeats(log: seq<Entry>) {
    forall i, j :: 0 <= i < j < |log| ==> log[i] != log[j]
  }

  /** The change was not yet relayed to this other instance. */
  ghost predicate Fresh(s: System, instance: string, n: nat) {
    forall e :: e in s.log && e.change == n ==> e.instance != instance
  }

  ghost predicate Inv(s: System) {
    && (forall i :: i in s.nodes ==> forall id ::
      id in s.nodes[i].registry.sets ==> Distinct(s.nodes[i].registry.sets[id]))
    && (forall e :: e in s.log ==> e.change < |s.changes|)
    && NoRepeats(s.log)
    && (forall p :: p in s.channel + s.reading ==> p.1 < |s.changes|)
    && (forall p :: p in s.channel ==> p !in s.reading && s.changes[p.1].event != TranscriptDelta)
    && (forall p :: p in s.reading ==> p.0 != s.changes[p.1].source)
    && (forall p :: p in s.channel + s.reading && p.0 != s.changes[p.1].source ==> Fresh(s, p.0, p.1))
  }

  lemma HeardDistinct(s: System, instance: string, call: CallId)
    requires Inv(s)
    ensures Distinct(Heard(s, instance, call))
  {
  }

  lemma EntriesOf(n: nat, instance: string, listeners: seq<Subscriber>)
    ensures forall e :: e in Entries(n, instance, listeners) <==>
      e.change == n && e.instance == instance && e.subscriber in listeners
  {
    forall e: Entry | e.change == n && e.instance == instance && e.subscriber in listeners
      ensures e in Entries(n, instance, listeners)
    {
      var k :| 0 <= k < |listeners| && listeners[k] == e.subscriber;
      assert Entries(n, instance, listeners)[k] == e;
    }
  }

  lemma NewEntries(log: seq<Entry>, n: nat, instance: string, listeners: seq<Subscriber>)
    requires NoRepeats(log) && Distinct(listeners)
    requires forall e :: e in log && e.change == n ==> e.instance != instance
    ensures NoRepeats(log + Entries(n, instance, listeners))
    ensures forall e :: e in log + Entries(n, instance, listeners) <==>
      e in log || (e.change == n && e.instance == instance && e.subscriber in listeners)
  {
    var added := Entries(n, instance, listeners);
    EntriesOf(n, instance, listeners);
    forall j | 0 <= j < |added| ensures added[j] !in log {
      assert added[j].change == n && added[j].instance == instance;
    }
  }

  lemma RegistryStep(s: System, i: string, r: Registry)
    requires Inv(s) && i in s.nodes && forall id :: id in r.sets ==> Distinct(r.sets[id])
    ensures Inv(WithRegistry(s, i, r))
  {
  }

  lemma PublishStep(s: System, i: string, call: CallId, event: EventType)
    requires Inv(s) && i in s.nodes
    ensures Inv(Published(s, i, call, event))
  {
    HeardDistinct(s, i, call);
    NewEntries(s.log, |s.changes|, i, Heard(s, i, call));
    hide Heard;
    hide Entries;
    hide NoRepeats;
  }

  lemma ArriveStep(s: System, i: string, n: nat)
    requires Inv(s) && (i, n) in s.channel && i in s.nodes
    ensures Inv(Arrived(s, i, n))
  {
  }

  lemma RelayStep(s: System, i: string, n: nat, found: bool)
    requires Inv(s) && (i, n) in s.reading
    ensures Inv(Relayed(s, i, n, found))
  {
    HeardDistinct(s, i, s.changes[n].call);
    NewEntries(s.log, n, i, Heard(s, i, s.changes[n].call));
    hide Heard;
    hide Entries;
    hide NoRepeats;
  }

  lemma StepKeepsInv(s: System, e: Step)
    requires Inv(s)
    ensures Inv(Next(s, e))
  {
    match e
    case JoinOn(i, call, x) =>
      if i in s.nodes { RegistryStep(s, i, Subscribed(s.nodes[i].registry, call, x).0); }
    case LeaveOn(i, h) =>
      if i in s.nodes { RegistryStep(s, i, Unsubscribed(s.nodes[i].registry, h)); }
    case PublishOn(i, call, event) =>
      if i in s.nodes { PublishStep(s, i, call, event); }
    case Arrive(i, n) =>
      if (i, n) in s.channel && i in s.nodes { ArriveStep(s, i, n); }
    case SnapshotRead(i, n, found) =>
      if (i, n) in s.reading { RelayStep(s, i, n, found); }
    case Lose(i, n) =>
  }

  lemma RunKeepsInv(s: System, steps: seq<Step>)
    requires Inv(s)
    ensures Inv(Run(Next, s, steps))
  {
    forall t, e | Inv(t) ensures Inv(Next(t, e)) { StepKeepsInv(t, e); }
    RunKeeps(Next, Inv, s, steps);
  }

  /** In any run over any instances, no subscriber is told about the same change twice. */
  lemma ToldOnce(modes: map<string, Mode>, steps: seq<Step>)
    ensures NoRepeats(Run(Next, Init(modes), steps).log)
  {
    RunKeepsInv(Init(modes), steps);
  }

  // ---------------------------------------------------------------- no echo, no feedback

  /** Who on the publishing instance was told about a change never changes afterwards. */
  lemma {:induction false} NoEcho(s: System, steps: seq<Step>, n: nat, x: Subscriber)
    requires Inv(s) && n < |s.changes|
    ensures var e := Entry(n, s.changes[n].source, x);
      e in Run(Next, s, steps).log <==> e in s.log
    decreases |steps|
  {
    if steps != [] {
      var s' := Next(s, steps[0]);
      var e := Entry(n, s.changes[n].source, x);
      StepKeepsInv(s, steps[0]);
      NoEcho(s', steps[1..], n, x);
      assert s'.changes[n] == s.changes[n];
      assert e in s'.log <==> e in s.log by {
        match steps[0]
        case PublishOn(i, call, event) =>
          if i in s.nodes { EntriesOf(|s.changes|, i, Heard(s, i, call)); }
        case SnapshotRead(i, m, found) =>
          if (i, m) in s.reading && m < |s.changes| { EntriesOf(m, i, Heard(s, i, s.changes[m].call)); }
        case _ =>
      }
    }
  }

  /**
   * Publishing on an instance tells exactly the subscribers that listen there at that moment: in
   * whatever way the run goes on, they have been told once, and no others there ever will be.
   */
  lemma LocalDelivery(modes: map<string, Mode>, before: seq<Step>, i: string, call: CallId, event: EventType,
      after: seq<Step>, x: Subscriber)
    requires i in Run(Next, Init(modes), before).nodes
    ensures var s := Run(Next, Init(modes), before);
      Entry(|s.changes|, i, x) in Run(Next, Next(s, PublishOn(i, call, event)), after).log <==> x in Heard(s, i, call)
  {
    var s := Run(Next, Init(modes), before);
    RunKeepsInv(Init(modes), before);
    StepKeepsInv(s, PublishOn(i, call, event));
    NoEcho(Next(s, PublishOn(i, call, event)), after, |s.changes|, x);
    EntriesOf(|s.changes|, i, Heard(s, i, call));
    assert forall e :: e in s.log ==> e.change < |s.changes|;
  }

  /** How often a run publishes on one of the instances. */
  function Publications(modes: map<string, Mode>, steps: seq<Step>): nat {
    if steps == [] then 0
    else (if steps[0].PublishOn? && steps[0].instance in modes then 1 else 0) + Publications(modes, steps[1..])
  }

  /** The instances and their modes are fixed, and a signal on its way is one that its change called for. */
  ghost predicate Solicited(modes: map<string, Mode>, s: System) {
    && s.nodes.Keys == modes.Keys
    && (forall i :: i in s.nodes ==> s.nodes[i].mode == modes[i])
    && (forall p :: p in s.channel + s.reading ==> p.1 < |s.changes| && CallsFor(modes, s.changes[p.1], p.0))
  }

  /** The change is one to signal, from a publishing instance to a listening one. */
  predicate CallsFor(modes: map<string, Mode>, c: Change, target: string) {
    c.source in modes && Signals(modes[c.source], c.event) && target in modes && Listening(modes[target])
  }

  lemma StepSolicited(modes: map<string, Mode>, s: System, e: Step)
    requires Solicited(modes, s)
    ensures Solicited(modes, Next(s, e))
    ensures |Next(s, e).changes| == |s.changes| + (if e.PublishOn? && e.instance in modes then 1 else 0)
  {
    hide Subscribed, Unsubscribed, Entries, Heard, Listening, Signals;
    match e
    case JoinOn(i, call, x) =>
    case LeaveOn(i, h) =>
    case PublishOn(i, call, event) =>
      if i in s.nodes {
        var s' := Next(s, e);
        forall p | p in s'.channel + s'.reading ensures p.1 < |s'.changes| && CallsFor(modes, s'.changes[p.1], p.0) {
          if p in s.channel + s.reading {
            assert s'.changes[p.1] == s.changes[p.1];
          } else {
            assert p.1 == |s.changes|;
          }
        }
      }
    case Arrive(i, n) =>
    case SnapshotRead(i, n, found) =>
    case Lose(i, n) =>
  }

  lemma {:induction false} RunSolicited(modes: map<string, Mode>, s: System, steps: seq<Step>)
    requires Solicited(modes, s)
    ensures Solicited(modes, Run(Next, s, steps))
    ensures |Run(Next, s, steps).changes| == |s.changes| + Publications(modes, steps)
    decreases |steps|
  {
    hide Solicited, Next;
    if steps != [] {
      StepSolicited(modes, s, steps[0]);
      RunSolicited(modes, Next(s, steps[0]), steps[1..]);
    }
  }

  /**
   * Receiving a signal never produces another: in every run there are exactly as many changes as were
   * published, and each signal under way belongs to one of them, for an event and between instances
   * whose modes call for it.
   */
  lemma ReceivingSendsNothing(modes: map<string, Mode>, steps: seq<Step>)
    ensures var s := Run(Next, Init(modes), steps);
      && |s.changes| == Publications(modes, steps)
      && (forall p :: p in s.channel + s.reading ==> p.1 < |s.changes| && CallsFor(modes, s.changes[p.1], p.0))
  {
    RunSolicited(modes, Init(modes), steps);
  }

  /** Joining makes a subscriber listen to its call on its instance, and using the open handle ends that;
      nothing else about who listens where changes. */
  lemma ListenersComeAndGo(s: System, i: string, call: CallId, x: Subscriber, h: Handle, j: string, c: CallId,
      y: Subscriber)
    requires i in s.nodes && Sets(s.nodes[i].registry)
    ensures y in Heard(Next(s, JoinOn(i, call, x)), j, c) <==> y in Heard(s, j, c) || (j == i && c == call && y == x)
    ensures Opened(s.nodes[i].registry, h) ==>
      (y in Heard(Next(s, LeaveOn(i, h)), j, c) <==>
        y in Heard(s, j, c) && !(j == i && c == h.call && y == h.subscriber))
  {
    JoinedListeners(s.nodes[i].registry, call, x, c, y);
    if Opened(s.nodes[i].registry, h) { LeftListeners(s.nodes[i].registry, h, c, y); }
    hide Sets, Opened, Subscribed, Unsubscribed, Listeners;
  }

  // ---------------------------------------------------------------- an undisturbed signal

  predicate Sends(mode: Mode) {
    mode.PublishOnly? || mode.Both?
  }

  predicate Receives(mode: Mode) {
    mode.SubscribeOnly? || mode.Both?
  }

  lemma SignalSent(s: System, i: string, j: string, call: CallId, event: EventType)
    requires Inv(s) && i in s.nodes && j in s.nodes && i != j
    ensures var t, n := Next(s, PublishOn(i, call, event)), |s.changes|;
      && |t.changes| == n + 1 && t.changes[n] == Change(i, call, event)
      && t.nodes == s.nodes && (j, n) !in t.reading
      && ((j, n) in t.channel <==> Sends(s.nodes[i].mode) && Receives(s.nodes[j].mode) && event != TranscriptDelta)
      && (forall e :: e in t.log && e.change == n ==> e.instance == i)
  {
    EntriesOf(|s.changes|, i, Heard(s, i, call));
    assert forall e :: e in s.log ==> e.change < |s.changes|;
    assert forall p :: p in s.channel + s.reading ==> p.1 < |s.changes|;
    hide Entries, Heard;
  }

  lemma SignalArrives(s: System, j: string, n: nat)
    requires j in s.nodes && n < |s.changes| && s.changes[n].source != j && (j, n) !in s.reading
    ensures var t := Next(s, Arrive(j, n));
      && t.log == s.log && t.changes == s.changes && t.nodes == s.nodes
      && ((j, n) in t.reading <==> (j, n) in s.channel && s.changes[n].call in s.nodes[j].registry.live)
  {
  }

  lemma SignalRead(s: System, j: string, n: nat, found: bool, x: Subscriber)
    requires j in s.nodes && n < |s.changes|
    requires forall e :: e in s.log && e.change == n ==> e.instance != j
    ensures Entry(n, j, x) in Next(s, SnapshotRead(j, n, found)).log <==>
      (j, n) in s.reading && found && x in Heard(s, j, s.changes[n].call)
  {
    EntriesOf(n, j, Heard(s, j, s.changes[n].call));
    hide Entries, Heard;
  }

  lemma NobodyHeard(s: System, j: string, call: CallId, x: Subscriber)
    requires j in s.nodes && x in Heard(s, j, call)
    ensures call in s.nodes[j].registry.live
  {
  }

  lemma HeardStays(s: System, t: System, j: string, call: CallId)
    requires s.nodes == t.nodes
    ensures Heard(s, j, call) == Heard(t, j, call)
  {
  }

  /**
   * A signal that is not lost reaches the listeners of another instance: exactly those of the moment, if
   * the modes of the two instances and the event call for a signal, and the call is still there.
   */
  lemma RemoteDelivery(modes: map<string, Mode>, before: seq<Step>, i: string, j: string, call: CallId,
      event: EventType, found: bool, x: Subscriber)
    requires i in modes && j in modes && i != j
    ensures var s := Run(Next, Init(modes), before); var n := |s.changes|;
      var t := Next(Next(Next(s, PublishOn(i, call, event)), Arrive(j, n)), SnapshotRead(j, n, found));
      Entry(n, j, x) in t.log <==>
        found && Sends(modes[i]) && Receives(modes[j]) && event != TranscriptDelta && x in Heard(s, j, call)
  {
    var s := Run(Next, Init(modes), before);
    var n := |s.changes|;
    RunKeepsInv(Init(modes), before);
    RunSolicited(modes, Init(modes), before);
    SignalSent(s, i, j, call, event);
    var published := Next(s, PublishOn(i, call, event));
    SignalArrives(published, j, n);
    SignalRead(Next(published, Arrive(j, n)), j, n, found, x);
    HeardStays(s, Next(published, Arrive(j, n)), j, call);
    if x in Heard(s, j, call) { NobodyHeard(s, j, call, x); }
    hide Next, Heard, Inv, Solicited, Sends, Receives;
  }

  /** A signal that is lost, or that has been followed up, tells nobody any more. */
  lemma SignalsAreUsedUp(s: System, i: string, n: nat, found: bool)
    ensures var t := Next(Next(Next(s, Lose(i, n)), Arrive(i, n)), SnapshotRead(i, n, found));
      (i, n) !in s.reading ==> t.log == s.log
    ensures var t := Next(Next(s, Arrive(i, n)), SnapshotRead(i, n, found));
      n < |s.changes| && i in s.nodes ==> (i, n) !in t.channel && (i, n) !in t.reading
  {
    hide Entries;
  }
}
