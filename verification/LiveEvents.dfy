/**
 * Who listens to which call on one instance. A call's subscribers are kept in a set object that the
 * returned unsubscribe handle holds on to, also after the registry has dropped it; set objects are
 * numbered here, so that a handle can refer to one that is no longer registered.
 */
module LiveEvents {
  import opened Options

  type CallId = string
  type Subscriber = nat
  type SetId = nat

  /** What an unsubscribe closure remembers. */
  datatype Handle = Handle(call: CallId, set_: SetId, subscriber: Subscriber)

  /** The registered set of each call, every set object ever made, and the next number. */
  datatype Registry = Registry(live: map<CallId, SetId>, sets: map<SetId, seq<Subscriber>>, next: SetId)

  const EMPTY := Registry(map[], map[], 0)

  predicate Distinct(s: seq<Subscriber>) {
    forall i, j :: 0 <= i < j < |s| ==> s[i] != s[j]
  }

  function Add(s: seq<Subscriber>, x: Subscriber): seq<Subscriber> {
    if x in s then s else s + [x]
  }

  function Remove(s: seq<Subscriber>, x: Subscriber): (r: seq<Subscriber>)
    ensures forall y :: y in r <==> y in s && y != x
    ensures Distinct(s) ==> Distinct(r)
  {
    if s == [] then []
    else
      var rest := Remove(s[1..], x);
      assert forall y :: y in s <==> y == s[0] || y in s[1..];
      assert Distinct(s) ==> s[0] !in s[1..] && Distinct(s[1..]);
      if s[0] == x then rest else [s[0]] + rest
  }

  function Contents(r: Registry, id: SetId): seq<Subscriber> {
    if id in r.sets then r.sets[id] else []
  }

  /** The subscribers that an event of the call reaches, in order. */
  function Listeners(r: Registry, call: CallId): seq<Subscriber> {
    if call in r.live then Contents(r, r.live[call]) else []
  }

  function Subscribed(r: Registry, call: CallId, x: Subscriber): (Registry, Handle) {
    var id := if call in r.live then r.live[call] else r.next;
    var next := if call in r.live then r.next else r.next + 1;
    (Registry(r.live[call := id], r.sets[id := Add(Contents(r, id), x)], next), Handle(call, id, x))
  }

  function Unsubscribed(r: Registry, h: Handle): Registry {
    var members := Remove(Contents(r, h.set_), h.subscriber);
    Registry(if members == [] then r.live - {h.call} else r.live, r.sets[h.set_ := members], r.next)
  }

  // ---------------------------------------------------------------- handles

  /** A registry with the handles not used yet and those used already, numbered as they were given out. */
  datatype Book = Book(registry: Registry, given: nat, open: map<nat, Handle>, used: map<nat, Handle>)

  const NO_HANDLES := Book(EMPTY, 0, map[], map[])

  datatype Use = Join(call: CallId, subscriber: Subscriber) | Leave(number: nat)

  /** A subscriber function joins a call only when it does not listen to it already, and a handle is used once. */
  predicate Proper(b: Book, u: Use) {
    match u
    case Join(call, x) => forall n :: n in b.open ==> b.open[n].call != call || b.open[n].subscriber != x
    case Leave(n) => n in b.open
  }

  function Turn(b: Book, u: Use): Book {
    match u
    case Join(call, x) =>
      var (r, h) := Subscribed(b.registry, call, x);
      b.(registry := r, given := b.given + 1, open := b.open[b.given := h])
    case Leave(n) =>
      if n !in b.open then b
      else b.(registry := Unsubscribed(b.registry, b.open[n]), open := b.open - {n}, used := b.used[n := b.open[n]])
  }

  /** Each handle is used at most once, and no function listens twice to a call. */
  predicate OncePerHandle(b: Book, uses: seq<Use>)
    decreases |uses|
  {
    uses == [] || (Proper(b, uses[0]) && OncePerHandle(Turn(b, uses[0]), uses[1..]))
  }

  function After(b: Book, uses: seq<Use>): Book
    decreases |uses|
  {
    if uses == [] then b else After(Turn(b, uses[0]), uses[1..])
  }

  predicate Subscribes(b: Book, call: CallId, x: Subscriber) {
    exists n :: n in b.open && b.open[n].call == call && b.open[n].subscriber == x
  }

  /** Exactly the live subscribers, each once; and no call without any. */
  ghost predicate Exact(b: Book) {
    && (forall call, x :: x in Listeners(b.registry, call) <==> Subscribes(b, call, x))
    && (forall call :: Distinct(Listeners(b.registry, call)))
    && (forall call :: call in b.registry.live ==> Listeners(b.registry, call) != [])
  }

  ghost predicate Sets(r: Registry) {
    && (forall id :: id in r.sets ==> id < r.next && Distinct(r.sets[id]))
    && (forall call :: call in r.live ==> r.live[call] in r.sets && r.sets[r.live[call]] != [])
    && (forall c, d :: c in r.live && d in r.live && r.live[c] == r.live[d] ==> c == d)
  }

  /** An open handle belongs to the live set of its call, which holds its subscriber. */
  ghost predicate Opened(r: Registry, h: Handle) {
    h.call in r.live && r.live[h.call] == h.set_ && h.set_ in r.sets && h.subscriber in r.sets[h.set_]
  }

  /** The set of a used handle is empty, or still the live set of the call. */
  ghost predicate Closed(r: Registry, h: Handle) {
    h.set_ in r.sets && (r.sets[h.set_] != [] ==> h.call in r.live && r.live[h.call] == h.set_)
  }

  ghost predicate Inv(b: Book) {
    && Sets(b.registry)
    && (forall n :: n in b.open ==> n < b.given && Opened(b.registry, b.open[n]))
    && (forall n :: n in b.used ==> Closed(b.registry, b.used[n]))
    && (forall m, n :: m in b.open && n in b.open && b.open[m] == b.open[n] ==> m == n)
    && (forall call, x :: x in Listeners(b.registry, call) ==> Subscribes(b, call, x))
  }

  lemma JoinedSets(r: Registry, call: CallId, x: Subscriber)
    requires Sets(r)
    ensures var (r', h) := Subscribed(r, call, x); Sets(r') && Opened(r', h)
  {
  }

  lemma JoinedOthers(r: Registry, call: CallId, x: Subscriber, h: Handle)
    requires Sets(r)
    ensures Opened(r, h) ==> Opened(Subscribed(r, call, x).0, h)
    ensures Closed(r, h) ==> Closed(Subscribed(r, call, x).0, h)
  {
  }

  lemma JoinedListeners(r: Registry, call: CallId, x: Subscriber, c: CallId, y: Subscriber)
    requires Sets(r)
    ensures y in Listeners(Subscribed(r, call, x).0, c) <==> y in Listeners(r, c) || (c == call && y == x)
  {
  }

  lemma JoinKeepsInv(b: Book, call: CallId, x: Subscriber)
    requires Inv(b) && Proper(b, Join(call, x))
    ensures Inv(Turn(b, Join(call, x)))
  {
    var r, b' := b.registry, Turn(b, Join(call, x));
    JoinedSets(r, call, x);
    forall h ensures Opened(r, h) ==> Opened(b'.registry, h) { JoinedOthers(r, call, x, h); }
    forall h ensures Closed(r, h) ==> Closed(b'.registry, h) { JoinedOthers(r, call, x, h); }
    forall c, y | y in Listeners(b'.registry, c) ensures Subscribes(b', c, y) {
      JoinedListeners(r, call, x, c, y);
      if y in Listeners(r, c) {
        var n :| n in b.open && b.open[n].call == c && b.open[n].subscriber == y;
        assert b'.open[n] == b.open[n];
      } else {
        assert b'.open[b.given].call == c && b'.open[b.given].subscriber == y;
      }
    }
    hide Sets, Opened, Closed;
  }

  lemma LeftSets(r: Registry, h: Handle)
    requires Sets(r) && Opened(r, h)
    ensures Sets(Unsubscribed(r, h)) && Closed(Unsubscribed(r, h), h)
  {
  }

  lemma LeftOthers(r: Registry, h: Handle, g: Handle)
    requires Sets(r) && Opened(r, h)
    ensures Opened(r, g) && g != h ==> Opened(Unsubscribed(r, h), g)
    ensures Closed(r, g) ==> Closed(Unsubscribed(r, h), g)
  {
  }

  lemma LeftListeners(r: Registry, h: Handle, c: CallId, y: Subscriber)
    requires Sets(r) && Opened(r, h)
    ensures y in Listeners(Unsubscribed(r, h), c) <==> y in Listeners(r, c) && (c != h.call || y != h.subscriber)
  {
  }

  lemma LeaveKeepsInv(b: Book, n: nat)
    requires Inv(b) && n in b.open
    ensures Inv(Turn(b, Leave(n)))
  {
    var r, h, b' := b.registry, b.open[n], Turn(b, Leave(n));
    LeftSets(r, h);
    forall g ensures Opened(r, g) && g != h ==> Opened(b'.registry, g) { LeftOthers(r, h, g); }
    forall g ensures Closed(r, g) ==> Closed(b'.registry, g) { LeftOthers(r, h, g); }
    forall c, y | y in Listeners(b'.registry, c) ensures Subscribes(b', c, y) {
      LeftListeners(r, h, c, y);
      var m :| m in b.open && b.open[m].call == c && b.open[m].subscriber == y;
      assert b'.open[m] == b.open[m];
    }
    hide Sets, Opened, Closed;
  }

  lemma {:induction false} UsesKeepInv(b: Book, uses: seq<Use>)
    requires Inv(b) && OncePerHandle(b, uses)
    ensures Inv(After(b, uses))
    decreases |uses|
  {
    hide Inv;
    if uses != [] {
      match uses[0] {
        case Join(call, x) => JoinKeepsInv(b, call, x);
        case Leave(n) => LeaveKeepsInv(b, n);
      }
      UsesKeepInv(Turn(b, uses[0]), uses[1..]);
    }
  }

  lemma InvIsExact(b: Book)
    requires Inv(b)
    ensures Exact(b)
  {
  }

  /** With every handle used at most once, the registry holds exactly the live subscribers. */
  lemma RegistryIsExact(uses: seq<Use>)
    requires OncePerHandle(NO_HANDLES, uses)
    ensures Exact(After(NO_HANDLES, uses))
  {
    UsesKeepInv(NO_HANDLES, uses);
    InvIsExact(After(NO_HANDLES, uses));
  }

  /**
   * Using a handle again changes somebody's subscription in two cases only: the call has listeners in
   * a newer set, all of whom are then cut off, or the same function has joined the same set again,
   * which then loses it.
   */
  lemma SecondUse(b: Book, n: nat)
    requires Inv(b) && n in b.used
    ensures var r, h := b.registry, b.used[n];
      var newer := h.call in r.live && r.live[h.call] != h.set_;
      var rejoined := h.subscriber in Contents(r, h.set_);
      && (newer || rejoined <==> exists call :: Listeners(Unsubscribed(r, h), call) != Listeners(r, call))
      && (newer ==> Listeners(Unsubscribed(r, h), h.call) == [] && Listeners(r, h.call) != [])
      && (rejoined ==> Subscribes(b, h.call, h.subscriber) && h.subscriber !in Listeners(Unsubscribed(r, h), h.call))
  {
    var r, h := b.registry, b.used[n];
    var r' := Unsubscribed(r, h);
    if h.subscriber in Contents(r, h.set_) {
      assert Listeners(r, h.call) == Contents(r, h.set_);
      assert h.subscriber !in Contents(r', h.set_);
      assert Listeners(r', h.call) != Listeners(r, h.call);
    } else {
      RemoveAbsent(Contents(r, h.set_), h.subscriber);
      assert forall id :: Contents(r', id) == Contents(r, id);
      if h.call in r.live && r.live[h.call] != h.set_ {
        assert Listeners(r', h.call) != Listeners(r, h.call);
      } else {
        forall call ensures Listeners(r', call) == Listeners(r, call) {
        }
      }
    }
  }

  lemma {:induction false} RemoveAbsent(s: seq<Subscriber>, x: Subscriber)
    requires x !in s
    ensures Remove(s, x) == s
    decreases |s|
  {
    if s != [] {
      RemoveAbsent(s[1..], x);
    }
  }

  /** A newer set can exist: a subscriber joins after the last one left. */
  lemma SecondUseCutsOff(call: CallId)
    ensures var uses := [Join(call, 1), Leave(0), Join(call, 2)];
      var b := After(NO_HANDLES, uses);
      && OncePerHandle(NO_HANDLES, uses) && 0 in b.used
      && Listeners(b.registry, call) == [2] && Listeners(Unsubscribed(b.registry, b.used[0]), call) == []
  {
    var b1 := Turn(NO_HANDLES, Join(call, 1));
    var b2 := Turn(b1, Leave(0));
    var b3 := Turn(b2, Join(call, 2));
    var uses := [Join(call, 1), Leave(0), Join(call, 2)];
    assert uses[1..] == [Leave(0), Join(call, 2)] && uses[1..][1..] == [Join(call, 2)] && uses[1..][1..][1..] == [];
    assert After(b2, [Join(call, 2)]) == After(b3, []);
    assert After(b1, uses[1..]) == After(b2, [Join(call, 2)]);
    assert OncePerHandle(b3, []);
    assert OncePerHandle(b2, [Join(call, 2)]);
    assert OncePerHandle(b1, uses[1..]);
    assert Remove([1], 1) == Remove([1][1..], 1) == [];
    assert Remove([], 1) == [];
    assert After(NO_HANDLES, uses) == After(b1, uses[1..]) == b3;
    var nobody: seq<Subscriber> := [];
    assert nobody + [1] == [1] && nobody + [2] == [2];
    assert call !in b2.registry.live;
    assert Contents(b3.registry, 1) == [2];
  }

  // ---------------------------------------------------------------- one instance

  datatype EventType = CallUpdated | TranscriptDelta | OtherEvent

  datatype Mode = Disabled | PublishOnly | SubscribeOnly | Both

  datatype Signal = Signal(source: string, call: CallId)

  predicate Signals(mode: Mode, event: EventType) {
    event != TranscriptDelta && (mode == PublishOnly || mode == Both)
  }

  class Instance {
    const sourceId: string
    const mode: Mode
    var live: map<CallId, SetId>
    var sets: map<SetId, seq<Subscriber>>
    var nextSet: SetId

    function State(): Registry
      reads this
    {
      Registry(live, sets, nextSet)
    }

    constructor (sourceId: string, mode: Mode)
      ensures State() == EMPTY && this.sourceId == sourceId && this.mode == mode
    {
      this.sourceId, this.mode := sourceId, mode;
      live, sets, nextSet := map[], map[], 0;
    }

    method Subscribe(call: CallId, x: Subscriber) returns (h: Handle)
      modifies this
      ensures (State(), h) == Subscribed(old(State()), call, x)
    {
      var id := nextSet;
      if call in live {
        id := live[call];
      } else {
        nextSet := nextSet + 1;
      }
      var members := if id in sets then sets[id] else [];
      if x !in members { members := members + [x]; }
      sets := sets[id := members];
      live := live[call := id];
      return Handle(call, id, x);
    }

    method Unsubscribe(h: Handle)
      modifies this
      ensures State() == Unsubscribed(old(State()), h)
    {
      sets := sets[h.set_ := Remove(if h.set_ in sets then sets[h.set_] else [], h.subscriber)];
      if |sets[h.set_]| == 0 { live := live - {h.call}; }
    }

    /** One delivery to each listener, in order; then the signal, if this instance sends one. */
    method Publish(call: CallId, event: EventType)
      returns (deliveries: seq<(Subscriber, EventType)>, signal: Option<Signal>)
      ensures |deliveries| == |Listeners(State(), call)|
      ensures forall k :: 0 <= k < |deliveries| ==> deliveries[k] == (Listeners(State(), call)[k], event)
      ensures signal == if Signals(mode, event) then Some(Signal(sourceId, call)) else None
    {
      deliveries := DeliverAll(call, event);
      if event == TranscriptDelta || !(mode == PublishOnly || mode == Both) { return deliveries, None; }
      return deliveries, Some(Signal(sourceId, call));
    }

    method DeliverAll(call: CallId, event: EventType) returns (deliveries: seq<(Subscriber, EventType)>)
      ensures |deliveries| == |Listeners(State(), call)|
      ensures forall k :: 0 <= k < |deliveries| ==> deliveries[k] == (Listeners(State(), call)[k], event)
    {
      deliveries := [];
      var members := Listeners(State(), call);
      for i := 0 to |members|
        invariant |deliveries| == i
        invariant forall k :: 0 <= k < i ==> deliveries[k] == (members[k], event)
      {
        deliveries := deliveries + [(members[i], event)];
      }
    }

    /** A signal is followed up only when another instance sent it and someone here listens. */
    predicate FollowsUp(signal: Signal)
      reads this
    {
      signal.source != sourceId && signal.call in live
    }

    /**
     * A received signal. While the snapshot is read subscribers may come and go, which `meanwhile`
     * stands for; the listeners of the moment after it get the update, and no signal is sent.
     */
    method HandleRemoteCallChange(signal: Signal, found: bool, meanwhile: Registry -> Registry)
      returns (deliveries: seq<(Subscriber, EventType)>)
      modifies this
      ensures State() == if old(FollowsUp(signal)) then meanwhile(old(State())) else old(State())
      ensures !old(FollowsUp(signal)) || !found ==> deliveries == []
      ensures old(FollowsUp(signal)) && found ==> |deliveries| == |Listeners(State(), signal.call)|
      ensures old(FollowsUp(signal)) && found ==>
        forall k :: 0 <= k < |deliveries| ==> deliveries[k] == (Listeners(State(), signal.call)[k], CallUpdated)
    {
      if signal.source == sourceId || signal.call !in live { return []; }
      var now := meanwhile(State());
      live, sets, nextSet := now.live, now.sets, now.next;
      if !found { return []; }
      deliveries := DeliverAll(signal.call, CallUpdated);
    }
  }
}
