/**
 * The account data export: pages of a user's calls are read by key, newest first, from a store that
 * other requests change in the meantime. The store is given by its whole history, one state for each
 * moment; a clock says at which moment each read of the export takes place.
 */
module AccountExport {
  import opened Folds
  import opened Options

  type UserId = string
  type CallId = int

  /** Everything stored with a call, as one value. */
  type Data = string

  const PAGE_SIZE := 100

  datatype Call = Call(id: CallId, createdAt: int, owner: Option<UserId>, deleted: bool, data: Data)

  type State = seq<Call>

  datatype Cursor = Cursor(createdAt: int, id: CallId)

  datatype Page = Page(items: seq<Call>, nextCursor: Option<Cursor>)

  // ---------------------------------------------------------------- the repository

  function Find(s: State, id: CallId): (r: Option<Call>)
    ensures r.Some? ==> r.value in s && r.value.id == id
    ensures r.None? ==> forall c :: c in s ==> c.id != id
  {
    if s == [] then None else if s[0].id == id then Some(s[0]) else Find(s[1..], id)
  }

  /** The data of a call, unless it is unknown or its data was deleted. */
  function Get(s: State, id: CallId): Option<Data> {
    match Find(s, id)
    case Some(c) => if c.deleted then None else Some(c.data)
    case None => None
  }

  predicate IsOwnedBy(s: State, id: CallId, user: UserId) {
    match Find(s, id)
    case Some(c) => !c.deleted && c.owner == Some(user)
    case None => false
  }

  predicate Below(cursor: Option<Cursor>, createdAt: int, id: CallId) {
    match cursor
    case None => true
    case Some(c) => createdAt < c.createdAt || (createdAt == c.createdAt && id < c.id)
  }

  function Matching(s: State, user: UserId, cursor: Option<Cursor>): (r: State)
    ensures forall c :: c in r <==> c in s && !c.deleted && c.owner == Some(user) && Below(cursor, c.createdAt, c.id)
    ensures forall x :: multiset(r)[x] <= multiset(s)[x]
  {
    if s == [] then []
    else
      assert s == [s[0]] + s[1..];
      var rest := Matching(s[1..], user, cursor);
      var c := s[0];
      if !c.deleted && c.owner == Some(user) && Below(cursor, c.createdAt, c.id) then [c] + rest else rest
  }

  predicate NewerOrSame(a: Call, b: Call) {
    b.createdAt < a.createdAt || (b.createdAt == a.createdAt && b.id <= a.id)
  }

  function Found(s: State, user: UserId, cursor: Option<Cursor>): State {
    Sort(NewerOrSame, Matching(s, user, cursor))
  }

  function List(s: State, user: UserId, cursor: Option<Cursor>): Page {
    var found := Found(s, user, cursor);
    if |found| > PAGE_SIZE then
      var last := found[PAGE_SIZE - 1];
      Page(found[..PAGE_SIZE], Some(Cursor(last.createdAt, last.id)))
    else
      Page(found, None)
  }

  // ---------------------------------------------------------------- one record

  /** The snapshot is not read in one transaction: `SnapshotTexts` is the last of the reads that follow
      its row, each of which rejects when the call is gone. */
  datatype Step = Snapshot | SnapshotTexts | FirstCheck | Outcome | TextData | Language | Recheck

  /** The moments of the n-th listing and of the steps for the i-th item of the n-th page. */
  datatype Clock = Clock(list: nat -> nat, read: (nat, nat, Step) -> nat)

  ghost predicate InOrder(clock: Clock, n: nat, i: nat) {
    && clock.list(n) <= clock.read(n, i, Snapshot) <= clock.read(n, i, SnapshotTexts) <= clock.read(n, i, FirstCheck)
    && clock.read(n, i, FirstCheck) <= clock.read(n, i, Outcome) <= clock.read(n, i, Recheck)
    && clock.read(n, i, FirstCheck) <= clock.read(n, i, TextData) <= clock.read(n, i, Recheck)
    && clock.read(n, i, FirstCheck) <= clock.read(n, i, Language) <= clock.read(n, i, Recheck)
    && clock.read(n, i, Recheck) <= clock.list(n + 1)
  }

  /** Items of a page are read side by side; their steps interleave freely with each other. */
  ghost predicate WellTimed(clock: Clock) {
    && (forall n: nat, i: nat :: InOrder(clock, n, i))
    && (forall m: nat, n: nat :: m <= n ==> clock.list(m) <= clock.list(n))
  }

  datatype Record = Record(id: CallId, snapshot: Data, outcome: Data, textData: Data, language: Option<Data>)

  datatype Reading = Kept(record: Record) | Skipped | NotFound

  /** One item: the later reads of the snapshot and two of the associated reads reject when the call is
      gone; the row of the snapshot and the language do not. */
  function Read(history: nat -> State, clock: Clock, n: nat, i: nat, id: CallId, user: UserId): Reading {
    var snapshot := Get(history(clock.read(n, i, Snapshot)), id);
    if snapshot.None? then Skipped
    else if Get(history(clock.read(n, i, SnapshotTexts)), id).None? then NotFound
    else if !IsOwnedBy(history(clock.read(n, i, FirstCheck)), id, user) then Skipped
    else
      var outcome := Get(history(clock.read(n, i, Outcome)), id);
      var textData := Get(history(clock.read(n, i, TextData)), id);
      var language := Get(history(clock.read(n, i, Language)), id);
      if outcome.None? || textData.None? then NotFound
      else if !IsOwnedBy(history(clock.read(n, i, Recheck)), id, user) then Skipped
      else Kept(Record(id, snapshot.value, outcome.value, textData.value, language))
  }

  // ---------------------------------------------------------------- assumptions about the history

  /** Ids are unique, a creation time never changes, and only finitely many calls ever exist. */
  ghost predicate WellFormed(s: State, created: CallId -> int, universe: set<CallId>) {
    && (forall i, j :: 0 <= i < j < |s| ==> s[i].id != s[j].id)
    && (forall c :: c in s ==> c.createdAt == created(c.id) && c.id in universe)
  }

  ghost predicate Faithful(history: nat -> State, created: CallId -> int, universe: set<CallId>) {
    forall t :: WellFormed(history(t), created, universe)
  }

  ghost predicate OwnedThroughout(history: nat -> State, id: CallId, user: UserId, from: nat, to: nat) {
    forall t :: from <= t <= to ==> IsOwnedBy(history(t), id, user)
  }

  ghost predicate Newer(created: CallId -> int, a: CallId, b: CallId) {
    created(b) < created(a) || (created(b) == created(a) && b < a)
  }

  // ---------------------------------------------------------------- pages

  lemma {:induction false} FindUnique(s: State, c: Call, created: CallId -> int, universe: set<CallId>)
    requires WellFormed(s, created, universe) && c in s
    ensures Find(s, c.id) == Some(c)
  {
    var found := Find(s, c.id).value;
    var i :| 0 <= i < |s| && s[i] == found;
    var j :| 0 <= j < |s| && s[j] == c;
  }

  lemma {:induction false} OnceEach(s: State, x: Call)
    requires forall i, j :: 0 <= i < j < |s| ==> s[i].id != s[j].id
    ensures multiset(s)[x] <= 1
    decreases |s|
  {
    if s != [] {
      assert s == [s[0]] + s[1..];
      OnceEach(s[1..], x);
      if s[0] == x { assert x !in s[1..]; }
    }
  }

  lemma TwiceCounted(s: State, i: int, j: int)
    requires 0 <= i < j < |s| && s[i] == s[j]
    ensures multiset(s)[s[i]] >= 2
  {
    assert s == s[..j] + [s[j]] + s[j + 1..];
    assert s[i] in s[..j];
  }

  lemma FoundAre(s: State, user: UserId, cursor: Option<Cursor>, created: CallId -> int, universe: set<CallId>)
    requires WellFormed(s, created, universe)
    ensures forall c :: c in Found(s, user, cursor) ==>
      c in s && IsOwnedBy(s, c.id, user) && Below(cursor, c.createdAt, c.id) && c.createdAt == created(c.id)
    ensures forall id ::
      IsOwnedBy(s, id, user) && Below(cursor, created(id), id) ==> Find(s, id).value in Found(s, user, cursor)
  {
    var found, matching := Found(s, user, cursor), Matching(s, user, cursor);
    forall c ensures c in found <==> c in matching {
      assert c in multiset(found) <==> c in multiset(matching);
    }
    forall c | c in found ensures c in s && IsOwnedBy(s, c.id, user) && Below(cursor, c.createdAt, c.id) {
      FindUnique(s, c, created, universe);
    }
  }

  /** A selection of a well-formed state holds no call twice. */
  lemma Apart(s: State, found: State, i: int, j: int, created: CallId -> int, universe: set<CallId>)
    requires WellFormed(s, created, universe) && 0 <= i < j < |found|
    requires forall x :: multiset(found)[x] <= multiset(s)[x]
    ensures found[i] in s && found[j] in s && found[i].id != found[j].id
  {
    assert multiset(found)[found[i]] > 0 && multiset(found)[found[j]] > 0;
    if found[i].id == found[j].id {
      FindUnique(s, found[i], created, universe);
      FindUnique(s, found[j], created, universe);
      TwiceCounted(found, i, j);
      OnceEach(s, found[i]);
    }
  }

  lemma FoundInOrder(s: State, user: UserId, cursor: Option<Cursor>, created: CallId -> int, universe: set<CallId>)
    requires WellFormed(s, created, universe)
    ensures var found := Found(s, user, cursor);
      forall i, j :: 0 <= i < j < |found| ==> Newer(created, found[i].id, found[j].id)
  {
    hide IsOwnedBy;
    var found, matching := Found(s, user, cursor), Matching(s, user, cursor);
    FoundAre(s, user, cursor, created, universe);
    SortSorts(NewerOrSame, matching);
    forall i, j | 0 <= i < j < |found| ensures Newer(created, found[i].id, found[j].id) {
      assert NewerOrSame(found[i], found[j]);
      Apart(s, found, i, j, created, universe);
    }
  }

  /** A listing: in strict order, only matching calls, and what is left out is below the cursor returned. */
  lemma PageOf(s: State, user: UserId, cursor: Option<Cursor>, created: CallId -> int, universe: set<CallId>)
    requires WellFormed(s, created, universe)
    ensures var page := List(s, user, cursor);
      && (forall c :: c in page.items ==> c in s && IsOwnedBy(s, c.id, user) && Below(cursor, c.createdAt, c.id))
      && (forall i, j :: 0 <= i < j < |page.items| ==> Newer(created, page.items[i].id, page.items[j].id))
      && (page.nextCursor.Some? ==> page.items != [] && var last := page.items[|page.items| - 1];
        page.nextCursor == Some(Cursor(last.createdAt, last.id)))
    ensures var page := List(s, user, cursor);
      forall id ::
        IsOwnedBy(s, id, user) && Below(cursor, created(id), id) && (forall c :: c in page.items ==> c.id != id)
        ==> page.nextCursor.Some? && Below(page.nextCursor, created(id), id)
  {
    hide Found;
    hide IsOwnedBy;
    hide Find;
    hide WellFormed;
    var found, page := Found(s, user, cursor), List(s, user, cursor);
    FoundAre(s, user, cursor, created, universe);
    FoundInOrder(s, user, cursor, created, universe);
    assert forall c :: c in page.items ==> c in found;
    forall id | IsOwnedBy(s, id, user) && Below(cursor, created(id), id) && (forall c :: c in page.items ==> c.id != id)
      ensures page.nextCursor.Some? && Below(page.nextCursor, created(id), id)
    {
      LeftOut(s, user, cursor, created, universe, id);
    }
  }

  /** In a strictly ordered list, what is not among the first items comes after the last of them. */
  lemma BehindTheCut(found: State, call: Call, created: CallId -> int)
    requires forall i, j :: 0 <= i < j < |found| ==> Newer(created, found[i].id, found[j].id)
    requires |found| > PAGE_SIZE && call in found && call !in found[..PAGE_SIZE]
    ensures Newer(created, found[PAGE_SIZE - 1].id, call.id)
  {
    var k :| 0 <= k < |found| && found[k] == call;
    assert forall j :: 0 <= j < PAGE_SIZE ==> found[j] in found[..PAGE_SIZE];
  }

  lemma LeftOut(s: State, user: UserId, cursor: Option<Cursor>, created: CallId -> int, universe: set<CallId>,
      id: CallId)
    requires WellFormed(s, created, universe)
    requires IsOwnedBy(s, id, user) && Below(cursor, created(id), id)
    requires forall c :: c in List(s, user, cursor).items ==> c.id != id
    ensures List(s, user, cursor).nextCursor.Some? && Below(List(s, user, cursor).nextCursor, created(id), id)
  {
    var call := Find(s, id).value;
    hide Found;
    hide IsOwnedBy;
    hide Find;
    hide WellFormed;
    hide Newer;
    var found := Found(s, user, cursor);
    FoundAre(s, user, cursor, created, universe);
    FoundInOrder(s, user, cursor, created, universe);
    assert |found| <= PAGE_SIZE ==> call in List(s, user, cursor).items;
    if |found| > PAGE_SIZE {
      BehindTheCut(found, call, created);
      BelowLast(found[PAGE_SIZE - 1], created, id);
    }
  }

  lemma BelowLast(last: Call, created: CallId -> int, id: CallId)
    requires last.createdAt == created(last.id)
    ensures Newer(created, last.id, id) <==> Below(Some(Cursor(last.createdAt, last.id)), created(id), id)
  {
  }

  /** A page holds a hundred calls at most. There is a next one exactly if it is full and a call is left
      below its cursor; otherwise it holds every call that there is. */
  lemma PagesAreFull(s: State, user: UserId, cursor: Option<Cursor>, created: CallId -> int, universe: set<CallId>)
    returns (left: Option<Call>)
    requires WellFormed(s, created, universe)
    ensures var page := List(s, user, cursor);
      && |page.items| <= 100 && (page.nextCursor.Some? <==> left.Some?)
      && (left.Some? ==> |page.items| == 100 && left.value in s && IsOwnedBy(s, left.value.id, user))
      && (left.Some? ==> Below(page.nextCursor, left.value.createdAt, left.value.id))
      && (left.None? ==> page.items == Found(s, user, cursor))
  {
    var found, page := Found(s, user, cursor), List(s, user, cursor);
    FoundAre(s, user, cursor, created, universe);
    FoundInOrder(s, user, cursor, created, universe);
    hide Found, IsOwnedBy, WellFormed, Newer;
    left := None;
    if page.nextCursor.Some? {
      left := Some(found[PAGE_SIZE]);
      assert found[PAGE_SIZE] in found && found[PAGE_SIZE - 1] in found;
      BelowLast(found[PAGE_SIZE - 1], created, found[PAGE_SIZE].id);
    }
  }

  // ---------------------------------------------------------------- the export

  datatype Export = Exported(records: seq<Record>) | Rejected

  ghost predicate Holds(records: seq<Record>, id: CallId) {
    exists k :: 0 <= k < |records| && records[k].id == id
  }

  ghost predicate NewestFirst(created: CallId -> int, records: seq<Record>) {
    forall j, k :: 0 <= j < k < |records| ==> Newer(created, records[j].id, records[k].id)
  }

  /** The records kept from one page, with the index of the item that each was read for. */
  ghost predicate KeptFrom(history: nat -> State, clock: Clock, user: UserId, n: nat, items: seq<Call>,
      records: seq<Record>, at: seq<nat>) {
    && |at| == |records|
    && (forall k :: 0 <= k < |at| ==> at[k] < |items|)
    && (forall k :: 0 <= k < |at| ==> Read(history, clock, n, at[k], items[at[k]].id, user) == Kept(records[k]))
    && (forall j, k :: 0 <= j < k < |at| ==> at[j] < at[k])
    && (forall i :: 0 <= i < |items| && Read(history, clock, n, i, items[i].id, user).Kept? ==> i in at)
  }

  method ReadPage(history: nat -> State, clock: Clock, user: UserId, n: nat, items: seq<Call>)
    returns (ok: bool, records: seq<Record>, ghost at: seq<nat>)
    ensures ok ==> KeptFrom(history, clock, user, n, items, records, at)
    ensures ok <==> forall i :: 0 <= i < |items| ==> !Read(history, clock, n, i, items[i].id, user).NotFound?
  {
    hide Read;
    records, at := [], [];
    for i := 0 to |items|
      invariant KeptFrom(history, clock, user, n, items[..i], records, at)
      invariant forall k :: 0 <= k < i ==> !Read(history, clock, n, k, items[k].id, user).NotFound?
    {
      assert forall k :: 0 <= k < i ==> items[..i + 1][k] == items[..i][k];
      match Read(history, clock, n, i, items[i].id, user)
      case Kept(record) => records, at := records + [record], at + [i];
      case Skipped =>
      case NotFound => return false, records, at;
    }
    assert items[..|items|] == items;
    return true, records, at;
  }

  /** A kept record passed an ownership check before and after its reads, which saw the call. */
  lemma KeptChecked(history: nat -> State, clock: Clock, n: nat, i: nat, id: CallId, user: UserId, record: Record)
    requires WellTimed(clock) && Read(history, clock, n, i, id, user) == Kept(record)
    ensures record.id == id
    ensures IsOwnedBy(history(clock.read(n, i, FirstCheck)), id, user)
    ensures IsOwnedBy(history(clock.read(n, i, Recheck)), id, user)
    ensures Get(history(clock.read(n, i, Snapshot)), id) == Some(record.snapshot)
    ensures Get(history(clock.read(n, i, SnapshotTexts)), id).Some?
    ensures Get(history(clock.read(n, i, Outcome)), id) == Some(record.outcome)
    ensures Get(history(clock.read(n, i, TextData)), id) == Some(record.textData)
    ensures Get(history(clock.read(n, i, Language)), id) == record.language
    ensures forall step :: clock.read(n, i, Snapshot) <= clock.read(n, i, step) <= clock.read(n, i, Recheck)
  {
    assert InOrder(clock, n, i);
    forall step ensures clock.read(n, i, Snapshot) <= clock.read(n, i, step) <= clock.read(n, i, Recheck) {
      match step {
        case Snapshot =>
        case SnapshotTexts =>
        case FirstCheck =>
        case Outcome =>
        case TextData =>
        case Language =>
        case Recheck =>
      }
    }
  }

  lemma OwnedIsKept(history: nat -> State, clock: Clock, n: nat, i: nat, id: CallId, user: UserId, from: nat)
    requires WellTimed(clock) && from <= clock.list(n)
    requires OwnedThroughout(history, id, user, from, clock.list(n + 1))
    ensures Read(history, clock, n, i, id, user).Kept?
  {
    assert InOrder(clock, n, i);
    assert IsOwnedBy(history(clock.read(n, i, Snapshot)), id, user);
    assert IsOwnedBy(history(clock.read(n, i, SnapshotTexts)), id, user);
    assert IsOwnedBy(history(clock.read(n, i, FirstCheck)), id, user);
    assert IsOwnedBy(history(clock.read(n, i, Outcome)), id, user);
    assert IsOwnedBy(history(clock.read(n, i, TextData)), id, user);
    assert IsOwnedBy(history(clock.read(n, i, Recheck)), id, user);
  }

  /** Nothing exported so far is below the cursor; before the first page nothing is exported. */
  ghost predicate Passed(created: CallId -> int, records: seq<Record>, cursor: Option<Cursor>) {
    && (cursor.None? ==> records == [])
    && (forall k :: 0 <= k < |records| ==> !Below(cursor, created(records[k].id), records[k].id))
  }

  /** What a page adds: records of its items, in their order. */
  lemma RecordsOfPage(history: nat -> State, clock: Clock, user: UserId, n: nat, items: seq<Call>,
      records: seq<Record>, at: seq<nat>, created: CallId -> int)
    requires WellTimed(clock) && KeptFrom(history, clock, user, n, items, records, at)
    requires forall i, j :: 0 <= i < j < |items| ==> Newer(created, items[i].id, items[j].id)
    ensures NewestFirst(created, records)
    ensures forall k :: 0 <= k < |records| ==> records[k].id == items[at[k]].id
  {
    hide Read;
    hide Newer;
    forall k | 0 <= k < |records| ensures records[k].id == items[at[k]].id {
      KeptChecked(history, clock, n, at[k], items[at[k]].id, user, records[k]);
    }
  }

  lemma AppendPage(created: CallId -> int, before: seq<Record>, cursor: Option<Cursor>, items: seq<Call>,
      added: seq<Record>, at: seq<nat>, next: Option<Cursor>)
    requires NewestFirst(created, before) && Passed(created, before, cursor) && NewestFirst(created, added)
    requires forall c :: c in items ==> c.createdAt == created(c.id) && Below(cursor, c.createdAt, c.id)
    requires forall i, j :: 0 <= i < j < |items| ==> Newer(created, items[i].id, items[j].id)
    requires |at| == |added| && forall k :: 0 <= k < |added| ==> at[k] < |items| && added[k].id == items[at[k]].id
    requires next.Some? ==> items != [] && next.value == Cursor(items[|items| - 1].createdAt, items[|items| - 1].id)
    ensures NewestFirst(created, before + added)
    ensures next.Some? ==> Passed(created, before + added, next)
  {
    forall k | 0 <= k < |added| ensures Below(cursor, created(added[k].id), added[k].id) {
      assert items[at[k]] in items;
    }
    if next.Some? {
      var last := items[|items| - 1];
      assert last in items;
      forall k | 0 <= k < |added| ensures !Below(next, created(added[k].id), added[k].id) {
        assert items[at[k]] in items;
        assert at[k] == |items| - 1 || Newer(created, items[at[k]].id, last.id);
      }
    }
  }

  function Remaining(created: CallId -> int, universe: set<CallId>, cursor: Option<Cursor>): set<CallId> {
    set id | id in universe && Below(cursor, created(id), id)
  }

  lemma RemainingShrinks(created: CallId -> int, universe: set<CallId>, cursor: Option<Cursor>, last: CallId)
    requires last in universe && Below(cursor, created(last), last)
    ensures |Remaining(created, universe, Some(Cursor(created(last), last)))| < |Remaining(created, universe, cursor)|
  {
    var now := Remaining(created, universe, cursor);
    var next := Remaining(created, universe, Some(Cursor(created(last), last)));
    assert last in now && last !in next;
    SubsetSize(next, now - {last});
  }

  lemma {:induction false} SubsetSize<T>(a: set<T>, b: set<T>)
    requires a <= b
    ensures |a| <= |b|
    decreases |a|
  {
    if |a| != 0 {
      var x :| x in a;
      SubsetSize(a - {x}, b - {x});
    }
  }

  /** Everything owned throughout is exported already or below the cursor, in reach of the next page. */
  ghost predicate NothingMissed(history: nat -> State, clock: Clock, user: UserId, created: CallId -> int, n: nat,
      records: seq<Record>, cursor: Option<Cursor>) {
    forall id :: OwnedThroughout(history, id, user, clock.list(0), clock.list(n))
      ==> Holds(records, id) || Below(cursor, created(id), id)
  }

  lemma StillOwned(history: nat -> State, clock: Clock, user: UserId, n: nat, id: CallId)
    requires WellTimed(clock) && OwnedThroughout(history, id, user, clock.list(0), clock.list(n + 1))
    ensures OwnedThroughout(history, id, user, clock.list(0), clock.list(n)) &&
      IsOwnedBy(history(clock.list(n)), id, user)
  {
    assert InOrder(clock, n, 0);
    assert clock.list(0) <= clock.list(n) <= clock.list(n + 1);
  }

  lemma HeldEarlier(before: seq<Record>, added: seq<Record>, id: CallId)
    requires Holds(before, id)
    ensures Holds(before + added, id)
  {
    var k :| 0 <= k < |before| && before[k].id == id;
    assert (before + added)[k].id == id;
  }

  lemma KeptNow(history: nat -> State, clock: Clock, user: UserId, n: nat, i: nat, items: seq<Call>,
      before: seq<Record>, added: seq<Record>, at: seq<nat>)
    requires WellTimed(clock) && KeptFrom(history, clock, user, n, items, added, at) && i < |items|
    requires OwnedThroughout(history, items[i].id, user, clock.list(0), clock.list(n + 1))
    ensures Holds(before + added, items[i].id)
  {
    OwnedIsKept(history, clock, n, i, items[i].id, user, clock.list(0));
    hide Read;
    var k :| 0 <= k < |at| && at[k] == i;
    KeptChecked(history, clock, n, i, items[i].id, user, added[k]);
    assert (before + added)[|before| + k].id == items[i].id;
  }

  lemma NoneMissed(history: nat -> State, clock: Clock, user: UserId, created: CallId -> int, universe: set<CallId>,
      n: nat, before: seq<Record>, cursor: Option<Cursor>, added: seq<Record>, at: seq<nat>, id: CallId)
    requires Faithful(history, created, universe) && WellTimed(clock)
    requires NothingMissed(history, clock, user, created, n, before, cursor)
    requires KeptFrom(history, clock, user, n, List(history(clock.list(n)), user, cursor).items, added, at)
    requires OwnedThroughout(history, id, user, clock.list(0), clock.list(n + 1))
    ensures var next := List(history(clock.list(n)), user, cursor).nextCursor;
      Holds(before + added, id) || (next.Some? && Below(next, created(id), id))
  {
    var s := history(clock.list(n));
    var items := List(s, user, cursor).items;
    StillOwned(history, clock, user, n, id);
    PageOf(s, user, cursor, created, universe);
    hide List;
    hide IsOwnedBy;
    hide OwnedThroughout;
    hide WellFormed;
    if Holds(before, id) {
      HeldEarlier(before, added, id);
    } else if i :| 0 <= i < |items| && items[i].id == id {
      KeptNow(history, clock, user, n, i, items, before, added, at);
    }
  }

  // ---------------------------------------------------------------- the pages of an export

  /** The n-th page that the cursors lead to, if they lead that far. */
  function PageAt(history: nat -> State, clock: Clock, user: UserId, n: nat): Option<Page> {
    if n == 0 then Some(List(history(clock.list(0)), user, None))
    else match PageAt(history, clock, user, n - 1)
      case None => None
      case Some(page) =>
        if page.nextCursor.None? then None else Some(List(history(clock.list(n)), user, page.nextCursor))
  }

  /** The i-th item of the n-th page. */
  predicate IsItem(history: nat -> State, clock: Clock, user: UserId, n: nat, i: nat, id: CallId) {
    var page := PageAt(history, clock, user, n);
    page.Some? && i < |page.value.items| && page.value.items[i].id == id
  }

  /** An item whose call is gone at a read that insists on it: inside its snapshot, after the row was
      read, or among the associated reads, after it passed its first check. */
  ghost predicate Vanishes(history: nat -> State, clock: Clock, user: UserId, n: nat, i: nat, id: CallId) {
    IsItem(history, clock, user, n, i, id) && Read(history, clock, n, i, id, user).NotFound?
  }

  lemma {:induction false} NoPageBehindTheLast(history: nat -> State, clock: Clock, user: UserId, last: nat, n: nat)
    requires PageAt(history, clock, user, last).Some? && PageAt(history, clock, user, last).value.nextCursor.None?
    requires last < n
    ensures PageAt(history, clock, user, n).None?
    decreases n
  {
    hide List;
    if n > last + 1 { NoPageBehindTheLast(history, clock, user, last, n - 1); }
  }

  /** The records are the readings of items of the first pages; every item whose reading succeeds has one. */
  ghost predicate ReadIn(history: nat -> State, clock: Clock, user: UserId, pages: nat, records: seq<Record>,
      origins: seq<(nat, nat)>)
  {
    && |origins| == |records|
    && (forall k :: 0 <= k < |origins| ==> origins[k].0 < pages)
    && (forall k :: 0 <= k < |origins| ==> IsItem(history, clock, user, origins[k].0, origins[k].1, records[k].id))
    && (forall k :: 0 <= k < |origins| ==>
      Read(history, clock, origins[k].0, origins[k].1, records[k].id, user) == Kept(records[k]))
    && (forall n: nat, i: nat, id ::
        n < pages && IsItem(history, clock, user, n, i, id) && Read(history, clock, n, i, id, user).Kept?
        ==> (n, i) in origins)
  }

  ghost predicate NoneVanished(history: nat -> State, clock: Clock, user: UserId, pages: nat) {
    forall n: nat, i: nat, id :: n < pages ==> !Vanishes(history, clock, user, n, i, id)
  }

  lemma AppendOrigins(history: nat -> State, clock: Clock, user: UserId, n: nat, items: seq<Call>,
      before: seq<Record>, origins: seq<(nat, nat)>, added: seq<Record>, at: seq<nat>) returns (all: seq<(nat, nat)>)
    requires ReadIn(history, clock, user, n, before, origins) && KeptFrom(history, clock, user, n, items, added, at)
    requires PageAt(history, clock, user, n).Some? && PageAt(history, clock, user, n).value.items == items
    requires forall k :: 0 <= k < |added| ==> added[k].id == items[at[k]].id
    ensures ReadIn(history, clock, user, n + 1, before + added, all)
  {
    hide Read;
    hide PageAt;
    ItemsOf(history, clock, user, n, items);
    hide IsItem;
    var more := seq(|at|, k requires 0 <= k < |at| => (n, at[k]));
    all := origins + more;
    forall k | 0 <= k < |all|
      ensures all[k].0 < n + 1 && IsItem(history, clock, user, all[k].0, all[k].1, (before + added)[k].id)
      ensures Read(history, clock, all[k].0, all[k].1, (before + added)[k].id, user) == Kept((before + added)[k])
    {
      if k < |origins| {
        assert all[k] == origins[k] && (before + added)[k] == before[k];
      } else {
        var j := k - |origins|;
        assert all[k] == (n, at[j]) && (before + added)[k] == added[j];
      }
    }
    forall m: nat, i: nat, id
      | m < n + 1 && IsItem(history, clock, user, m, i, id) && Read(history, clock, m, i, id, user).Kept?
      ensures (m, i) in all
    {
      if m < n {
        assert (m, i) in origins;
      } else {
        assert i in at;
        var k :| 0 <= k < |at| && at[k] == i;
        assert more[k] == (n, i);
      }
    }
  }

  lemma ItemsOf(history: nat -> State, clock: Clock, user: UserId, n: nat, items: seq<Call>)
    requires PageAt(history, clock, user, n).Some? && PageAt(history, clock, user, n).value.items == items
    ensures forall i: nat, id :: IsItem(history, clock, user, n, i, id) <==> i < |items| && items[i].id == id
  {
    hide PageAt;
  }

  lemma Start(history: nat -> State, clock: Clock, user: UserId, created: CallId -> int)
    ensures NewestFirst(created, []) && Passed(created, [], None)
    ensures NothingMissed(history, clock, user, created, 0, [], None)
    ensures ReadIn(history, clock, user, 0, [], [])
    ensures NoneVanished(history, clock, user, 0)
  {
  }

  /**
   * The paging loop. It rejects exactly when a call on one of its pages vanishes inside its snapshot
   * read or between its first check and an associated read. Otherwise the records are in strict
   * newest-first order, so no call is exported twice; every call present and owned from the first
   * listing to the end is exported; and the records are exactly the successful readings of the items
   * of all pages.
   */
  method ListCalls(history: nat -> State, clock: Clock, user: UserId, ghost created: CallId -> int,
      ghost universe: set<CallId>)
    returns (r: Export, pages: nat, ghost origins: seq<(nat, nat)>)
    requires Faithful(history, created, universe) && WellTimed(clock)
    ensures r.Rejected? <==> exists n: nat, i: nat, id :: Vanishes(history, clock, user, n, i, id)
    ensures r.Exported? ==> NewestFirst(created, r.records)
    ensures r.Exported? ==>
      forall id :: OwnedThroughout(history, id, user, clock.list(0), clock.list(pages)) ==> Holds(r.records, id)
    ensures r.Exported? ==>
      PageAt(history, clock, user, pages).None? && ReadIn(history, clock, user, pages, r.records, origins)
  {
    hide Read;
    hide List;
    hide NewestFirst;
    hide Passed;
    hide ReadIn;
    hide IsOwnedBy;
    hide OwnedThroughout;
    hide Holds;
    hide Newer;
    hide NoneVanished;
    hide Vanishes;
    hide KeptFrom;
    Start(history, clock, user, created);
    var records: seq<Record>, cursor: Option<Cursor> := [], None;
    pages, origins := 0, [];
    while true
      invariant NewestFirst(created, records) && Passed(created, records, cursor)
      invariant NothingMissed(history, clock, user, created, pages, records, cursor)
      invariant ReadIn(history, clock, user, pages, records, origins) && NoneVanished(history, clock, user, pages)
      invariant PageAt(history, clock, user, pages) == Some(List(history(clock.list(pages)), user, cursor))
      decreases |Remaining(created, universe, cursor)|
    {
      ghost var s := history(clock.list(pages));
      var page := List(history(clock.list(pages)), user, cursor);
      PageOf(s, user, cursor, created, universe);
      var ok, added, at := ReadPage(history, clock, user, pages, page.items);
      if !ok {
        VanishedHere(history, clock, user, pages, page.items);
        return Rejected, pages + 1, origins;
      }
      NoneVanishedHere(history, clock, user, pages, page.items);
      RecordsOfPage(history, clock, user, pages, page.items, added, at, created);
      KeptWithin(history, clock, user, pages, page.items, added, at);
      AppendPage(created, records, cursor, page.items, added, at, page.nextCursor);
      forall id | OwnedThroughout(history, id, user, clock.list(0), clock.list(pages + 1))
        ensures Holds(records + added, id) || (page.nextCursor.Some? && Below(page.nextCursor, created(id), id))
      {
        NoneMissed(history, clock, user, created, universe, pages, records, cursor, added, at, id);
      }
      origins := AppendOrigins(history, clock, user, pages, page.items, records, origins, added, at);
      if page.nextCursor.None? { NoneVanishedAtAll(history, clock, user, pages); }
      records, pages := records + added, pages + 1;
      if page.nextCursor.None? { return Exported(records), pages, origins; }
      ghost var last := page.items[|page.items| - 1];
      assert last in page.items;
      RemainingShrinks(created, universe, cursor, last.id);
      cursor := page.nextCursor;
    }
  }

  lemma VanishedHere(history: nat -> State, clock: Clock, user: UserId, n: nat, items: seq<Call>)
    requires PageAt(history, clock, user, n).Some? && PageAt(history, clock, user, n).value.items == items
    requires exists i :: 0 <= i < |items| && Read(history, clock, n, i, items[i].id, user).NotFound?
    ensures exists m: nat, i: nat, id :: Vanishes(history, clock, user, m, i, id)
  {
    hide Read;
    hide PageAt;
    var i :| 0 <= i < |items| && Read(history, clock, n, i, items[i].id, user).NotFound?;
    assert Vanishes(history, clock, user, n, i, items[i].id);
  }

  lemma NoneVanishedHere(history: nat -> State, clock: Clock, user: UserId, n: nat, items: seq<Call>)
    requires PageAt(history, clock, user, n).Some? && PageAt(history, clock, user, n).value.items == items
    requires forall i :: 0 <= i < |items| ==> !Read(history, clock, n, i, items[i].id, user).NotFound?
    requires NoneVanished(history, clock, user, n)
    ensures NoneVanished(history, clock, user, n + 1)
  {
    hide Read;
    hide PageAt;
  }

  lemma NoneVanishedAtAll(history: nat -> State, clock: Clock, user: UserId, last: nat)
    requires PageAt(history, clock, user, last).Some? && PageAt(history, clock, user, last).value.nextCursor.None?
    requires NoneVanished(history, clock, user, last + 1)
    ensures PageAt(history, clock, user, last + 1).None?
    ensures forall n: nat, i: nat, id :: !Vanishes(history, clock, user, n, i, id)
  {
    hide Read;
    NoPageBehindTheLast(history, clock, user, last, last + 1);
    forall n: nat, i: nat, id ensures !Vanishes(history, clock, user, n, i, id) {
      if n > last { NoPageBehindTheLast(history, clock, user, last, n); }
    }
  }

  lemma KeptWithin(history: nat -> State, clock: Clock, user: UserId, n: nat, items: seq<Call>, records: seq<Record>,
      at: seq<nat>)
    requires KeptFrom(history, clock, user, n, items, records, at)
    ensures |at| == |records| && forall k :: 0 <= k < |at| ==> at[k] < |items|
  {
    hide Read;
  }

  // ---------------------------------------------------------------- a rejected export

  /** Two calls of one user; the data of the second are deleted at a given moment. */
  function OnceThenGone(user: UserId, gone: nat): nat -> State {
    t => [Call(1, 0, Some(user), false, ""), Call(2, 0, Some(user), t >= gone, "")]
  }

  /** The order of the steps in the clock below. */
  function Place(step: Step): nat {
    match step
    case Snapshot => 1
    case SnapshotTexts => 2
    case FirstCheck => 3
    case Outcome => 4
    case TextData => 5
    case Language => 6
    case Recheck => 7
  }

  /** Listings are ten moments apart; each reading passes its first check at the third of them. */
  const SLOW_CLOCK := Clock((n: nat) => 10 * n, (n: nat, i: nat, step: Step) => 10 * n + Place(step))

  /**
   * A call owned at every moment can be missing from the result: another one makes the export reject
   * when its data are deleted inside its snapshot read or between its first check and a read that
   * insists on it, and at no other moment.
   */
  lemma OneVanishingCallRejectsAll(user: UserId, gone: nat)
    requires gone > 0
    ensures var history, created: CallId -> int := OnceThenGone(user, gone), id => 0;
      && Faithful(history, created, {1, 2}) && WellTimed(SLOW_CLOCK)
      && (forall t :: IsOwnedBy(history(t), 1, user))
      && (Vanishes(history, SLOW_CLOCK, user, 0, 0, 2) <==> gone == 2 || gone == 4 || gone == 5)
  {
    var history, created: CallId -> int := OnceThenGone(user, gone), id => 0;
    forall t ensures WellFormed(history(t), created, {1, 2}) && IsOwnedBy(history(t), 1, user) {
      var s := history(t);
      assert s[0].id == 1 && s[1].id == 2;
      assert Find(s, 1) == Some(s[0]);
    }
    forall n: nat, i: nat ensures InOrder(SLOW_CLOCK, n, i) {}
    TwoCalls(user, gone);
    SecondIsGone(user, gone);
  }

  lemma TwoCalls(user: UserId, gone: nat)
    requires gone > 0
    ensures IsItem(OnceThenGone(user, gone), SLOW_CLOCK, user, 0, 0, 2)
  {
    var s := OnceThenGone(user, gone)(0);
    var one, two := s[0], s[1];
    assert s == [one, two] && s[1..] == [two] && s[1..][1..] == [];
    assert Matching([two], user, None) == [two] + Matching([two][1..], user, None);
    assert Matching([], user, None) == [];
    assert Matching(s, user, None) == [one, two];
    assert [one, two][..1] == [one] && [one][..0] == [];
    assert Sort(NewerOrSame, []) == [];
    assert Sort(NewerOrSame, [one]) == Insert(NewerOrSame, [], one) == [one];
    assert !NewerOrSame(one, two);
    assert Sort(NewerOrSame, [one, two]) == Insert(NewerOrSame, [one], two) == [two] + [one];
  }

  lemma SecondIsGone(user: UserId, gone: nat)
    ensures Read(OnceThenGone(user, gone), SLOW_CLOCK, 0, 0, 2, user).NotFound? <==> gone == 2 || gone == 4 || gone == 5
  {
    forall t: nat ensures Find(OnceThenGone(user, gone)(t), 2) == Some(OnceThenGone(user, gone)(t)[1]) {
      var s := OnceThenGone(user, gone)(t);
      assert s[1..][0] == s[1] && s[0].id == 1;
    }
  }
}
