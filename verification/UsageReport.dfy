/** The accumulating loop of the provider-usage report, and the laws of the report it returns. */
module UsageReport {
  import opened Folds
  import opened Options
  import opened ProviderUsage

  /** A component as the loop holds it: its models in the order of their first appearance. */
  datatype Component = Component(counters: Counters, incomplete: int, amount: Option<int>, models: seq<string>)

  const EMPTY := Component(NO_COUNTERS, 0, None, [])

  function Elements(s: seq<string>): set<string> {
    set x | x in s
  }

  ghost predicate Distinct<T>(s: seq<T>) {
    forall i, j :: 0 <= i < j < |s| ==> s[i] != s[j]
  }

  function Abstract(c: Component): Totals {
    Totals(c.counters, c.incomplete, c.amount, Elements(c.models))
  }

  /** One destination of one bucket: usage, missing records and amount go to the component. */
  function AddShare(c: Component, p: Price, b: Bucket, part: Part): Component {
    var amount := Cost(p, part);
    Component(
      PlusCounters(c.counters, b.counters),
      c.incomplete + if Incomplete(p) && Counts(b) then Missing(b) else 0,
      if amount.None? then c.amount else Some((if c.amount.Some? then c.amount.value else 0) + amount.value),
      if b.model in c.models then c.models else c.models + [b.model])
  }

  lemma AddShareAdds(c: Component, p: Price, b: Bucket, part: Part)
    requires Distinct(c.models)
    ensures Abstract(AddShare(c, p, b, part)) == PlusTotals(Abstract(c), Share(p, b, part))
    ensures Distinct(AddShare(c, p, b, part).models)
  {
    hide PlusCounters;
    assert Elements(AddShare(c, p, b, part).models) == Elements(c.models) + {b.model};
  }

  ghost predicate DistinctNames(ds: seq<Destination>) {
    forall i, j :: 0 <= i < j < |ds| ==> ds[i].name != ds[j].name
  }

  lemma {:induction false} PartForFinds(name: Name, ds: seq<Destination>)
    requires DistinctNames(ds)
    ensures PartFor(name, ds).None? ==> forall i :: 0 <= i < |ds| ==> ds[i].name != name
    ensures forall i :: 0 <= i < |ds| && ds[i].name == name ==> PartFor(name, ds) == Some(ds[i].part)
    decreases |ds|
  {
    if ds != [] { PartForFinds(name, ds[1..]); }
  }

  /** No bucket reaches the same component twice. */
  lemma DestinationsAreDistinct(b: Bucket)
    ensures DistinctNames(Destinations(b)) && |Destinations(b)| <= 3
  {
    if b.operation.RealtimeResponse? {
      hide HasText, HasAudio;
    }
  }

  datatype Status = Unavailable | Partial | Calculated

  datatype Facts = Facts(missingUsageOperations: int, incompleteSessions: int)

  datatype Report = Report(
    status: Status,
    unpricedBuckets: int,
    pricingVersions: seq<string>,
    records: seq<Record>,
    calculatedUsdMicros: Option<int>,
    components: map<Name, Component>)

  function StatusOf(relevant: int, unpriced: int, facts: Facts): Status {
    if relevant == 0 && facts.missingUsageOperations == 0 && facts.incompleteSessions == 0 then Unavailable
    else if unpriced > 0 || facts.missingUsageOperations > 0 || facts.incompleteSessions > 0 then Partial
    else Calculated
  }

  /** The headline leaves out the details of realtime usage and telephony. */
  function Headline(amount: Name -> Option<int>): Option<int> {
    PlusAmount(PlusAmount(PlusAmount(PlusAmount(PlusAmount(
      amount(BriefCompilations), amount(TextTranslations)), amount(CallSummaries)), amount(Realtime)),
      amount(RealtimeTranscription)), amount(PostCallTranscription))
  }

  class ReportBuilder {
    const price: Bucket -> Price
    var components: map<Name, Component>
    var records: seq<Record>
    var versions: seq<string>     // a set, in insertion order
    var relevantBuckets: int
    var unpricedBuckets: int

    constructor (price: Bucket -> Price)
      ensures this.price == price && Holds([])
    {
      this.price := price;
      components := map[
        BriefCompilations := EMPTY, TextTranslations := EMPTY, CallSummaries := EMPTY,
        Realtime := EMPTY, RealtimeText := EMPTY, RealtimeAudio := EMPTY,
        RealtimeTranscription := EMPTY, PostCallTranscription := EMPTY, Telephony := EMPTY];
      records, versions, relevantBuckets, unpricedBuckets := [], [], 0, 0;
      new;
      assert Elements([]) == {};
      forall n: Name ensures n in components && components[n] == EMPTY {
        match n
        case BriefCompilations =>
        case TextTranslations =>
        case CallSummaries =>
        case Realtime =>
        case RealtimeText =>
        case RealtimeAudio =>
        case RealtimeTranscription =>
        case PostCallTranscription =>
        case Telephony =>
      }
    }

    /** The fields are the sums over the buckets taken so far. */
    ghost predicate Holds(bs: seq<Bucket>)
      reads this
    {
      && (forall n :: n in components && Distinct(components[n].models))
      && (forall n :: n in components && Abstract(components[n]) == TotalsOf(price, n, bs))
      && records == RecordsOf(price, bs)
      && Distinct(versions) && Elements(versions) == Fold(b => Version(price, b), Union, {}, bs)
      && relevantBuckets == Fold(Relevant, Plus, 0, bs)
      && unpricedBuckets == Fold(b => Unpriced(price, b), Plus, 0, bs)
    }

    /** One turn of the loop. */
    method AddBucket(b: Bucket, ghost bs: seq<Bucket>)
      requires Holds(bs)
      modifies this
      ensures Holds(bs + [b])
    {
      hide PlusCounters, Share, Abstract, AddShare, RecordOf, Destinations, PlusTotals;
      OneMore(price, b, bs);
      var ds := Destinations(b);
      if ds == [] {
        assert forall n :: Contribution(price, n, b) == NO_TOTALS;
        return;
      }
      CountBucket(b, ds);
      AddShares(b, ds, bs);
    }

    method CountBucket(b: Bucket, ds: seq<Destination>)
      requires ds == Destinations(b) && ds != [] && Distinct(versions)
      modifies this`relevantBuckets, this`versions, this`unpricedBuckets, this`records
      ensures relevantBuckets == old(relevantBuckets) + Relevant(b)
      ensures Distinct(versions) && Elements(versions) == old(Elements(versions)) + Version(price, b)
      ensures unpricedBuckets == old(unpricedBuckets) + Unpriced(price, b)
      ensures records == old(records) + RecordsFor(price, b)
    {
      hide Destinations, RecordOf, Missing, Incomplete;
      var p := price(b);
      if Counts(b) {
        relevantBuckets := relevantBuckets + 1;
        AddedElement(versions, p.pricingVersion);
        if p.pricingVersion !in versions { versions := versions + [p.pricingVersion]; }
        if Incomplete(p) { unpricedBuckets := unpricedBuckets + Missing(b); }
      }
      if b.operationId != "" && b.startedAt != "" { records := records + [RecordOf(p, b)]; }
    }

    /** The inner loop over the destinations of a bucket. */
    method AddShares(b: Bucket, ds: seq<Destination>, ghost bs: seq<Bucket>)
      requires ds == Destinations(b)
      requires forall n ::
        n in components && Distinct(components[n].models) && Abstract(components[n]) == TotalsOf(price, n, bs)
      modifies this`components
      ensures forall n :: n in components && Distinct(components[n].models)
      ensures forall n :: Abstract(components[n]) == PlusTotals(TotalsOf(price, n, bs), Contribution(price, n, b))
    {
      hide PlusCounters, Share, Abstract, AddShare, Destinations, TotalsOf, PlusTotals;
      DestinationsAreDistinct(b);
      var p := price(b);
      ghost var before := components;
      for j := 0 to |ds|
        invariant forall n :: n in components && Distinct(components[n].models)
        invariant forall i :: 0 <= i < j ==>
          Abstract(components[ds[i].name]) == PlusTotals(Abstract(before[ds[i].name]), Share(p, b, ds[i].part))
        invariant forall n :: (forall i :: 0 <= i < j ==> ds[i].name != n) ==> components[n] == before[n]
      {
        AddShareAdds(components[ds[j].name], p, b, ds[j].part);
        components := components[ds[j].name := AddShare(components[ds[j].name], p, b, ds[j].part)];
      }
      forall n ensures Abstract(components[n]) == PlusTotals(TotalsOf(price, n, bs), Contribution(price, n, b)) {
        PartForFinds(n, ds);
        if i :| 0 <= i < |ds| && ds[i].name == n {
          assert Contribution(price, n, b) == Share(p, b, ds[i].part);
        } else {
          NothingAdded(n, ds);
          NoTotalsAdd(TotalsOf(price, n, bs));
        }
      }
    }

    method AddAll(bs: seq<Bucket>)
      requires Holds([])
      modifies this
      ensures Holds(bs)
    {
      hide Holds();
      for i := 0 to |bs|
        invariant Holds(bs[..i])
      {
        AddBucket(bs[i], bs[..i]);
        assert bs[..i] + [bs[i]] == bs[..i + 1];
      }
      assert bs[..|bs|] == bs;
    }

    /** The callback of the record filter, with its running count per operation type. */
    method KeepRecent(rs: seq<Record>) returns (kept: seq<Record>)
      ensures kept == Recent(rs)
    {
      kept := [];
      var counts: map<Operation, nat> := map[];
      for i := 0 to |rs|
        invariant kept == Recent(rs[..i])
        invariant forall op :: (if op in counts then counts[op] else 0) == |OfType(op, rs[..i])|
      {
        var op := rs[i].operation;
        var count := (if op in counts then counts[op] else 0) + 1;
        counts := counts[op := count];
        assert rs[..i + 1] == rs[..i] + [rs[i]] && rs[..i + 1][..i] == rs[..i];
        forall o ensures OfType(o, rs[..i + 1]) == OfType(o, rs[..i]) + if rs[i].operation == o then [rs[i]] else [] {
          OfTypeAppend(o, rs[..i], rs[i]);
        }
        if count <= RECENT { kept := kept + [rs[i]]; }
      }
      assert rs[..|rs|] == rs;
    }

    /** Sorts and shortens the model lists and reads the report off the fields. */
    method Finish(bs: seq<Bucket>, facts: Facts, codeUnits: (string, string) -> bool, collate: (string, string) -> bool)
      returns (r: Report)
      requires Holds(bs) && TotalPreorder(codeUnits)
      ensures IsReport(price, facts, codeUnits, collate, bs, r)
    {
      hide PlusCounters;
      var shown := map n | n in components ::
        components[n].(models := Take(Sort(codeUnits, components[n].models), SHOWN_MODELS));
      forall n ensures n in shown && ShowsTotals(codeUnits, shown[n], TotalsOf(price, n, bs)) {
        SortedListOf(codeUnits, components[n].models);
      }
      SortedListOf(codeUnits, versions);
      var kept := KeepRecent(Sort(NewestFirst(collate), records));
      var parts := components;
      r := Report(StatusOf(relevantBuckets, unpricedBuckets, facts), unpricedBuckets, Sort(codeUnits, versions), kept,
        Headline(n => if n in parts then parts[n].amount else None), shown);
      HeadlineReads(n => if n in parts then parts[n].amount else None, n => TotalsOf(price, n, bs).amount);
    }

    /** The whole report. */
    method Build(bs: seq<Bucket>, facts: Facts, codeUnits: (string, string) -> bool, collate: (string, string) -> bool)
      returns (r: Report)
      requires Holds([]) && TotalPreorder(codeUnits)
      modifies this
      ensures IsReport(price, facts, codeUnits, collate, bs, r)
    {
      hide Holds(), IsReport;
      AddAll(bs);
      r := Finish(bs, facts, codeUnits, collate);
    }
  }

  lemma HeadlineReads(a: Name -> Option<int>, b: Name -> Option<int>)
    requires forall n :: a(n) == b(n)
    ensures Headline(a) == Headline(b)
  {
  }

  lemma AddedElement(s: seq<string>, x: string)
    requires Distinct(s)
    ensures Elements(s + [x]) == Elements(s) + {x}
    ensures x in s ==> Elements(s) == Elements(s) + {x}
    ensures x !in s ==> Distinct(s + [x])
  {
  }

  ghost predicate SortedList(le: (string, string) -> bool, s: seq<string>, items: set<string>) {
    Sorted(le, s) && Distinct(s) && Elements(s) == items
  }

  lemma SortedListOf(le: (string, string) -> bool, s: seq<string>)
    requires TotalPreorder(le) && Distinct(s)
    ensures SortedList(le, Sort(le, s), Elements(s))
  {
    SortSorts(le, s);
    DistinctByCount(s);
    var r := Sort(le, s);
    forall x ensures x in r <==> x in s {
      assert x in multiset(r) <==> x in multiset(s);
    }
    forall x | x in r ensures multiset(r)[x] == 1 { assert x in s; }
    CountedOnce(r);
  }

  lemma {:induction false} DistinctByCount(s: seq<string>)
    requires Distinct(s)
    ensures forall x :: x in s ==> multiset(s)[x] == 1
    decreases |s|
  {
    if s != [] {
      DistinctByCount(s[1..]);
      assert s == [s[0]] + s[1..];
      assert s[0] !in s[1..];
    }
  }

  lemma CountedOnce(s: seq<string>)
    requires forall x :: x in s ==> multiset(s)[x] == 1
    ensures Distinct(s)
  {
    forall i, j | 0 <= i < j < |s| ensures s[i] != s[j] {
      CountedAt(s, i, j);
    }
  }

  lemma CountedAt(s: seq<string>, i: nat, j: nat)
    requires i < j < |s|
    ensures s[i] == s[j] ==> multiset(s)[s[i]] >= 2
  {
    assert s == s[..i + 1] + s[i + 1..];
    assert multiset(s) == multiset(s[..i + 1]) + multiset(s[i + 1..]);
    assert s[..i + 1][i] == s[i] && s[i] in multiset(s[..i + 1]);
    assert s[i + 1..][j - i - 1] == s[j] && s[j] in multiset(s[i + 1..]);
  }

  ghost predicate ShowsTotals(codeUnits: (string, string) -> bool, c: Component, t: Totals) {
    && c.counters == t.counters && c.incomplete == t.incomplete && c.amount == t.amount
    && exists full :: SortedList(codeUnits, full, t.models) && c.models == Take(full, SHOWN_MODELS)
  }

  /** What the report says of a list of buckets, by plain sums over them. */
  ghost predicate IsReport(price: Bucket -> Price, facts: Facts, codeUnits: (string, string) -> bool,
      collate: (string, string) -> bool, bs: seq<Bucket>, r: Report) {
    && (forall n :: n in r.components && ShowsTotals(codeUnits, r.components[n], TotalsOf(price, n, bs)))
    && SortedList(codeUnits, r.pricingVersions, Fold(b => Version(price, b), Union, {}, bs))
    && r.unpricedBuckets == Fold(b => Unpriced(price, b), Plus, 0, bs)
    && r.status == StatusOf(Fold(Relevant, Plus, 0, bs), r.unpricedBuckets, facts)
    && r.records == Recent(Sort(NewestFirst(collate), RecordsOf(price, bs)))
    && r.calculatedUsdMicros == Headline(n => TotalsOf(price, n, bs).amount)
  }


  lemma {:induction false} NothingAdded(name: Name, ds: seq<Destination>)
    requires forall i :: 0 <= i < |ds| ==> ds[i].name != name
    ensures PartFor(name, ds).None?
    decreases |ds|
  {
    if ds != [] { NothingAdded(name, ds[1..]); }
  }

  lemma NoTotalsAdd(t: Totals)
    ensures PlusTotals(t, NO_TOTALS) == t
  {
    TotalsAdd();
    Laws(PlusTotals, NO_TOTALS, t, NO_TOTALS, NO_TOTALS);
  }

  /** How each specification grows by one bucket. */
  lemma OneMore(price: Bucket -> Price, b: Bucket, bs: seq<Bucket>)
    ensures forall n :: TotalsOf(price, n, bs + [b]) == PlusTotals(TotalsOf(price, n, bs), Contribution(price, n, b))
    ensures forall n :: Contribution(price, n, b) == NO_TOTALS ==>
      TotalsOf(price, n, bs + [b]) == TotalsOf(price, n, bs)
    ensures RecordsOf(price, bs + [b]) == RecordsOf(price, bs) + RecordsFor(price, b)
    ensures Fold(x => Version(price, x), Union, {}, bs + [b]) ==
      Fold(x => Version(price, x), Union, {}, bs) + Version(price, b)
    ensures Fold(Relevant, Plus, 0, bs + [b]) == Fold(Relevant, Plus, 0, bs) + Relevant(b)
    ensures Fold(x => Unpriced(price, x), Plus, 0, bs + [b]) ==
      Fold(x => Unpriced(price, x), Plus, 0, bs) + Unpriced(price, b)
  {
    hide Contribution, PlusTotals, CommutativeMonoid, Version, Relevant, Unpriced, RecordsFor;
    TotalsAdd();
    PlainSums();
    assert (bs + [b])[..|bs|] == bs && (bs + [b])[|bs|] == b;
    assert (bs + [b])[..|bs| + 1] == bs + [b];
    forall n
      ensures TotalsOf(price, n, bs + [b]) == PlusTotals(TotalsOf(price, n, bs), Contribution(price, n, b))
      ensures Contribution(price, n, b) == NO_TOTALS ==> TotalsOf(price, n, bs + [b]) == TotalsOf(price, n, bs)
    {
      FoldSnoc(x => Contribution(price, n, x), PlusTotals, NO_TOTALS, bs + [b], |bs|);
      NoTotalsAdd(TotalsOf(price, n, bs));
    }
    FoldSnoc(x => Version(price, x), Union, {}, bs + [b], |bs|);
    FoldSnoc(Relevant, Plus, 0, bs + [b], |bs|);
    FoldSnoc(x => Unpriced(price, x), Plus, 0, bs + [b], |bs|);
  }

  // ---------------------------------------------------------------- laws of the report

  /** Records that tie both in their start and in their id are one and the same. */
  ghost predicate TiedAreEqual(collate: (string, string) -> bool, rs: seq<Record>) {
    forall x, y :: x in rs && y in rs && Ties(collate, x.startedAt, y.startedAt) && Ties(collate, x.id, y.id) ==> x == y
  }

  ghost predicate Antisymmetric(le: (string, string) -> bool) {
    forall a, b :: le(a, b) && le(b, a) ==> a == b
  }

  lemma NewestFirstIsPreorder(collate: (string, string) -> bool)
    requires TotalPreorder(collate)
    ensures TotalPreorder(NewestFirst(collate))
  {
    var le := NewestFirst(collate);
    forall a, b ensures le(a, b) || le(b, a) {
      assert collate(a.startedAt, b.startedAt) || collate(b.startedAt, a.startedAt);
      assert collate(a.id, b.id) || collate(b.id, a.id);
    }
    forall a, b, c | le(a, b) && le(b, c) ensures le(a, c) {
      assert collate(c.startedAt, b.startedAt) && collate(b.startedAt, a.startedAt);
      if Ties(collate, a.startedAt, c.startedAt) {
        assert collate(a.startedAt, b.startedAt) && collate(b.startedAt, c.startedAt);
        assert collate(a.id, b.id) && collate(b.id, c.id);
      }
    }
  }

  lemma NoTiedRecords(collate: (string, string) -> bool, rs: seq<Record>)
    requires TotalPreorder(collate) && TiedAreEqual(collate, rs)
    ensures NoTies(NewestFirst(collate), rs)
  {
  }

  function Join(a: multiset<Record>, b: multiset<Record>): multiset<Record> { a + b }

  lemma JoinAdds()
    ensures CommutativeMonoid(Join, multiset{})
  {
    forall a ensures Join(multiset{}, a) == a {}
    forall a, b ensures Join(a, b) == Join(b, a) {}
    forall a, b, c ensures Join(Join(a, b), c) == Join(a, Join(b, c)) {}
  }

  lemma {:induction false} RecordsAreFolded(price: Bucket -> Price, bs: seq<Bucket>)
    ensures multiset(RecordsOf(price, bs)) == Fold(b => multiset(RecordsFor(price, b)), Join, multiset{}, bs)
    decreases |bs|
  {
    hide RecordsFor;
    JoinAdds();
    if bs != [] {
      RecordsAreFolded(price, bs[..|bs| - 1]);
      FoldSnoc(b => multiset(RecordsFor(price, b)), Join, multiset{}, bs, |bs| - 1);
      assert bs[..|bs| - 1 + 1] == bs;
    }
  }

  lemma {:induction false} SortedListUnique(le: (string, string) -> bool, a: seq<string>, b: seq<string>,
      items: set<string>)
    requires TotalPreorder(le) && Antisymmetric(le) && SortedList(le, a, items) && SortedList(le, b, items)
    ensures a == b
  {
    DistinctByCount(a);
    DistinctByCount(b);
    forall x ensures multiset(a)[x] == multiset(b)[x] {
      assert x in Elements(a) <==> x in Elements(b);
    }
    SortedUnique(le, a, b);
  }

  lemma ShownOnce(codeUnits: (string, string) -> bool, c: Component, d: Component, t: Totals)
    requires TotalPreorder(codeUnits) && Antisymmetric(codeUnits)
    requires ShowsTotals(codeUnits, c, t) && ShowsTotals(codeUnits, d, t)
    ensures c == d
  {
    var x :| SortedList(codeUnits, x, t.models) && c.models == Take(x, SHOWN_MODELS);
    var y :| SortedList(codeUnits, y, t.models) && d.models == Take(y, SHOWN_MODELS);
    SortedListUnique(codeUnits, x, y, t.models);
  }

  /** No field of the report but the record list depends on the order in which the buckets arrive; nor
      does that list, unless two different records tie both in their start and in their id. */
  lemma OrderIsIrrelevant(price: Bucket -> Price, facts: Facts, codeUnits: (string, string) -> bool,
      collate: (string, string) -> bool, a: seq<Bucket>, b: seq<Bucket>, r: Report, s: Report)
    requires TotalPreorder(codeUnits) && Antisymmetric(codeUnits) && TotalPreorder(collate)
    requires multiset(a) == multiset(b)
    requires IsReport(price, facts, codeUnits, collate, a, r) && IsReport(price, facts, codeUnits, collate, b, s)
    ensures r.(records := []) == s.(records := [])
    ensures TiedAreEqual(collate, RecordsOf(price, a)) ==> r == s
  {
    hide CommutativeMonoid, ShowsTotals, SortedList, TotalPreorder, Antisymmetric, TiedAreEqual, Recent, PlusTotals,
      Contribution;
    SumsPermute(price, a, b);
    forall n: Name ensures n in r.components && n in s.components && r.components[n] == s.components[n] {
      ShownOnce(codeUnits, r.components[n], s.components[n], TotalsOf(price, n, a));
    }
    assert r.components == s.components;
    SortedListUnique(codeUnits, r.pricingVersions, s.pricingVersions, Fold(x => Version(price, x), Union, {}, a));
    HeadlineReads(n => TotalsOf(price, n, a).amount, n => TotalsOf(price, n, b).amount);
    if TiedAreEqual(collate, RecordsOf(price, a)) {
      NewestFirstIsPreorder(collate);
      NoTiedRecords(collate, RecordsOf(price, a));
      SortPermutes(NewestFirst(collate), RecordsOf(price, a), RecordsOf(price, b));
    }
  }

  lemma SumsPermute(price: Bucket -> Price, a: seq<Bucket>, b: seq<Bucket>)
    requires multiset(a) == multiset(b)
    ensures forall n :: TotalsOf(price, n, a) == TotalsOf(price, n, b)
    ensures Fold(x => Version(price, x), Union, {}, a) == Fold(x => Version(price, x), Union, {}, b)
    ensures Fold(Relevant, Plus, 0, a) == Fold(Relevant, Plus, 0, b)
    ensures Fold(x => Unpriced(price, x), Plus, 0, a) == Fold(x => Unpriced(price, x), Plus, 0, b)
    ensures multiset(RecordsOf(price, a)) == multiset(RecordsOf(price, b))
  {
    hide CommutativeMonoid, PlusTotals, Contribution;
    TotalsAdd();
    PlainSums();
    JoinAdds();
    forall n ensures TotalsOf(price, n, a) == TotalsOf(price, n, b) {
      FoldPermutes(x => Contribution(price, n, x), PlusTotals, NO_TOTALS, a, b);
    }
    FoldPermutes(x => Version(price, x), Union, {}, a, b);
    FoldPermutes(Relevant, Plus, 0, a, b);
    FoldPermutes(x => Unpriced(price, x), Plus, 0, a, b);
    FoldPermutes(x => multiset(RecordsFor(price, x)), Join, multiset{}, a, b);
    RecordsAreFolded(price, a);
    RecordsAreFolded(price, b);
  }

  // ---------------------------------------------------------------- conservation

  /** The one amount by which a bucket enters the headline. */
  function Primary(price: Bucket -> Price, b: Bucket): Option<int> {
    var ds := Destinations(b);
    if ds == [] || ds[0].name.Telephony? then None else Cost(price(b), ds[0].part)
  }

  predicate IsDetail(n: Name) {
    n.RealtimeText? || n.RealtimeAudio?
  }

  /** Behind its first destination a bucket reaches only the details of realtime usage. */
  lemma DetailsFollow(b: Bucket)
    ensures var ds := Destinations(b);
            && (ds != [] ==> !IsDetail(ds[0].name))
            && (forall i :: 1 <= i < |ds| ==> IsDetail(ds[i].name))
            && (b.operation.TelephonyLeg? ==> ds == [Destination(Telephony, NoPart)])
  {
    hide HasText, HasAudio;
  }

  lemma MainContribution(price: Bucket -> Price, n: Name, b: Bucket)
    requires !IsDetail(n)
    ensures var ds := Destinations(b);
            Contribution(price, n, b) ==
            if ds != [] && ds[0].name == n then Share(price(b), b, ds[0].part) else NO_TOTALS
  {
    hide Destinations;
    DetailsFollow(b);
    var ds := Destinations(b);
    if ds == [] || ds[0].name != n { NothingAdded(n, ds); }
  }

  lemma PrimaryOnce(price: Bucket -> Price, b: Bucket)
    ensures Headline(n => Contribution(price, n, b).amount) == Primary(price, b)
  {
    hide Destinations, Contribution;
    DetailsFollow(b);
    MainContribution(price, BriefCompilations, b);
    MainContribution(price, TextTranslations, b);
    MainContribution(price, CallSummaries, b);
    MainContribution(price, Realtime, b);
    MainContribution(price, RealtimeTranscription, b);
    MainContribution(price, PostCallTranscription, b);
  }

  lemma HeadlineAdds(a: Name -> Option<int>, b: Name -> Option<int>)
    ensures Headline(n => PlusAmount(a(n), b(n))) == PlusAmount(Headline(a), Headline(b))
  {
    hide PlusAmount;
    var a1 := PlusAmount(a(BriefCompilations), a(TextTranslations));
    var b1 := PlusAmount(b(BriefCompilations), b(TextTranslations));
    var a2, b2 := PlusAmount(a1, a(CallSummaries)), PlusAmount(b1, b(CallSummaries));
    var a3, b3 := PlusAmount(a2, a(Realtime)), PlusAmount(b2, b(Realtime));
    var a4, b4 := PlusAmount(a3, a(RealtimeTranscription)), PlusAmount(b3, b(RealtimeTranscription));
    PairwiseAmounts(a(BriefCompilations), b(BriefCompilations), a(TextTranslations), b(TextTranslations));
    PairwiseAmounts(a1, b1, a(CallSummaries), b(CallSummaries));
    PairwiseAmounts(a2, b2, a(Realtime), b(Realtime));
    PairwiseAmounts(a3, b3, a(RealtimeTranscription), b(RealtimeTranscription));
    PairwiseAmounts(a4, b4, a(PostCallTranscription), b(PostCallTranscription));
  }

  lemma PairwiseAmounts(x1: Option<int>, y1: Option<int>, x2: Option<int>, y2: Option<int>)
    ensures PlusAmount(PlusAmount(x1, y1), PlusAmount(x2, y2)) == PlusAmount(PlusAmount(x1, x2), PlusAmount(y1, y2))
  {
  }

  /** The headline is the sum, over the buckets outside telephony, of each bucket's one primary amount;
      nothing is counted again through the text and audio details. */
  lemma {:induction false} CostConservation(price: Bucket -> Price, bs: seq<Bucket>)
    ensures Headline(n => TotalsOf(price, n, bs).amount) == Fold(b => Primary(price, b), PlusAmount, None, bs)
    decreases |bs|
  {
    hide Contribution, Primary, PlusCounters;
    if bs == [] {
      assert forall n :: TotalsOf(price, n, bs).amount == None;
    } else {
      var b, rest := bs[0], bs[1..];
      CostConservation(price, rest);
      PrimaryOnce(price, b);
      HeadlineAdds(n => Contribution(price, n, b).amount, n => TotalsOf(price, n, rest).amount);
      HeadlineReads(n => TotalsOf(price, n, bs).amount,
        n => PlusAmount((m => Contribution(price, m, b).amount)(n), (m => TotalsOf(price, m, rest).amount)(n)));
    }
  }

  /** The headline is unknown exactly when no bucket brings a primary amount. */
  lemma {:induction false} HeadlineUnknown(price: Bucket -> Price, bs: seq<Bucket>)
    ensures Fold(b => Primary(price, b), PlusAmount, None, bs).None? <==>
      forall b :: b in bs ==> Primary(price, b).None?
    decreases |bs|
  {
    hide Primary;
    if bs != [] {
      HeadlineUnknown(price, bs[1..]);
      assert forall b :: b in bs <==> b == bs[0] || b in bs[1..];
    }
  }

  function IncompleteOf(price: Bucket -> Price, n: Name, bs: seq<Bucket>): int {
    TotalsOf(price, n, bs).incomplete
  }

  function MainIncomplete(incomplete: Name -> int): int {
    incomplete(BriefCompilations) + incomplete(TextTranslations) + incomplete(CallSummaries) + incomplete(Realtime) +
    incomplete(RealtimeTranscription) + incomplete(PostCallTranscription) + incomplete(Telephony)
  }

  lemma UnpricedOnce(price: Bucket -> Price, b: Bucket)
    ensures MainIncomplete(n => Contribution(price, n, b).incomplete) == Unpriced(price, b)
  {
    hide Destinations, Contribution;
    DetailsFollow(b);
    MainContribution(price, BriefCompilations, b);
    MainContribution(price, TextTranslations, b);
    MainContribution(price, CallSummaries, b);
    MainContribution(price, Realtime, b);
    MainContribution(price, RealtimeTranscription, b);
    MainContribution(price, PostCallTranscription, b);
    MainContribution(price, Telephony, b);
  }

  /** The incomplete counts of all components but the two details add up to the unpriced buckets. */
  lemma {:induction false} IncompleteConservation(price: Bucket -> Price, bs: seq<Bucket>)
    ensures MainIncomplete(n => IncompleteOf(price, n, bs)) == Fold(b => Unpriced(price, b), Plus, 0, bs)
    decreases |bs|
  {
    hide Contribution, Unpriced, PlusCounters;
    if bs != [] {
      IncompleteConservation(price, bs[1..]);
      UnpricedOnce(price, bs[0]);
    }
  }

  function RoutedTo(n: Name, bs: seq<Bucket>): seq<Bucket> {
    if bs == [] then []
    else (if PartFor(n, Destinations(bs[0])).Some? then [bs[0]] else []) + RoutedTo(n, bs[1..])
  }

  /** Every counter of a component is the plain sum over the buckets routed to it. */
  lemma {:induction false} CountersAreRoutedSums(price: Bucket -> Price, n: Name, bs: seq<Bucket>)
    ensures TotalsOf(price, n, bs).counters ==
      Fold((b: Bucket) => b.counters, PlusCounters, NO_COUNTERS, RoutedTo(n, bs))
    decreases |bs|
  {
    hide Destinations, PlusCounters;
    if bs != [] {
      CountersAreRoutedSums(price, n, bs[1..]);
      CountersAdd(TotalsOf(price, n, bs[1..]).counters, NO_COUNTERS, NO_COUNTERS);
      if PartFor(n, Destinations(bs[0])).Some? {
        assert RoutedTo(n, bs)[1..] == RoutedTo(n, bs[1..]);
      } else {
        assert RoutedTo(n, bs) == RoutedTo(n, bs[1..]);
      }
    }
  }

  /** The later of two records in the list: it did not start later, and of two that tie it has the later id. */
  predicate NotNewer(collate: (string, string) -> bool, later: Record, earlier: Record) {
    && collate(later.startedAt, earlier.startedAt)
    && (collate(earlier.startedAt, later.startedAt) ==> collate(earlier.id, later.id))
  }

  lemma InOrder(collate: (string, string) -> bool, a: Record, b: Record)
    requires TotalPreorder(collate) && NewestFirst(collate)(a, b)
    ensures NotNewer(collate, b, a)
  {
    assert collate(a.startedAt, b.startedAt) || collate(b.startedAt, a.startedAt);
  }

  /** What a finished report guarantees about the buckets it was built from. */
  lemma ReportConserves(price: Bucket -> Price, facts: Facts, codeUnits: (string, string) -> bool,
      collate: (string, string) -> bool, bs: seq<Bucket>, r: Report)
    requires TotalPreorder(collate)
    requires IsReport(price, facts, codeUnits, collate, bs, r)
    ensures r.calculatedUsdMicros == Fold(b => Primary(price, b), PlusAmount, None, bs)
    ensures r.calculatedUsdMicros.None? <==> forall b :: b in bs ==> Primary(price, b).None?
    ensures MainIncomplete(n => r.components[n].incomplete) == r.unpricedBuckets
    ensures Sorted(NewestFirst(collate), r.records)
    ensures forall i, j :: 0 <= i < j < |r.records| ==> NotNewer(collate, r.records[j], r.records[i])
    ensures forall op ::
      OfType(op, r.records) == Take(OfType(op, Sort(NewestFirst(collate), RecordsOf(price, bs))), RECENT)
  {
    hide CommutativeMonoid, PlusTotals, Contribution, TotalPreorder, Antisymmetric, Primary, Recent, NewestFirst;
    CostConservation(price, bs);
    HeadlineUnknown(price, bs);
    IncompleteConservation(price, bs);
    NewestFirstIsPreorder(collate);
    var sorted := Sort(NewestFirst(collate), RecordsOf(price, bs));
    SortSorts(NewestFirst(collate), RecordsOf(price, bs));
    RecentStaysSorted(NewestFirst(collate), sorted);
    forall op ensures OfType(op, Recent(sorted)) == Take(OfType(op, sorted), RECENT) {
      RecentKeepsTheFirst(op, sorted);
    }
    forall i, j | 0 <= i < j < |r.records| ensures NotNewer(collate, r.records[j], r.records[i]) {
      InOrder(collate, r.records[i], r.records[j]);
    }
  }

  // ---------------------------------------------------------------- each component from its own usage

  predicate IsSynthesis(b: Bucket) {
    b.operation.RealtimeResponse? && (b.stage.LiveDisclosureSynthesis? || b.stage.LiveApplicationSynthesis?)
  }

  predicate IsLiveSession(b: Bucket) {
    b.operation.RealtimeSession? && b.stage.LiveConversation?
  }

  predicate IsConversation(b: Bucket) {
    b.operation.RealtimeResponse? && !IsSynthesis(b)
  }

  predicate ReportsText(b: Bucket) {
    b.counters.inputText.samples > 0 || b.counters.cachedInputText.samples > 0 || b.counters.outputText.samples > 0
  }

  predicate ReportsAudio(b: Bucket) {
    b.counters.inputAudio.samples > 0 || b.counters.cachedInputAudio.samples > 0 || b.counters.outputAudio.samples > 0
  }

  predicate IsInputAudio(b: Bucket) {
    b.stage.ConversationInputAudio? || b.stage.ConsentInputAudio?
  }

  /** The usage that a component is about. */
  predicate Feeds(n: Name, b: Bucket) {
    match n
    case BriefCompilations => b.operation.BriefCompilation?
    case TextTranslations => b.operation.TextTranslation?
    case CallSummaries => b.operation.CallSummary?
    case Realtime => b.operation.RealtimeResponse? || IsLiveSession(b)
    case RealtimeText => IsConversation(b) && (ReportsText(b) || !ReportsAudio(b))
    case RealtimeAudio => IsSynthesis(b) || IsLiveSession(b) || (IsConversation(b) && ReportsAudio(b))
    case RealtimeTranscription => b.operation.Transcription? && IsInputAudio(b)
    case PostCallTranscription => b.operation.Transcription? && !IsInputAudio(b)
    case Telephony => b.operation.TelephonyLeg? || b.operation.AnsweringDetection? || b.operation.VoicemailTts?
  }

  /** The price that it takes from a bucket: what is spoken live is paid by duration, a conversation is
      split into text and audio, a leg has no estimate, and everything else is paid as a whole. */
  function AmountIn(n: Name, p: Price, b: Bucket): Option<int> {
    if b.operation.TelephonyLeg? then None
    else if IsSynthesis(b) || IsLiveSession(b) then p.duration
    else if n.RealtimeText? && ReportsText(b) then p.text
    else if n.RealtimeAudio? then p.audio
    else p.calculated
  }

  predicate FullyPriced(p: Price) {
    p.matched && p.calculated.Some? && p.unpricedMetrics == []
  }

  /** The records of a bucket without a full estimate, one at least; a leg is not estimated at all. */
  function MissingIn(p: Price, b: Bucket): int {
    if FullyPriced(p) || b.operation.TelephonyLeg? then 0
    else if b.counters.usageRecords < 1 then 1 else b.counters.usageRecords
  }

  function Fed(n: Name, bs: seq<Bucket>): seq<Bucket> {
    if bs == [] then [] else (if Feeds(n, bs[0]) then [bs[0]] else []) + Fed(n, bs[1..])
  }

  function OwnShare(price: Bucket -> Price, n: Name, b: Bucket): Totals {
    Totals(b.counters, MissingIn(price(b), b), AmountIn(n, price(b), b), {b.model})
  }

  lemma OnePart(n: Name, a: Destination)
    ensures PartFor(n, [a]) == if a.name == n then Some(a.part) else None
  {
    assert [a][1..] == [];
  }

  lemma TwoParts(n: Name, a: Destination, b: Destination)
    ensures PartFor(n, [a, b]) == if a.name == n then Some(a.part) else if b.name == n then Some(b.part) else None
  {
    assert [a, b][1..] == [b];
    OnePart(n, b);
  }

  lemma ThreeParts(n: Name, a: Destination, b: Destination, c: Destination)
    ensures PartFor(n, [a, b, c]) ==
      if a.name == n then Some(a.part) else if b.name == n then Some(b.part)
      else if c.name == n then Some(c.part) else None
  {
    assert [a, b, c][1..] == [b, c];
    TwoParts(n, b, c);
  }

  /** The part of a bucket that a component takes is the price that it is paid by. */
  lemma RoutingFeeds(price: Bucket -> Price, n: Name, b: Bucket)
    ensures Contribution(price, n, b) == if Feeds(n, b) then OwnShare(price, n, b) else NO_TOTALS
    ensures PartFor(n, Destinations(b)).Some? <==> Feeds(n, b)
  {
    PartFeeds(price(b), n, b);
    hide Destinations, Feeds, AmountIn, NO_TOTALS;
  }

  lemma PartFeeds(p: Price, n: Name, b: Bucket)
    ensures var part := PartFor(n, Destinations(b));
      && (part.Some? <==> Feeds(n, b))
      && (part.Some? ==> Cost(p, part.value) == AmountIn(n, p, b))
  {
    var ds := Destinations(b);
    if IsConversation(b) {
      ConversationFeeds(p, n, b);
    } else if ds != [] {
      if |ds| == 1 {
        OnePart(n, ds[0]);
        assert ds == [ds[0]];
      } else {
        TwoParts(n, ds[0], ds[1]);
        assert ds == [ds[0], ds[1]];
      }
    }
  }

  lemma ConversationFeeds(p: Price, n: Name, b: Bucket)
    requires IsConversation(b)
    ensures var part := PartFor(n, Destinations(b));
      && (part.Some? <==> Feeds(n, b))
      && (part.Some? ==> Cost(p, part.value) == AmountIn(n, p, b))
  {
    var whole, text, audio :=
      Destination(Realtime, CalculatedPart), Destination(RealtimeText, TextPart), Destination(RealtimeAudio, AudioPart);
    if ReportsText(b) && ReportsAudio(b) {
      assert Destinations(b) == [whole, text, audio];
      ThreeParts(n, whole, text, audio);
    } else if ReportsText(b) {
      assert Destinations(b) == [whole, text];
      TwoParts(n, whole, text);
    } else if ReportsAudio(b) {
      assert Destinations(b) == [whole, audio];
      TwoParts(n, whole, audio);
    } else {
      assert Destinations(b) == [whole, Destination(RealtimeText, CalculatedPart)];
      TwoParts(n, whole, Destination(RealtimeText, CalculatedPart));
    }
  }

  /** The plain sums over a list of buckets, as one component shows them. */
  function UsageIn(price: Bucket -> Price, n: Name, bs: seq<Bucket>): Totals {
    Totals(
      Fold((b: Bucket) => b.counters, PlusCounters, NO_COUNTERS, bs),
      Fold((b: Bucket) => MissingIn(price(b), b), Plus, 0, bs),
      Fold((b: Bucket) => AmountIn(n, price(b), b), PlusAmount, None, bs),
      Fold((b: Bucket) => {b.model}, Union, {}, bs))
  }

  lemma UsageAdds(price: Bucket -> Price, n: Name, b: Bucket, bs: seq<Bucket>)
    ensures UsageIn(price, n, [b] + bs) == PlusTotals(OwnShare(price, n, b), UsageIn(price, n, bs))
  {
    hide PlusCounters, PlusAmount, MissingIn, AmountIn;
    assert ([b] + bs)[0] == b && ([b] + bs)[1..] == bs;
  }

  lemma NoUsage(price: Bucket -> Price, n: Name)
    ensures UsageIn(price, n, []) == NO_TOTALS
  {
  }

  /** Every component is the plain sum of its own usage. */
  lemma {:induction false} ComponentIsItsUsage(price: Bucket -> Price, n: Name, bs: seq<Bucket>)
    ensures TotalsOf(price, n, bs) == UsageIn(price, n, Fed(n, bs))
    decreases |bs|
  {
    hide Contribution, Feeds, PlusTotals, UsageIn, OwnShare;
    NoUsage(price, n);
    if bs != [] {
      var b, rest := bs[0], bs[1..];
      ComponentIsItsUsage(price, n, rest);
      RoutingFeeds(price, n, b);
      UsageAdds(price, n, b, Fed(n, rest));
      assert Fed(n, bs) == (if Feeds(n, b) then [b] else []) + Fed(n, rest);
      assert [] + Fed(n, rest) == Fed(n, rest);
      assert TotalsOf(price, n, bs) == PlusTotals(Contribution(price, n, b), TotalsOf(price, n, rest));
      TotalsAdd();
      Laws(PlusTotals, NO_TOTALS, TotalsOf(price, n, rest), NO_TOTALS, NO_TOTALS);
    }
  }

  /** So a report shows in each component the usage of its own operations, and nothing else. */
  lemma ReportShowsUsage(price: Bucket -> Price, facts: Facts, codeUnits: (string, string) -> bool,
      collate: (string, string) -> bool, bs: seq<Bucket>, r: Report, n: Name)
    requires IsReport(price, facts, codeUnits, collate, bs, r)
    ensures n in r.components
    ensures var c, own := r.components[n], Fed(n, bs);
      && c.counters == Fold((b: Bucket) => b.counters, PlusCounters, NO_COUNTERS, own)
      && c.incomplete == Fold((b: Bucket) => MissingIn(price(b), b), Plus, 0, own)
      && c.amount == Fold((b: Bucket) => AmountIn(n, price(b), b), PlusAmount, None, own)
      && Elements(c.models) <= (set b | b in own :: b.model)
      && (|c.models| < SHOWN_MODELS ==> Elements(c.models) == set b | b in own :: b.model)
  {
    ComponentIsItsUsage(price, n, bs);
    ModelsOf(Fed(n, bs));
    var full :| SortedList(codeUnits, full, TotalsOf(price, n, bs).models)
      && r.components[n].models == Take(full, SHOWN_MODELS);
    hide Fed, Feeds, TotalsOf, MissingIn, AmountIn, PlusCounters;
    assert forall m :: m in r.components[n].models ==> m in full;
  }

  lemma {:induction false} ModelsOf(bs: seq<Bucket>)
    ensures Fold((b: Bucket) => {b.model}, Union, {}, bs) == set b | b in bs :: b.model
    decreases |bs|
  {
    if bs != [] {
      ModelsOf(bs[1..]);
      assert bs == [bs[0]] + bs[1..];
    }
  }

  /** Usage that is estimated: of every kind that some component is about, except the leg itself. */
  predicate Estimated(b: Bucket) {
    !b.operation.TelephonyLeg? && exists n :: Feeds(n, b)
  }

  lemma EstimatedIsCounted(price: Bucket -> Price, b: Bucket)
    ensures Relevant(b) == if Estimated(b) then 1 else 0
    ensures Unpriced(price, b) == if Estimated(b) then MissingIn(price(b), b) else 0
    ensures Version(price, b) == if Estimated(b) then {price(b).pricingVersion} else {}
  {
    var ds := Destinations(b);
    if ds != [] {
      RoutingFeeds(price, ds[0].name, b);
    } else {
      forall n ensures !Feeds(n, b) { RoutingFeeds(price, n, b); }
    }
    hide Destinations, Feeds;
  }

  /** The status says whether there is anything to estimate, and whether something lacks its estimate. */
  lemma StatusTells(price: Bucket -> Price, facts: Facts, codeUnits: (string, string) -> bool,
      collate: (string, string) -> bool, bs: seq<Bucket>, r: Report)
    requires IsReport(price, facts, codeUnits, collate, bs, r)
    requires facts.missingUsageOperations >= 0 && facts.incompleteSessions >= 0
    ensures var lost := facts.missingUsageOperations + facts.incompleteSessions;
      && (r.status.Unavailable? <==> lost == 0 && forall b :: b in bs ==> !Estimated(b))
      && (r.status.Partial? <==> lost > 0 || exists b :: b in bs && Estimated(b) && !FullyPriced(price(b)))
    ensures Elements(r.pricingVersions) == set b | b in bs && Estimated(b) :: price(b).pricingVersion
    ensures r.unpricedBuckets == Fold((b: Bucket) => if Estimated(b) then MissingIn(price(b), b) else 0, Plus, 0, bs)
  {
    CountedUsage(price, bs);
    hide Estimated, FullyPriced, Relevant, Unpriced, Version;
  }

  lemma MissingMeansUnpriced(p: Price, b: Bucket)
    ensures MissingIn(p, b) >= 0 && (Estimated(b) ==> (MissingIn(p, b) > 0 <==> !FullyPriced(p)))
  {
  }

  lemma {:induction false} CountedUsage(price: Bucket -> Price, bs: seq<Bucket>)
    ensures var n := Fold(Relevant, Plus, 0, bs); n >= 0 && (n == 0 <==> forall b :: b in bs ==> !Estimated(b))
    ensures var n := Fold(b => Unpriced(price, b), Plus, 0, bs);
      n >= 0 && (n > 0 <==> exists b :: b in bs && Estimated(b) && !FullyPriced(price(b)))
    ensures Fold(b => Unpriced(price, b), Plus, 0, bs)
         == Fold((b: Bucket) => if Estimated(b) then MissingIn(price(b), b) else 0, Plus, 0, bs)
    ensures Fold(b => Version(price, b), Union, {}, bs) == set b | b in bs && Estimated(b) :: price(b).pricingVersion
    decreases |bs|
  {
    hide Estimated, FullyPriced, Relevant, Unpriced, Version;
    if bs != [] {
      CountedUsage(price, bs[1..]);
      EstimatedIsCounted(price, bs[0]);
      MissingMeansUnpriced(price(bs[0]), bs[0]);
      assert bs == [bs[0]] + bs[1..];
    }
  }

  /** A request record shows the amount that stands for it and says what is missing from it, if anything:
      nothing exactly when that amount is final. */
  lemma RecordTells(p: Price, b: Bucket)
    ensures var r, leg := RecordOf(p, b), b.operation.TelephonyLeg?;
      && r.id == b.operationId && r.startedAt == b.startedAt && r.operation == b.operation && r.stage == b.stage
      && r.model == b.model && r.provider == b.provider && r.outcome == b.outcome
      && (r.providerReported <==> leg)
      && r.calculatedUsdMicros == (if leg then b.reportedUsdMicros else p.calculated)
      && (r.missingMetrics == [] <==>
        if leg then b.reportedUsdMicros.Some?
        else b.counters.usageRecords != 0 && p.matched && p.unpricedMetrics == [])
    ensures var r := RecordOf(p, b);
      && ("pending_price" in r.missingMetrics && "pending_price" !in p.unpricedMetrics ==> b.operation.TelephonyLeg?)
      && (b.operation.TelephonyLeg? ==> forall m :: m in r.missingMetrics ==> m == "pending_price")
      && (!b.operation.TelephonyLeg? && b.counters.usageRecords == 0 ==>
        r.missingMetrics == ["usage_unknown_possible_charge"])
      && (!b.operation.TelephonyLeg? && b.counters.usageRecords != 0 && !p.matched ==>
        r.missingMetrics == ["pricing_version_or_model"])
      && (!b.operation.TelephonyLeg? && b.counters.usageRecords != 0 && p.matched ==>
        r.missingMetrics == p.unpricedMetrics)
  {
  }

  function Dated(bs: seq<Bucket>): seq<Bucket>
    decreases |bs|
  {
    if bs == [] then []
    else
      var before, b := Dated(bs[..|bs| - 1]), bs[|bs| - 1];
      if b.operationId != "" && b.startedAt != "" && exists n :: Feeds(n, b) then before + [b] else before
  }

  /** There is one record for each bucket of a known request, in their order. */
  lemma {:induction false} RecordsAreDated(price: Bucket -> Price, bs: seq<Bucket>)
    ensures |RecordsOf(price, bs)| == |Dated(bs)|
    ensures forall i :: 0 <= i < |Dated(bs)| ==> RecordsOf(price, bs)[i] == RecordOf(price(Dated(bs)[i]), Dated(bs)[i])
    decreases |bs|
  {
    hide RecordOf, Feeds, Destinations;
    if bs != [] {
      var b := bs[|bs| - 1];
      RecordsAreDated(price, bs[..|bs| - 1]);
      if Destinations(b) != [] {
        RoutingFeeds(price, Destinations(b)[0].name, b);
      } else {
        forall n ensures !Feeds(n, b) { RoutingFeeds(price, n, b); }
      }
    }
  }
}
