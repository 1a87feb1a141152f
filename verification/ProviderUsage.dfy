/** The provider-usage part of the operations overview: routing of a usage bucket to its components,
    and the loop that accumulates them. Prices come from an uninterpreted function. */
module ProviderUsage {
  import opened Folds
  import opened Options

  datatype Operation =
    | BriefCompilation
    | TextTranslation
    | CallSummary
    | AnsweringDetection
    | VoicemailTts
    | TelephonyLeg
    | RealtimeResponse
    | RealtimeSession
    | Transcription
    | OtherOperation(name: string)

  datatype Stage =
    | LiveDisclosureSynthesis
    | LiveApplicationSynthesis
    | LiveConversation
    | ConversationInputAudio
    | ConsentInputAudio
    | OtherStage(name: string)

  /** An amount and the number of records that reported it. */
  datatype Measure = Measure(amount: int, samples: int)

  datatype Counters = Counters(
    usageRecords: int,
    requests: int,
    inputText: Measure,
    cachedInputText: Measure,
    cacheWriteInputText: Measure,
    outputText: Measure,
    reasoningOutput: Measure,
    inputAudio: Measure,
    cachedInputAudio: Measure,
    outputAudio: Measure,
    total: Measure,
    duration: Measure,
    billable: Measure)

  datatype Bucket = Bucket(
    operation: Operation,
    stage: Stage,
    model: string,
    provider: string,
    counters: Counters,
    reportedUsdMicros: Option<int>,
    operationId: string,       // empty when absent
    startedAt: string,         // empty when absent
    outcome: Option<string>)

  datatype Price = Price(
    matched: bool,
    calculated: Option<int>,
    text: Option<int>,
    audio: Option<int>,
    duration: Option<int>,
    unpricedMetrics: seq<string>,
    pricingVersion: string)

  datatype Name =
    | BriefCompilations
    | TextTranslations
    | CallSummaries
    | Realtime
    | RealtimeText
    | RealtimeAudio
    | RealtimeTranscription
    | PostCallTranscription
    | Telephony

  datatype Part = CalculatedPart | TextPart | AudioPart | DurationPart | NoPart

  datatype Destination = Destination(name: Name, part: Part)

  function Cost(p: Price, part: Part): Option<int> {
    match part
    case CalculatedPart => p.calculated
    case TextPart => p.text
    case AudioPart => p.audio
    case DurationPart => p.duration
    case NoPart => None
  }

  predicate HasText(c: Counters) {
    c.inputText.samples > 0 || c.cachedInputText.samples > 0 || c.outputText.samples > 0
  }

  predicate HasAudio(c: Counters) {
    c.inputAudio.samples > 0 || c.cachedInputAudio.samples > 0 || c.outputAudio.samples > 0
  }

  /** Where a bucket goes. The first destination carries its primary amount; the others are details of it. */
  function Destinations(b: Bucket): seq<Destination> {
    if b.operation.RealtimeResponse? && (b.stage.LiveDisclosureSynthesis? || b.stage.LiveApplicationSynthesis?) then
      [Destination(Realtime, DurationPart), Destination(RealtimeAudio, DurationPart)]
    else if b.operation.RealtimeSession? && b.stage.LiveConversation? then
      [Destination(Realtime, DurationPart), Destination(RealtimeAudio, DurationPart)]
    else match b.operation
      case TextTranslation => [Destination(TextTranslations, CalculatedPart)]
      case CallSummary => [Destination(CallSummaries, CalculatedPart)]
      case AnsweringDetection => [Destination(Telephony, CalculatedPart)]
      case VoicemailTts => [Destination(Telephony, CalculatedPart)]
      case TelephonyLeg => [Destination(Telephony, NoPart)]
      case BriefCompilation => [Destination(BriefCompilations, CalculatedPart)]
      case RealtimeResponse =>
        var text := if HasText(b.counters) then [Destination(RealtimeText, TextPart)] else [];
        var audio := if HasAudio(b.counters) then [Destination(RealtimeAudio, AudioPart)] else [];
        var rest := if text + audio == [] then [Destination(RealtimeText, CalculatedPart)] else text + audio;
        [Destination(Realtime, CalculatedPart)] + rest
      case Transcription =>
        if b.stage.ConversationInputAudio? || b.stage.ConsentInputAudio? then
          [Destination(RealtimeTranscription, CalculatedPart)]
        else [Destination(PostCallTranscription, CalculatedPart)]
      case _ => []
  }

  predicate Incomplete(p: Price) {
    !p.matched || p.calculated.None? || p.unpricedMetrics != []
  }

  function Missing(b: Bucket): int {
    if b.counters.usageRecords > 1 then b.counters.usageRecords else 1
  }

  // ---------------------------------------------------------------- sums

  function PlusMeasure(a: Measure, b: Measure): Measure {
    Measure(a.amount + b.amount, a.samples + b.samples)
  }

  function PlusCounters(a: Counters, b: Counters): Counters {
    Counters(a.usageRecords + b.usageRecords, a.requests + b.requests,
      PlusMeasure(a.inputText, b.inputText), PlusMeasure(a.cachedInputText, b.cachedInputText),
      PlusMeasure(a.cacheWriteInputText, b.cacheWriteInputText), PlusMeasure(a.outputText, b.outputText),
      PlusMeasure(a.reasoningOutput, b.reasoningOutput), PlusMeasure(a.inputAudio, b.inputAudio),
      PlusMeasure(a.cachedInputAudio, b.cachedInputAudio), PlusMeasure(a.outputAudio, b.outputAudio),
      PlusMeasure(a.total, b.total), PlusMeasure(a.duration, b.duration), PlusMeasure(a.billable, b.billable))
  }

  /** Amounts that may be unknown: unknown only while nothing known was added. */
  function PlusAmount(a: Option<int>, b: Option<int>): Option<int> {
    if a.None? then b else if b.None? then a else Some(a.value + b.value)
  }

  const NOTHING := Measure(0, 0)
  const NO_COUNTERS :=
    Counters(0, 0, NOTHING, NOTHING, NOTHING, NOTHING, NOTHING, NOTHING, NOTHING, NOTHING, NOTHING, NOTHING, NOTHING)

  /** What a component holds, apart from the order in which it met its models. */
  datatype Totals = Totals(counters: Counters, incomplete: int, amount: Option<int>, models: set<string>)

  const NO_TOTALS := Totals(NO_COUNTERS, 0, None, {})

  function PlusTotals(a: Totals, b: Totals): Totals {
    Totals(PlusCounters(a.counters, b.counters), a.incomplete + b.incomplete, PlusAmount(a.amount, b.amount),
      a.models + b.models)
  }

  lemma CountersAdd(a: Counters, b: Counters, c: Counters)
    ensures PlusCounters(NO_COUNTERS, a) == a && PlusCounters(a, b) == PlusCounters(b, a)
    ensures PlusCounters(PlusCounters(a, b), c) == PlusCounters(a, PlusCounters(b, c))
  {
  }

  lemma UnionsAdd<T>(a: set<T>, b: set<T>, c: set<T>)
    ensures {} + a == a && a + b == b + a && (a + b) + c == a + (b + c)
  {
  }

  lemma TotalsAdd()
    ensures CommutativeMonoid(PlusTotals, NO_TOTALS)
  {
    hide PlusCounters, NO_COUNTERS;
    forall a ensures PlusTotals(NO_TOTALS, a) == a {
      CountersAdd(a.counters, a.counters, a.counters);
      UnionsAdd(a.models, {}, {});
    }
    forall a, b ensures PlusTotals(a, b) == PlusTotals(b, a) {
      CountersAdd(a.counters, b.counters, b.counters);
      UnionsAdd(a.models, b.models, {});
    }
    forall a, b, c ensures PlusTotals(PlusTotals(a, b), c) == PlusTotals(a, PlusTotals(b, c)) {
      CountersAdd(a.counters, b.counters, c.counters);
      UnionsAdd(a.models, b.models, c.models);
    }
  }

  predicate Counts(b: Bucket) {
    !b.operation.TelephonyLeg?
  }

  /** What one routed destination adds to its component. */
  function Share(p: Price, b: Bucket, part: Part): Totals {
    Totals(b.counters, if Incomplete(p) && Counts(b) then Missing(b) else 0, Cost(p, part), {b.model})
  }

  function PartFor(name: Name, ds: seq<Destination>): Option<Part> {
    if ds == [] then None else if ds[0].name == name then Some(ds[0].part) else PartFor(name, ds[1..])
  }

  function Contribution(price: Bucket -> Price, name: Name, b: Bucket): Totals {
    var part := PartFor(name, Destinations(b));
    if part.None? then NO_TOTALS else Share(price(b), b, part.value)
  }

  /** The specification of a component: the plain sum of what its buckets contribute. */
  function TotalsOf(price: Bucket -> Price, name: Name, bs: seq<Bucket>): Totals {
    Fold(b => Contribution(price, name, b), PlusTotals, NO_TOTALS, bs)
  }

  function Plus(a: int, b: int): int { a + b }

  function Unpriced(price: Bucket -> Price, b: Bucket): int {
    if Destinations(b) != [] && Counts(b) && Incomplete(price(b)) then Missing(b) else 0
  }

  function Relevant(b: Bucket): int {
    if Destinations(b) != [] && Counts(b) then 1 else 0
  }

  function Version(price: Bucket -> Price, b: Bucket): set<string> {
    if Destinations(b) != [] && Counts(b) then {price(b).pricingVersion} else {}
  }

  function Union(a: set<string>, b: set<string>): set<string> { a + b }

  lemma PlainSums()
    ensures CommutativeMonoid(Plus, 0) && CommutativeMonoid(Union, {}) && CommutativeMonoid(PlusAmount, None)
  {
    forall a ensures Union({}, a) == a { UnionsAdd(a, {}, {}); }
    forall a, b ensures Union(a, b) == Union(b, a) { UnionsAdd(a, b, {}); }
    forall a, b, c ensures Union(Union(a, b), c) == Union(a, Union(b, c)) { UnionsAdd(a, b, c); }
  }

  // ---------------------------------------------------------------- request records

  datatype Record = Record(
    id: string,
    startedAt: string,
    operation: Operation,
    stage: Stage,
    model: string,
    provider: string,
    outcome: Option<string>,
    providerReported: bool,
    calculatedUsdMicros: Option<int>,
    missingMetrics: seq<string>)

  function RecordOf(p: Price, b: Bucket): Record {
    var leg := b.operation.TelephonyLeg?;
    Record(b.operationId, b.startedAt, b.operation, b.stage, b.model, b.provider, b.outcome, leg,
      if leg then b.reportedUsdMicros else p.calculated,
      if leg then (if b.reportedUsdMicros.None? then ["pending_price"] else [])
      else if b.counters.usageRecords == 0 then ["usage_unknown_possible_charge"]
      else if !p.matched then ["pricing_version_or_model"]
      else p.unpricedMetrics)
  }

  function RecordsFor(price: Bucket -> Price, b: Bucket): seq<Record> {
    if Destinations(b) != [] && b.operationId != "" && b.startedAt != "" then [RecordOf(price(b), b)] else []
  }

  function RecordsOf(price: Bucket -> Price, bs: seq<Bucket>): seq<Record>
    decreases |bs|
  {
    if bs == [] then [] else RecordsOf(price, bs[..|bs| - 1]) + RecordsFor(price, bs[|bs| - 1])
  }

  /** `collate` stands for the locale order of strings, which may tie different strings. */
  predicate Ties(collate: (string, string) -> bool, x: string, y: string) {
    collate(x, y) && collate(y, x)
  }

  /** Newest first, ties by id. */
  function NewestFirst(collate: (string, string) -> bool): (Record, Record) -> bool {
    (a: Record, b: Record) =>
      if Ties(collate, a.startedAt, b.startedAt) then collate(a.id, b.id) else collate(b.startedAt, a.startedAt)
  }

  const RECENT: nat := 100
  const SHOWN_MODELS: nat := 50

  function OfType(op: Operation, rs: seq<Record>): seq<Record>
    decreases |rs|
  {
    if rs == [] then []
    else OfType(op, rs[..|rs| - 1]) + if rs[|rs| - 1].operation == op then [rs[|rs| - 1]] else []
  }

  /** Keeps a record while fewer than a hundred of its type precede it. */
  function Recent(rs: seq<Record>): seq<Record>
    decreases |rs|
  {
    if rs == [] then []
    else
      var before, last := rs[..|rs| - 1], rs[|rs| - 1];
      Recent(before) + if |OfType(last.operation, before)| < RECENT then [last] else []
  }

  lemma {:induction false} OfTypeAppend(op: Operation, rs: seq<Record>, r: Record)
    ensures OfType(op, rs + [r]) == OfType(op, rs) + if r.operation == op then [r] else []
  {
    assert (rs + [r])[..|rs|] == rs;
  }

  function Take<T>(s: seq<T>, n: nat): seq<T> {
    if n < |s| then s[..n] else s
  }

  /** Of every type exactly the first hundred of the list are kept, in order: each dropped record is
      preceded by a hundred kept ones of its type. */
  lemma {:induction false} RecentKeepsTheFirst(op: Operation, rs: seq<Record>)
    ensures OfType(op, Recent(rs)) == Take(OfType(op, rs), RECENT)
    decreases |rs|
  {
    if rs != [] {
      var before, last := rs[..|rs| - 1], rs[|rs| - 1];
      RecentKeepsTheFirst(op, before);
      OfTypeAppend(op, Recent(before), last);
      assert Recent(before) + [] == Recent(before);
      if last.operation == op {
        assert OfType(op, rs) == OfType(op, before) + [last];
      } else {
        assert OfType(op, rs) == OfType(op, before) + [];
      }
    }
  }

  /** Dropping records does not reorder the others. */
  lemma {:induction false} RecentStaysSorted(le: (Record, Record) -> bool, rs: seq<Record>)
    requires Sorted(le, rs)
    ensures Sorted(le, Recent(rs))
    ensures forall r :: r in Recent(rs) ==> r in rs
    decreases |rs|
  {
    if rs != [] {
      var before, last := rs[..|rs| - 1], rs[|rs| - 1];
      RecentStaysSorted(le, before);
      forall r | r in Recent(before) ensures le(r, last) {
        assert r in before;
        var i :| 0 <= i < |before| && before[i] == r;
        assert le(rs[i], rs[|rs| - 1]);
      }
    }
  }
}
