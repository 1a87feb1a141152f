/**
 * Consolidating the records of a visual review: records that do not show the page asked for are
 * counted and left out; of the others, the last one for each page, width and theme is kept.
 */
module ReviewConsolidation {
  import opened Options

  /** A split URL; the other parts are not looked at. */
  datatype Url = Url(path: string, fragment: string)

  /** An expected theme can be missing, and it can be present as null. */
  datatype Record = Record(name: string, url: Url, requestedWidth: nat, theme: Option<string>,
                           expectedTheme: Option<Option<string>>, validWidth: Option<bool>, loading: bool)

  /** The pages with an expected URL; an empty URL counts as none. */
  type Routes = map<string, Url>

  datatype Verdict = Accepted | SizeThemeOrLoading | RedirectedOrWrongSection

  datatype Key = Key(name: string, width: nat, theme: string)

  datatype Measurement = Measurement(record: Record, chronologicalIndex: nat)

  /** A missing theme or an empty one is no theme; a missing expectation is met, one of null never. */
  predicate RightTheme(r: Record) {
    && r.theme.Some? && r.theme.value != ""
    && (r.expectedTheme.Some? ==> r.expectedTheme.value == r.theme)
  }

  /** A route without a fragment is met by every section of the page. */
  predicate OnRoute(r: Record, routes: Routes) {
    r.name in routes ==>
      var target := routes[r.name];
      r.url.path == target.path && (target.fragment != "" ==> r.url.fragment == target.fragment)
  }

  function VerdictOn(r: Record, routes: Routes): (v: Verdict)
    ensures v == Accepted ==> RightTheme(r)
  {
    if r.validWidth == Some(false) || r.loading || !RightTheme(r) then SizeThemeOrLoading
    else if !OnRoute(r, routes) then RedirectedOrWrongSection
    else Accepted
  }

  /** Why a record is left out: it is of the wrong size, still loading, without a theme or not in the one
      expected; or else it is not on the page that its name asks for. */
  lemma VerdictTells(r: Record, routes: Routes)
    ensures var v := VerdictOn(r, routes);
      var unfit := r.validWidth == Some(false) || r.loading || r.theme == None || r.theme == Some("") ||
        (r.expectedTheme.Some? && r.expectedTheme.value != r.theme);
      var elsewhere := r.name in routes && (r.url.path != routes[r.name].path ||
        (routes[r.name].fragment != "" && r.url.fragment != routes[r.name].fragment));
      && (v.SizeThemeOrLoading? <==> unfit)
      && (v.RedirectedOrWrongSection? <==> !unfit && elsewhere)
      && (v.Accepted? <==> !unfit && !elsewhere)
  {
  }

  function KeyOf(r: Record): Key
    requires RightTheme(r)
  {
    Key(r.name, r.requestedWidth, r.theme.value)
  }

  function Count(records: seq<Record>, routes: Routes, v: Verdict): nat {
    if records == [] then 0
    else Count(records[..|records| - 1], routes, v) + if VerdictOn(records[|records| - 1], routes) == v then 1 else 0
  }

  lemma CountNext(records: seq<Record>, r: Record, routes: Routes, v: Verdict)
    ensures Count(records + [r], routes, v) == Count(records, routes, v) + if VerdictOn(r, routes) == v then 1 else 0
  {
    assert (records + [r])[..|records|] == records;
  }

  /** Every record is accepted or counted under exactly one reason. */
  lemma {:induction false} NoneUncounted(records: seq<Record>, routes: Routes)
    ensures Count(records, routes, Accepted) + Count(records, routes, SizeThemeOrLoading)
      + Count(records, routes, RedirectedOrWrongSection) == |records|
    decreases |records|
  {
    if records != [] {
      NoneUncounted(records[..|records| - 1], routes);
    }
  }

  /** The record with this index was accepted for the key. */
  predicate AcceptedFor(records: seq<Record>, routes: Routes, i: int, key: Key) {
    0 <= i < |records| && VerdictOn(records[i], routes) == Accepted && KeyOf(records[i]) == key
  }

  /** The measurement is the last record accepted for the key, with its index. */
  ghost predicate IsLatest(records: seq<Record>, routes: Routes, m: Measurement, key: Key) {
    && AcceptedFor(records, routes, m.chronologicalIndex, key)
    && (forall j :: AcceptedFor(records, routes, j, key) ==> j <= m.chronologicalIndex)
    && m.record == records[m.chronologicalIndex]
  }

  ghost predicate IsFirst(records: seq<Record>, routes: Routes, i: int, key: Key) {
    AcceptedFor(records, routes, i, key) && forall j :: AcceptedFor(records, routes, j, key) ==> i <= j
  }

  /** Keys in the order of their first acceptance, each with the index of its last one. */
  ghost predicate Consolidated(records: seq<Record>, routes: Routes, keys: seq<Key>, latest: map<Key, Measurement>,
      first: seq<nat>)
  {
    && |first| == |keys|
    && (forall i, j :: 0 <= i < j < |first| ==> first[i] < first[j])
    && (forall i :: 0 <= i < |keys| ==> IsFirst(records, routes, first[i], keys[i]))
    && (forall key :: key in latest <==> key in keys)
    && (forall key :: key in latest ==> IsLatest(records, routes, latest[key], key))
    && (forall i, key :: AcceptedFor(records, routes, i, key) ==> key in latest)
  }

  lemma AcceptedGrows(records: seq<Record>, r: Record, routes: Routes, i: int, key: Key)
    ensures AcceptedFor(records + [r], routes, i, key) <==>
      AcceptedFor(records, routes, i, key) || (i == |records| && VerdictOn(r, routes) == Accepted && KeyOf(r) == key)
  {
  }

  lemma Skip(records: seq<Record>, r: Record, routes: Routes, keys: seq<Key>, latest: map<Key, Measurement>,
      first: seq<nat>)
    requires Consolidated(records, routes, keys, latest, first) && VerdictOn(r, routes) != Accepted
    ensures Consolidated(records + [r], routes, keys, latest, first)
  {
    forall i, key ensures AcceptedFor(records + [r], routes, i, key) <==> AcceptedFor(records, routes, i, key) {
      AcceptedGrows(records, r, routes, i, key);
    }
  }

  lemma Replace(records: seq<Record>, r: Record, routes: Routes, keys: seq<Key>, latest: map<Key, Measurement>,
      first: seq<nat>)
    requires Consolidated(records, routes, keys, latest, first) && VerdictOn(r, routes) == Accepted
    requires KeyOf(r) in latest
    ensures Consolidated(records + [r], routes, keys, latest[KeyOf(r) := Measurement(r, |records|)], first)
  {
    forall i, key ensures AcceptedFor(records + [r], routes, i, key) <==>
      AcceptedFor(records, routes, i, key) || (i == |records| && KeyOf(r) == key)
    {
      AcceptedGrows(records, r, routes, i, key);
    }
    hide AcceptedFor;
    hide VerdictOn;
    hide KeyOf;
  }

  lemma Append(records: seq<Record>, r: Record, routes: Routes, keys: seq<Key>, latest: map<Key, Measurement>,
      first: seq<nat>)
    requires Consolidated(records, routes, keys, latest, first) && VerdictOn(r, routes) == Accepted
    requires KeyOf(r) !in latest
    ensures Consolidated(records + [r], routes, keys + [KeyOf(r)], latest[KeyOf(r) := Measurement(r, |records|)],
      first + [|records|])
  {
    forall i, key ensures AcceptedFor(records + [r], routes, i, key) <==>
      AcceptedFor(records, routes, i, key) || (i == |records| && KeyOf(r) == key)
    {
      AcceptedGrows(records, r, routes, i, key);
    }
    forall i | 0 <= i < |first| ensures first[i] < |records| { assert IsFirst(records, routes, first[i], keys[i]); }
  }

  /**
   * The record loop. A dictionary keeps the position of a key that is assigned again, so the
   * measurements stay in the order of first acceptance.
   */
  method Consolidate(records: seq<Record>, routes: Routes)
    returns (measurements: seq<Measurement>, sizeThemeOrLoading: nat, redirectedOrWrongSection: nat,
             ghost keys: seq<Key>, ghost first: seq<nat>)
    ensures sizeThemeOrLoading == Count(records, routes, SizeThemeOrLoading)
    ensures redirectedOrWrongSection == Count(records, routes, RedirectedOrWrongSection)
    ensures |measurements| == |keys| == |first|
    ensures forall k :: 0 <= k < |keys| ==> IsLatest(records, routes, measurements[k], keys[k])
    ensures forall k :: 0 <= k < |keys| ==> IsFirst(records, routes, first[k], keys[k])
    ensures forall j, k :: 0 <= j < k < |keys| ==> first[j] < first[k]
    ensures forall i, key :: AcceptedFor(records, routes, i, key) ==> key in keys
  {
    var order: seq<Key>, latest: map<Key, Measurement> := [], map[];
    sizeThemeOrLoading, redirectedOrWrongSection, first := 0, 0, [];
    for index := 0 to |records|
      invariant Consolidated(records[..index], routes, order, latest, first)
      invariant sizeThemeOrLoading == Count(records[..index], routes, SizeThemeOrLoading)
      invariant redirectedOrWrongSection == Count(records[..index], routes, RedirectedOrWrongSection)
    {
      var record := records[index];
      ghost var seen := records[..index];
      assert records[..index + 1] == seen + [record];
      CountNext(seen, record, routes, SizeThemeOrLoading);
      CountNext(seen, record, routes, RedirectedOrWrongSection);
      hide Consolidated;
      hide Count;
      hide OnRoute;
      if record.validWidth == Some(false) || record.loading || !RightTheme(record) {
        sizeThemeOrLoading := sizeThemeOrLoading + 1;
        Skip(seen, record, routes, order, latest, first);
        continue;
      }
      if !OnRoute(record, routes) {
        redirectedOrWrongSection := redirectedOrWrongSection + 1;
        Skip(seen, record, routes, order, latest, first);
        continue;
      }
      var key := KeyOf(record);
      if key in latest {
        Replace(seen, record, routes, order, latest, first);
      } else {
        Append(seen, record, routes, order, latest, first);
        order, first := order + [key], first + [index];
      }
      latest := latest[key := Measurement(record, index)];
    }
    assert records[..|records|] == records;
    measurements, keys := seq(|order|, k requires 0 <= k < |order| && order[k] in latest => latest[order[k]]), order;
  }
}
