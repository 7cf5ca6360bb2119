/**
 * The client-side analysis history: a single persistent storage slot holding
 * the list of analysis records, most recent first, with the queries, statistics
 * and import/export built on it.
 *
 * The slot is modelled by what parsing its text yields (`Slot`), so JSON text
 * itself is not modelled. The clock, the fresh identifier and the parsed import
 * document are parameters.
 */
module History {
  import opened Common
  import opened Seqs
  import opened Text
  import opened PestResults

  /** The retention cap applied when an analysis is saved. */
  const MaxHistory: nat := 50

  /** Seven days in milliseconds: the window of "recent" analyses. */
  const WeekMs: int := 7 * 24 * 60 * 60 * 1000

  datatype Metadata = Metadata(cropType: Option<string>, location: Option<string>, notes: Option<string>)

  /**
   * One history record as read back from storage. Records the store writes
   * itself always carry an id, a timestamp and a result, but anything can sit in
   * the slot, so those three may be missing.
   */
  datatype Item = Item(
    id: Option<string>,
    timestamp: Option<Stamp>,
    imageData: string,
    result: Option<AnalysisResult>,
    cropType: Option<string>,
    location: Option<string>,
    notes: Option<string>)

  /**
   * A stored timestamp: the ISO text `JSON.stringify` writes for a valid `Date`
   * (here its time in milliseconds), any other text together with the time a
   * `Date` parses from it, if any, or a JSON `null`, which is what
   * `JSON.stringify` writes for an invalid `Date`.
   */
  datatype Stamp = Written(ms: int) | Raw(text: string, parsed: Option<int>) | Null

  /**
   * The time of the `Date` that `getHistory` makes of a record's timestamp;
   * `None` for an invalid date. A missing timestamp is an invalid date, and
   * `new Date(null)` is time 0.
   */
  function Time(it: Item): Option<int>
  {
    if it.timestamp.None? then None
    else match it.timestamp.value
      case Written(ms) => Some(ms)
      case Raw(_, parsed) => parsed
      case Null => Some(0)
  }

  /** A record with its timestamp removed: everything `getHistory` copies unchanged. */
  function Untimed(it: Item): Item
  {
    it.(timestamp := None)
  }

  /**
   * A record as it is written back after `getHistory` read it: its timestamp
   * became a `Date`, which `JSON.stringify` writes as ISO text when valid and as
   * `null` when invalid; every other field is copied.
   */
  function Serialised(it: Item): (s: Item)
    ensures Untimed(s) == Untimed(it)
    ensures Time(it).Some? ==> s.timestamp == Some(Written(Time(it).value)) && Time(s) == Time(it)
    ensures Time(it).None? ==> s.timestamp == Some(Null) && Time(s) == Some(0)
  {
    it.(timestamp := Some(if Time(it).Some? then Written(Time(it).value) else Null))
  }

  /** Writing back a record the store wrote itself changes nothing. */
  lemma SerialisedWritten(it: Item)
    requires it.timestamp.Some? && it.timestamp.value.Written?
    ensures Serialised(it) == it
  {
  }

  /**
   * Repeated writes settle: the time read back is fixed after the first write,
   * and the record itself after the second (a `null` reads back as time 0 and
   * is written as that time from then on).
   */
  lemma SerialisedSettles(it: Item)
    ensures Time(Serialised(Serialised(it))) == Time(Serialised(it))
    ensures Serialised(Serialised(Serialised(it))) == Serialised(Serialised(it))
  {
  }

  /** The records of a list, each written back as `JSON.stringify(history)` does. */
  function Rewritten(h: seq<Item>): (r: seq<Item>)
    ensures |r| == |h|
    ensures forall i :: 0 <= i < |h| ==> r[i] == Serialised(h[i])
  {
    if h == [] then [] else [Serialised(h[0])] + Rewritten(h[1..])
  }

  /** Two lists hold the same records in the same order, timestamps aside. */
  predicate SameUpToTimes(a: seq<Item>, b: seq<Item>)
  {
    |a| == |b| && forall i :: 0 <= i < |a| ==> Untimed(a[i]) == Untimed(b[i])
  }

  /**
   * What the storage slot holds: nothing, text that does not read back as an
   * array of records (empty, unparseable, or not an array), or a list of records.
   */
  datatype Slot = Absent | Corrupt | Stored(items: seq<Item>)

  /** What `JSON.parse` makes of a document handed to the import. */
  datatype Json = Unparseable | NotAnArray | ArrayOf(elements: seq<Item>)

  /** `getHistory`: every read failure degrades to the empty history, nothing is raised. */
  function Read(slot: Slot): (h: seq<Item>)
    ensures slot.Stored? ==> h == slot.items
    ensures !slot.Stored? ==> h == []
  {
    match slot
    case Stored(items) => items
    case _ => []
  }

  // ---------------------------------------------------------------- saving

  /** The record `saveAnalysis` builds: optional metadata fields are copied, or left absent without metadata. */
  function NewItem(analysis: AnalysisResult, imageData: string, metadata: Option<Metadata>, id: string, now: int): Item
  {
    Item(
      Some(id), Some(Written(now)), imageData, Some(analysis),
      if metadata.Some? then metadata.value.cropType else None,
      if metadata.Some? then metadata.value.location else None,
      if metadata.Some? then metadata.value.notes else None)
  }

  /**
   * The list `saveAnalysis` writes after reading `h`: the new record first, then
   * the old ones in order, cut to the cap, each written back with its timestamp
   * serialised.
   */
  function SaveStep(h: seq<Item>, item: Item): (r: seq<Item>)
    ensures |r| == Min(|h| + 1, MaxHistory)
    ensures r[0] == Serialised(item)
    ensures forall i :: 1 <= i < |r| ==> r[i] == Serialised(h[i - 1])
  {
    var prepended := [item] + h;
    Rewritten(if |prepended| > MaxHistory then prepended[..MaxHistory] else prepended)
  }

  /** The history after saving `items` one after the other, in call order, starting from `h`. */
  function SaveAll(h: seq<Item>, items: seq<Item>): seq<Item>
  {
    if items == [] then h else SaveStep(SaveAll(h, items[..|items| - 1]), items[|items| - 1])
  }

  function Reverse<T>(s: seq<T>): (r: seq<T>)
    ensures |r| == |s|
  {
    if s == [] then [] else Reverse(s[1..]) + [s[0]]
  }

  lemma {:induction false} ReverseAt<T>(s: seq<T>, k: nat)
    requires k < |s|
    ensures Reverse(s)[k] == s[|s| - 1 - k]
  {
    if k < |s| - 1 {
      ReverseAt(s[1..], k);
    }
  }

  lemma {:induction false} ReverseSnoc<T>(s: seq<T>, x: T)
    ensures Reverse(s + [x]) == [x] + Reverse(s)
  {
    if s != [] {
      assert (s + [x])[1..] == s[1..] + [x];
      ReverseSnoc(s[1..], x);
    } else {
      assert s + [x] == [x];
    }
  }

  /** A save treats two lists that differ only in their timestamps alike, timestamps aside. */
  lemma SaveStepSame(before: seq<Item>, x: Item, a: seq<Item>)
    requires SameUpToTimes(before, a)
    ensures SameUpToTimes(SaveStep(before, x), ([x] + a)[..Min(|a| + 1, MaxHistory)])
  {
    var after := SaveStep(before, x);
    var expected := ([x] + a)[..Min(|a| + 1, MaxHistory)];
    forall i | 0 <= i < |after| ensures Untimed(after[i]) == Untimed(expected[i]) {
      if i > 0 {
        assert Untimed(before[i - 1]) == Untimed(a[i - 1]);
      }
    }
  }

  /** Capping a list before putting a record in front of it and capping again is capping once. */
  lemma ConsCap<T>(x: T, a: seq<T>)
    ensures ([x] + a[..Min(|a|, MaxHistory)])[..Min(Min(|a|, MaxHistory) + 1, MaxHistory)]
         == ([x] + a)[..Min(|a| + 1, MaxHistory)]
  {
  }

  /**
   * Repeated saves keep the records most recent first: after saving `items` in
   * call order, the history is those records in reverse call order followed by
   * the earlier history, cut to the cap, up to the rewriting of timestamps.
   */
  lemma {:induction false} RepeatedSaves(h: seq<Item>, items: seq<Item>)
    requires |items| > 0
    ensures SameUpToTimes(SaveAll(h, items), (Reverse(items) + h)[..Min(|items| + |h|, MaxHistory)])
  {
    var p := items[..|items| - 1];
    var x := items[|items| - 1];
    assert items == p + [x];
    assert SaveAll(h, items) == SaveStep(SaveAll(h, p), x);
    if p == [] {
      FirstSave(h, x);
    } else {
      RepeatedSaves(h, p);
      ReverseFront(p, x, h);
      SaveOneMore(SaveAll(h, p), Reverse(p) + h, x);
    }
  }

  /** The base case of `RepeatedSaves`: one save into `h`. */
  lemma FirstSave(h: seq<Item>, x: Item)
    ensures SameUpToTimes(SaveStep(h, x), (Reverse([x]) + h)[..Min(1 + |h|, MaxHistory)])
  {
    ReverseSnoc([], x);
    assert [] + [x] == [x];
    SaveStepSame(h, x, h);
  }

  lemma ReverseFront<T>(p: seq<T>, x: T, h: seq<T>)
    ensures Reverse(p + [x]) + h == [x] + (Reverse(p) + h)
    ensures |Reverse(p) + h| == |p| + |h|
  {
    ReverseSnoc(p, x);
  }

  /** The induction step of `RepeatedSaves`: one more save puts its record in front. */
  lemma SaveOneMore(before: seq<Item>, a: seq<Item>, x: Item)
    requires SameUpToTimes(before, a[..Min(|a|, MaxHistory)])
    ensures SameUpToTimes(SaveStep(before, x), ([x] + a)[..Min(|a| + 1, MaxHistory)])
  {
    SaveStepSame(before, x, a[..Min(|a|, MaxHistory)]);
    ConsCap(x, a);
  }

  /**
   * The cap evicts the oldest records: once at least `MaxHistory` records with
   * distinct ids have been saved into an empty history, the history holds exactly
   * `MaxHistory` records and none of the earliest `|items| - MaxHistory` ids.
   */
  lemma OldestEvicted(items: seq<Item>, j: nat)
    requires |items| >= MaxHistory
    requires forall a, b :: 0 <= a < b < |items| ==> items[a].id != items[b].id
    requires j < |items| - MaxHistory
    ensures |SaveAll([], items)| == MaxHistory
    ensures forall k :: 0 <= k < MaxHistory ==> SaveAll([], items)[k].id != items[j].id
  {
    RepeatedSaves([], items);
    assert Reverse(items) + [] == Reverse(items);
    var saved := SaveAll([], items);
    forall k | 0 <= k < MaxHistory ensures saved[k].id != items[j].id {
      ReverseAt(items, k);
      assert Untimed(saved[k]) == Untimed(Reverse(items)[k]);
    }
  }

  // ---------------------------------------------------------------- lookup and delete

  /** `history.find(item => item.id === id) || null`. */
  function FindById(h: seq<Item>, id: string): (r: Option<Item>)
    ensures r.None? <==> forall i :: 0 <= i < |h| ==> h[i].id != Some(id)
    ensures r.Some? ==> r.value.id == Some(id)
    ensures r.Some? ==>
              exists i :: 0 <= i < |h| && h[i] == r.value && forall j :: 0 <= j < i ==> h[j].id != Some(id)
  {
    if h == [] then None
    else if h[0].id == Some(id) then Some(h[0])
    else
      var r := FindById(h[1..], id);
      assert forall i :: 1 <= i < |h| ==> h[i] == h[1..][i - 1];
      if r.Some? then
        var i :| 0 <= i < |h[1..]| && h[1..][i] == r.value && forall j :: 0 <= j < i ==> h[1..][j].id != Some(id);
        assert h[i + 1] == r.value;
        r
      else r
  }

  /** The filter predicate of `deleteAnalysis`: `item.id !== id`. */
  function KeepsOtherIds(id: string): Item -> bool
  {
    (it: Item) => it.id != Some(id)
  }

  // ---------------------------------------------------------------- statistics

  datatype HistoryStats = HistoryStats(
    totalAnalyses: nat,
    pestDetections: nat,
    mostCommonPest: Option<string>,
    recentAnalyses: nat,
    averageConfidence: real)

  predicate AllHaveResults(h: seq<Item>)
  {
    forall i :: 0 <= i < |h| ==> h[i].result.Some?
  }

  /** Every result present reports a pest exactly when it lists a detection. */
  predicate AllConsistent(h: seq<Item>)
  {
    forall i :: 0 <= i < |h| ==> h[i].result.Some? ==> Consistent(h[i].result.value)
  }

  /** The results of the records, in order. */
  function Results(h: seq<Item>): (rs: seq<AnalysisResult>)
    requires AllHaveResults(h)
    ensures |rs| == |h|
  {
    if h == [] then [] else [h[0].result.value] + Results(h[1..])
  }

  predicate ItemInfested(it: Item)
  {
    it.result.Some? && it.result.value.hasPest
  }

  /** `item.timestamp >= since`; an unreadable date compares false. */
  function TakenSince(since: int): Item -> bool
  {
    (it: Item) => Time(it).Some? && Time(it).value >= since
  }

  /** `history.flatMap(item => item.result.detections.map(d => d.pestType))`. */
  function ItemPestLabels(h: seq<Item>): seq<string>
    requires AllHaveResults(h)
  {
    if h == [] then [] else Labels(h[0].result.value) + ItemPestLabels(h[1..])
  }

  /** The sum over records of their results' mean confidences. */
  function ItemMeanSum(h: seq<Item>): real
    requires AllHaveResults(h)
  {
    if h == [] then 0.0 else MeanConfidence(h[0].result.value) + ItemMeanSum(h[1..])
  }

  /**
   * `getHistoryStats` at time `now`. Reading `item.result.hasPest` throws when a
   * record has no result, which the first filter does for every record.
   */
  function GetHistoryStats(h: seq<Item>, now: int): (r: Completion<HistoryStats>)
    ensures r.TypeError? <==> !AllHaveResults(h)
    ensures r.Normal? ==> r.value.totalAnalyses == |h|
    ensures r.Normal? ==> r.value.pestDetections <= r.value.totalAnalyses
    ensures r.Normal? ==> r.value.recentAnalyses <= r.value.totalAnalyses
    ensures r.Normal? ==> (r.value.recentAnalyses == 0 <==>
      forall i :: 0 <= i < |h| ==> Time(h[i]).None? || Time(h[i]).value < now - WeekMs)
    ensures h == [] ==> r == Normal(HistoryStats(0, 0, None, 0, 0.0))
  {
    if exists i | 0 <= i < |h| :: h[i].result.None? then TypeError
    else
      var recent := Filter(h, TakenSince(now - WeekMs));
      assert |recent| == 0 <==> forall i :: 0 <= i < |h| ==> Time(h[i]).None? || Time(h[i]).value < now - WeekMs by {
        if i :| 0 <= i < |h| && Time(h[i]).Some? && Time(h[i]).value >= now - WeekMs {
          assert h[i] in recent;
        }
        if |recent| > 0 {
          assert recent[0] in h && TakenSince(now - WeekMs)(recent[0]);
        }
      }
      Normal(HistoryStats(
        |h|,
        |Filter(h, ItemInfested)|,
        MostCommonPest(ItemPestLabels(h)),
        |recent|,
        if |h| > 0 then ItemMeanSum(h) / (|h| as real) else 0.0))
  }

  lemma {:induction false} ItemAggregatesAgree(h: seq<Item>)
    requires AllHaveResults(h)
    ensures |Filter(h, ItemInfested)| == |Filter(Results(h), Infested)|
    ensures ItemPestLabels(h) == PestLabels(Results(h))
    ensures ItemMeanSum(h) == SumOfMeans(Results(h))
  {
    if h != [] {
      ItemAggregatesAgree(h[1..]);
      assert Results(h)[0] == h[0].result.value;
      assert Results(h)[1..] == Results(h[1..]);
    }
  }

  /**
   * The history statistics and `getAnalysisStats` over the same results agree on
   * every field they share.
   */
  lemma HistoryStatsAgree(h: seq<Item>, now: int)
    requires AllHaveResults(h)
    ensures GetHistoryStats(h, now).Normal?
    ensures var s := GetHistoryStats(h, now).value;
            var a := GetAnalysisStats(Results(h));
            s.totalAnalyses == a.totalAnalyses && s.pestDetections == a.pestDetections &&
            s.mostCommonPest == a.mostCommonPest && s.averageConfidence == a.averageConfidence
  {
    ItemAggregatesAgree(h);
  }

  // ---------------------------------------------------------------- filtering

  /** The optional criteria of `filterHistory`. */
  datatype Criteria = Criteria(
    hasPest: Option<bool>,
    dateFrom: Option<int>,
    dateTo: Option<int>,
    cropType: Option<string>,
    pestType: Option<string>)

  /** `item.result.hasPest === want`. */
  function PestFlagIs(want: bool): Item -> bool
  {
    (it: Item) => it.result.Some? && it.result.value.hasPest == want
  }

  /** `item.timestamp <= until`. */
  function TakenUntil(until: int): Item -> bool
  {
    (it: Item) => Time(it).Some? && Time(it).value <= until
  }

  /** `item.cropType?.toLowerCase().includes(needle.toLowerCase())`: a record without crop type never matches. */
  function CropIncludes(needle: string): Item -> bool
  {
    (it: Item) => it.cropType.Some? && ContainsIgnoringCase(it.cropType.value, needle)
  }

  /** Some detection's pest type contains `needle`, ignoring case. */
  function PestTypeIncludes(needle: string): Item -> bool
  {
    (it: Item) => it.result.Some? &&
      exists d :: d in it.result.value.detections && ContainsIgnoringCase(d.pestType, needle)
  }

  // Each criterion, true when it is not supplied. `hasPest` counts when it is
  // not undefined, the other four only when truthy.
  predicate PestFlagOk(c: Criteria, it: Item) { c.hasPest.None? || PestFlagIs(c.hasPest.value)(it) }
  predicate FromOk(c: Criteria, it: Item) { c.dateFrom.None? || TakenSince(c.dateFrom.value)(it) }
  predicate UntilOk(c: Criteria, it: Item) { c.dateTo.None? || TakenUntil(c.dateTo.value)(it) }
  predicate CropOk(c: Criteria, it: Item) { !Truthy(c.cropType) || CropIncludes(c.cropType.value)(it) }
  predicate PestTypeOk(c: Criteria, it: Item) { !Truthy(c.pestType) || PestTypeIncludes(c.pestType.value)(it) }

  /** The first `k` criteria in the order `filterHistory` applies them, all at once. */
  function Stage(c: Criteria, k: nat): Item -> bool
  {
    (it: Item) => (k < 1 || PestFlagOk(c, it)) && (k < 2 || FromOk(c, it)) && (k < 3 || UntilOk(c, it)) &&
          (k < 4 || CropOk(c, it)) && (k < 5 || PestTypeOk(c, it))
  }

  /** The conjunction of every supplied criterion. */
  function MatchesAll(c: Criteria): Item -> bool
  {
    Stage(c, 5)
  }

  /** Whether the criterion `filterHistory` applies as its step `k + 1` was supplied. */
  predicate Supplied(c: Criteria, k: nat)
  {
    match k
    case 0 => c.hasPest.Some?
    case 1 => c.dateFrom.Some?
    case 2 => c.dateTo.Some?
    case 3 => Truthy(c.cropType)
    case _ => Truthy(c.pestType)
  }

  /** The filter predicate of step `k + 1`. */
  function Criterion(c: Criteria, k: nat): Item -> bool
    requires k < 5 && Supplied(c, k)
  {
    match k
    case 0 => PestFlagIs(c.hasPest.value)
    case 1 => TakenSince(c.dateFrom.value)
    case 2 => TakenUntil(c.dateTo.value)
    case 3 => CropIncludes(c.cropType.value)
    case _ => PestTypeIncludes(c.pestType.value)
  }

  lemma StageZero(h: seq<Item>, c: Criteria)
    ensures Filter(h, Stage(c, 0)) == h
  {
    FilterKeepsAll(h, Stage(c, 0));
  }

  /**
   * Applying step `k + 1` to what the first `k` steps kept is filtering once by
   * the first `k + 1` criteria; a criterion not supplied changes nothing.
   */
  lemma StageAdvance(h: seq<Item>, c: Criteria, k: nat)
    requires k < 5
    ensures Supplied(c, k) ==> Filter(Filter(h, Stage(c, k)), Criterion(c, k)) == Filter(h, Stage(c, k + 1))
    ensures !Supplied(c, k) ==> Filter(h, Stage(c, k)) == Filter(h, Stage(c, k + 1))
  {
    if Supplied(c, k) {
      FilterFilter(h, Stage(c, k), Criterion(c, k), Stage(c, k + 1));
    } else {
      FilterCongruent(h, Stage(c, k), Stage(c, k + 1));
    }
  }

  /**
   * When `filterHistory` throws: the `hasPest` filter reads the result of every
   * record, the `pestType` filter that of every record the date and crop filters let through.
   */
  predicate FilterThrows(h: seq<Item>, c: Criteria)
  {
    (c.hasPest.Some? && SomeResultless(h)) || (Truthy(c.pestType) && ResultlessReachesPestType(h, c))
  }

  /** Some record has no result. */
  predicate SomeResultless(h: seq<Item>)
  {
    exists i :: 0 <= i < |h| && h[i].result.None?
  }

  /** Some record without result passes the date and crop criteria. */
  predicate ResultlessReachesPestType(h: seq<Item>, c: Criteria)
  {
    exists i :: 0 <= i < |h| && h[i].result.None? && FromOk(c, h[i]) && UntilOk(c, h[i]) && CropOk(c, h[i])
  }

  /**
   * The `pestType` step throws on the records the first four steps kept; when
   * the `hasPest` step did not throw, those are the resultless records the date
   * and crop criteria let through.
   */
  lemma PestTypeStepThrows(h: seq<Item>, c: Criteria)
    requires c.hasPest.None? || !SomeResultless(h)
    ensures SomeResultless(Filter(h, Stage(c, 4))) <==> ResultlessReachesPestType(h, c)
  {
    var kept := Filter(h, Stage(c, 4));
    if i :| 0 <= i < |kept| && kept[i].result.None? {
      assert kept[i] in h;
      var j :| 0 <= j < |h| && h[j] == kept[i];
      assert Stage(c, 4)(h[j]);
    }
    if j :| 0 <= j < |h| && h[j].result.None? && FromOk(c, h[j]) && UntilOk(c, h[j]) && CropOk(c, h[j]) {
      assert Stage(c, 4)(h[j]);
      assert h[j] in kept;
    }
  }

  // ---------------------------------------------------------------- import

  /** The raw timestamp is truthy: present, not `null` and, as text, not empty. */
  predicate StampTruthy(it: Item)
  {
    it.timestamp.Some? &&
    match it.timestamp.value
    case Written(_) => true
    case Raw(text, _) => text != ""
    case Null => false
  }

  /** A record written back passes the import check exactly when it had an id, a valid date and a result. */
  lemma SerialisedImportable(it: Item)
    ensures Importable(Serialised(it)) <==> Truthy(it.id) && Time(it).Some? && it.result.Some?
  {
  }

  /** The import's check of one element: truthy `id`, `timestamp` and `result`. */
  predicate Importable(it: Item)
  {
    Truthy(it.id) && StampTruthy(it) && it.result.Some?
  }

  // ---------------------------------------------------------------- the store

  /** The `HistoryService` singleton; `slot` is the storage entry `agro_ia_analysis_history`. */
  class HistoryStore {
    var slot: Slot

    constructor (initial: Slot)
      ensures slot == initial
    {
      slot := initial;
    }

    /** `getHistory()`. */
    function History(): seq<Item>
      reads this
    {
      Read(slot)
    }

    /** `saveAnalysis`, with the clock reading and the generated id as parameters. */
    method SaveAnalysis(analysis: AnalysisResult, imageData: string, metadata: Option<Metadata>, id: string, now: int)
      returns (item: Item)
      modifies this
      ensures item.id == Some(id) && item.timestamp == Some(Written(now))
      ensures item.imageData == imageData && item.result == Some(analysis)
      ensures metadata.None? ==> item.cropType.None? && item.location.None? && item.notes.None?
      ensures metadata.Some? ==>
                item.cropType == metadata.value.cropType && item.location == metadata.value.location &&
                item.notes == metadata.value.notes
      ensures slot == Stored(SaveStep(old(History()), item))
      ensures |History()| == Min(|old(History())| + 1, MaxHistory)
      ensures History()[0] == item
      ensures forall i :: 1 <= i < |History()| ==>
                Untimed(History()[i]) == Untimed(old(History())[i - 1]) &&
                History()[i] == Serialised(old(History())[i - 1])
      ensures old(AllHaveResults(History())) ==> AllHaveResults(History())
      ensures old(AllConsistent(History())) && Consistent(analysis) ==> AllConsistent(History())
    {
      item := NewItem(analysis, imageData, metadata, id, now);
      var history := History();
      history := [item] + history;
      if |history| > MaxHistory {
        history := history[..MaxHistory];
      }
      slot := Stored(Rewritten(history));
      SerialisedWritten(item);
    }

    /** `deleteAnalysis`: the slot is rewritten only when some record had the id. */
    method DeleteAnalysis(id: string) returns (removed: bool)
      modifies this
      ensures removed <==> exists i :: 0 <= i < |old(History())| && old(History())[i].id == Some(id)
      ensures removed ==> slot == Stored(Rewritten(Filter(old(History()), KeepsOtherIds(id))))
      ensures removed ==> forall i :: 0 <= i < |History()| ==> History()[i].id != Some(id)
      ensures !removed ==> slot == old(slot)
      ensures old(AllHaveResults(History())) ==> AllHaveResults(History())
      ensures old(AllConsistent(History())) ==> AllConsistent(History())
    {
      var history := History();
      var filtered := Filter(history, KeepsOtherIds(id));
      FilterKeepsAll(history, KeepsOtherIds(id));
      if |filtered| == |history| {
        return false;
      }
      slot := Stored(Rewritten(filtered));
      removed := true;
      assert forall i :: 0 <= i < |filtered| ==> filtered[i] in history;
    }

    /** `filterHistory`: the supplied criteria are applied one after the other to `getHistory()`. */
    method FilterHistory(c: Criteria) returns (r: Completion<seq<Item>>)
      ensures r.TypeError? <==> FilterThrows(History(), c)
      ensures r.Normal? ==> r.value == Filter(History(), MatchesAll(c))
    {
      var history := History();
      ghost var all := history;
      StageZero(all, c);

      StageAdvance(all, c, 0);
      if c.hasPest.Some? {
        if SomeResultless(history) {
          return TypeError;
        }
        history := Filter(history, PestFlagIs(c.hasPest.value));
      }
      StageAdvance(all, c, 1);
      if c.dateFrom.Some? {
        history := Filter(history, TakenSince(c.dateFrom.value));
      }
      StageAdvance(all, c, 2);
      if c.dateTo.Some? {
        history := Filter(history, TakenUntil(c.dateTo.value));
      }
      StageAdvance(all, c, 3);
      if Truthy(c.cropType) {
        history := Filter(history, CropIncludes(c.cropType.value));
      }
      assert history == Filter(all, Stage(c, 4));

      StageAdvance(all, c, 4);
      if Truthy(c.pestType) {
        PestTypeStepThrows(all, c);
        if SomeResultless(history) {
          return TypeError;
        }
        history := Filter(history, PestTypeIncludes(c.pestType.value));
      }
      r := Normal(history);
    }

    /**
     * `exportHistory`: the document lists the current history in order, each
     * record with its timestamp serialised (`null` for an invalid date).
     */
    function ExportHistory(): (doc: Json)
      reads this
      ensures doc.ArrayOf? && |doc.elements| == |History()|
      ensures forall i :: 0 <= i < |History()| ==> doc.elements[i] == Serialised(History()[i])
    {
      ArrayOf(Rewritten(History()))
    }

    /**
     * `importHistory`: the document must be an array whose every element passes
     * the check; it then replaces the slot verbatim, without the retention cap.
     */
    method ImportHistory(doc: Json) returns (ok: bool)
      modifies this
      ensures ok <==> doc.ArrayOf? && forall i :: 0 <= i < |doc.elements| ==> Importable(doc.elements[i])
      ensures ok ==> slot == Stored(doc.elements) && AllHaveResults(History())
      ensures !ok ==> slot == old(slot)
    {
      if !doc.ArrayOf? {
        return false;
      }
      var items := doc.elements;
      for i := 0 to |items|
        invariant forall j :: 0 <= j < i ==> Importable(items[j])
      {
        if !Importable(items[i]) {
          return false;
        }
      }
      slot := Stored(items);
      ok := true;
    }

    /** `clearHistory`: the slot is removed. */
    method ClearHistory()
      modifies this
      ensures slot == Absent
      ensures History() == []
    {
      slot := Absent;
    }
  }

  /**
   * Exporting and importing the result back: the import succeeds exactly when
   * every record has an id, a valid date and a result, and then the history reads
   * back as before, up to the textual form of its timestamps; otherwise nothing
   * changes.
   */
  method ExportImportRoundTrip(store: HistoryStore) returns (ok: bool)
    modifies store
    ensures ok <==>
              forall i :: 0 <= i < |old(store.History())| ==>
                var it := old(store.History())[i]; Truthy(it.id) && Time(it).Some? && it.result.Some?
    ensures ok ==> store.slot == Stored(Rewritten(old(store.History())))
    ensures ok ==> |store.History()| == |old(store.History())|
    ensures ok ==>
              forall i :: 0 <= i < |store.History()| ==>
                Untimed(store.History()[i]) == Untimed(old(store.History())[i]) &&
                Time(store.History()[i]) == Time(old(store.History())[i])
    ensures !ok ==> store.slot == old(store.slot)
  {
    var doc := store.ExportHistory();
    forall i | 0 <= i < |doc.elements| {
      SerialisedImportable(store.History()[i]);
    }
    ok := store.ImportHistory(doc);
  }

  /** Deleting the same id twice: the second call finds nothing to remove and writes nothing. */
  method DeleteTwice(store: HistoryStore, id: string) returns (first: bool, second: bool)
    modifies store
    ensures first <==> exists i :: 0 <= i < |old(store.History())| && old(store.History())[i].id == Some(id)
    ensures !second
    ensures forall i :: 0 <= i < |store.History()| ==> store.History()[i].id != Some(id)
  {
    first := store.DeleteAnalysis(id);
    second := store.DeleteAnalysis(id);
  }
}
