/**
 * The history dialog's quick filters and per-record summary line. The dialog
 * works on the list `getHistory` returned when it was opened.
 */
module HistoryView {
  import opened Common
  import opened Seqs
  import opened Text
  import opened PestResults
  import opened History

  /**
   * The dialog state `applyFilter` leaves behind: the active filter is set
   * first, then the filtered list, which stays as it was when the filter throws.
   */
  datatype FilterView = FilterView(activeFilter: string, filtered: Completion<seq<Item>>)

  /** `applyFilter(filter)` at time `now`, on the dialog's copy of the history. */
  function ApplyFilter(history: seq<Item>, filter: string, now: int): (v: FilterView)
    ensures v.activeFilter == filter
    ensures (filter == "withPests" || filter == "withoutPests") ==> (v.filtered.TypeError? <==> SomeResultless(history))
    ensures filter == "withPests" && !SomeResultless(history) ==> v.filtered == Normal(Filter(history, PestFlagIs(true)))
    ensures filter == "withoutPests" && !SomeResultless(history) ==> v.filtered == Normal(Filter(history, PestFlagIs(false)))
    ensures filter == "recent" ==> v.filtered == Normal(Filter(history, TakenSince(now - WeekMs)))
    ensures filter == "withPests" && v.filtered.Normal? ==>
              forall it :: it in v.filtered.value <==> it in history && it.result.value.hasPest
    ensures filter == "withoutPests" && v.filtered.Normal? ==>
              forall it :: it in v.filtered.value <==> it in history && !it.result.value.hasPest
    ensures filter == "recent" ==> v.filtered.Normal?
    ensures filter == "recent" ==>
              forall it :: it in v.filtered.value <==> it in history && Time(it).Some? && Time(it).value >= now - WeekMs
    ensures filter !in {"withPests", "withoutPests", "recent"} ==> v.filtered == Normal(history)
  {
    var filtered :=
      if filter == "withPests" then
        (if SomeResultless(history) then TypeError else Normal(Filter(history, PestFlagIs(true))))
      else if filter == "withoutPests" then
        (if SomeResultless(history) then TypeError else Normal(Filter(history, PestFlagIs(false))))
      else if filter == "recent" then
        Normal(Filter(history, TakenSince(now - WeekMs)))
      else
        Normal(history);
    FilterView(filter, filtered)
  }

  /**
   * The two pest filters split the history: every record is in exactly one of
   * them, each keeps the history's order, and their sizes add up to the whole.
   */
  lemma PestFiltersPartition(history: seq<Item>, now: int)
    requires AllHaveResults(history)
    ensures !SomeResultless(history)
    ensures var withPests := ApplyFilter(history, "withPests", now).filtered.value;
            var withoutPests := ApplyFilter(history, "withoutPests", now).filtered.value;
            |withPests| + |withoutPests| == |history| &&
            multiset(withPests) + multiset(withoutPests) == multiset(history)
  {
    NoneResultless(history);
    PartitionWhenResults(history);
  }

  lemma PartitionWhenResults(h: seq<Item>)
    requires AllHaveResults(h)
    ensures |Filter(h, PestFlagIs(true))| + |Filter(h, PestFlagIs(false))| == |h|
    ensures multiset(Filter(h, PestFlagIs(true))) + multiset(Filter(h, PestFlagIs(false))) == multiset(h)
  {
    var withoutPests := (it: Item) => !PestFlagIs(true)(it);
    forall it: Item | it.result.Some? ensures PestFlagIs(false)(it) == withoutPests(it) {
      assert PestFlagIs(false)(it) == !it.result.value.hasPest;
      assert PestFlagIs(true)(it) == it.result.value.hasPest;
    }
    FilterCongruentOn(h, PestFlagIs(false), withoutPests);
    FilterPartition(h, PestFlagIs(true), withoutPests);
  }

  lemma NoneResultless(history: seq<Item>)
    requires AllHaveResults(history)
    ensures !SomeResultless(history)
  {
  }

  /** The "with pests" quick filter shows as many records as the statistics count pest detections. */
  lemma WithPestsMatchesStats(history: seq<Item>, now: int)
    requires AllHaveResults(history)
    ensures !SomeResultless(history)
    ensures |ApplyFilter(history, "withPests", now).filtered.value| == GetHistoryStats(history, now).value.pestDetections
  {
    NoneResultless(history);
    FilterCongruentOn(history, ItemInfested, PestFlagIs(true));
  }

  /** The "without pests" quick filter shows the records the dashboard reports as pest-free. */
  lemma WithoutPestsMatchesStats(history: seq<Item>, now: int)
    requires AllHaveResults(history)
    ensures !SomeResultless(history)
    ensures var s := GetHistoryStats(history, now).value;
            |ApplyFilter(history, "withoutPests", now).filtered.value| == s.totalAnalyses - s.pestDetections
  {
    NoneResultless(history);
    WithPestsMatchesStats(history, now);
    PartitionWhenResults(history);
  }

  /** The "recent" quick filter and the weekly count of the statistics agree. */
  lemma RecentMatchesStats(history: seq<Item>, now: int)
    requires AllHaveResults(history)
    ensures |ApplyFilter(history, "recent", now).filtered.value| == GetHistoryStats(history, now).value.recentAnalyses
  {
  }

  /** Filtering a history whose records all have results does not see how a predicate treats records without one. */
  lemma {:induction false} FilterCongruentOn(h: seq<Item>, p: Item -> bool, q: Item -> bool)
    requires AllHaveResults(h)
    requires forall it: Item :: it.result.Some? ==> p(it) == q(it)
    ensures Filter(h, p) == Filter(h, q)
  {
    if h != [] {
      assert AllHaveResults(h[1..]) by {
        forall i | 0 <= i < |h[1..]| ensures h[1..][i].result.Some? {
          assert h[1..][i] == h[i + 1];
        }
      }
      FilterCongruentOn(h[1..], p, q);
    }
  }

  /** `${n > 1 ? 's' : ''}`: the plural suffix. */
  function Plural(n: nat): string
  {
    if n > 1 then "s" else ""
  }

  /**
   * `getSummaryText`: the number of detections with "plaga(s) detectada(s)",
   * plural exactly when there is more than one, or "Sin plagas detectadas".
   */
  function SummaryText(item: Item): (r: Completion<string>)
    ensures r.TypeError? <==> item.result.None?
    ensures r.Normal? && !item.result.value.hasPest ==> r.value == "Sin plagas detectadas"
    ensures r.Normal? && item.result.value.hasPest ==>
              var n := |item.result.value.detections|;
              |NatToString(n)| < |r.value| && r.value[..|NatToString(n)|] == NatToString(n) &&
              (r.value[|r.value| - 1] == 's' <==> n > 1)
  {
    if item.result.None? then TypeError
    else if item.result.value.hasPest then
      var pestCount := |item.result.value.detections|;
      Normal(NatToString(pestCount) + " plaga" + Plural(pestCount) + " detectada" + Plural(pestCount))
    else Normal("Sin plagas detectadas")
  }

  /** The summary line of a record with pests names its detection count unambiguously. */
  lemma SummaryTextDeterminesCount(a: Item, b: Item)
    requires a.result.Some? && a.result.value.hasPest
    requires b.result.Some? && b.result.value.hasPest
    requires SummaryText(a) == SummaryText(b)
    ensures |a.result.value.detections| == |b.result.value.detections|
  {
    var m := |a.result.value.detections|;
    var n := |b.result.value.detections|;
    var dm := NatToString(m);
    var dn := NatToString(n);
    var t := SummaryText(a).value;
    assert t == dm + " plaga" + Plural(m) + " detectada" + Plural(m);
    assert t == dn + " plaga" + Plural(n) + " detectada" + Plural(n);
    assert |dm| == |dn| by {
      assert t[|dm|] == ' ' && t[|dn|] == ' ';
    }
    assert dm == t[..|dm|] == dn;
    NatToStringInjective(m, n);
  }
}
