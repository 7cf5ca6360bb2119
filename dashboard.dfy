/**
 * The dashboard's statistics cards and recent-activity list: the "time ago"
 * label, the five most recent records and the pest-free count.
 */
module Dashboard {
  import opened Common
  import opened Seqs
  import opened Text
  import opened History
  import opened HistoryView

  const MinuteMs: int := 1000 * 60
  const HourMs: int := 60 * MinuteMs
  const DayMs: int := 24 * HourMs

  /** The bucket `formatTimeAgo` puts an elapsed time in; `Unknown` is an invalid date. */
  datatype Elapsed = JustNow | Minutes(n: nat) | Hours(n: nat) | Days(n: nat) | Unknown

  /**
   * Whole minutes are counted by flooring; under a minute (a date in the future
   * included) is "just now", under an hour counts minutes, under a day whole
   * hours, and anything longer whole days.
   */
  function ElapsedSince(now: int, t: Option<int>): (e: Elapsed)
    ensures e.Unknown? <==> t.None?
    ensures e.JustNow? <==> t.Some? && now - t.value < MinuteMs
    ensures e.Minutes? ==> 1 <= e.n < 60 && MinuteMs * e.n <= now - t.value < MinuteMs * (e.n + 1)
    ensures e.Hours? ==> 1 <= e.n < 24 && HourMs * e.n <= now - t.value < HourMs * (e.n + 1)
    ensures e.Days? ==> 1 <= e.n && DayMs * e.n <= now - t.value < DayMs * (e.n + 1)
  {
    if t.None? then Unknown
    else
      var diffInMinutes := (now - t.value) / MinuteMs;
      if diffInMinutes < 1 then JustNow
      else if diffInMinutes < 60 then Minutes(diffInMinutes)
      else
        var diffInHours := diffInMinutes / 60;
        if diffInHours < 24 then Hours(diffInHours)
        else Days(diffInHours / 24)
  }

  /** The label of a bucket; an invalid date propagates `NaN` into the day count. */
  function Render(e: Elapsed): string
  {
    match e
    case JustNow => "Hace un momento"
    case Minutes(n) => "Hace " + NatToString(n) + " min"
    case Hours(n) => "Hace " + NatToString(n) + "h"
    case Days(n) => "Hace " + NatToString(n) + "d"
    case Unknown => "Hace NaNd"
  }

  /** `formatTimeAgo(t)` read at time `now`. */
  function FormatTimeAgo(now: int, t: Option<int>): (s: string)
    ensures |s| > 5 && s[..5] == "Hace "
  {
    Render(ElapsedSince(now, t))
  }

  /** Different buckets always read differently, so the label determines the bucket. */
  lemma RenderInjective(a: Elapsed, b: Elapsed)
    requires Render(a) == Render(b)
    ensures a == b
  {
    var s := Render(a);
    if a.Minutes? || a.Hours? || a.Days? {
      var d := NatToString(a.n);
      assert s[5] == d[0];
      assert '0' <= s[5] <= '9';
    }
    if b.Minutes? || b.Hours? || b.Days? {
      var d := NatToString(b.n);
      assert s[5] == d[0];
      assert '0' <= s[5] <= '9';
    }
    assert a.Hours? || b.Hours? ==> s[|s| - 1] == 'h';
    assert a.Days? || b.Days? ==> s[|s| - 1] == 'd';
    if a.Minutes? && b.Minutes? {
      assert NatToString(a.n) == s[5..|s| - 4] == NatToString(b.n);
      NatToStringInjective(a.n, b.n);
    } else if a.Hours? && b.Hours? {
      assert NatToString(a.n) == s[5..|s| - 1] == NatToString(b.n);
      NatToStringInjective(a.n, b.n);
    } else if a.Days? && b.Days? {
      assert NatToString(a.n) == s[5..|s| - 1] == NatToString(b.n);
      NatToStringInjective(a.n, b.n);
    }
  }

  /** `history.slice(0, 5)`: the five most recent records, or all of them when fewer. */
  function RecentActivity(history: seq<Item>): (recent: seq<Item>)
    ensures |recent| == Min(5, |history|)
    ensures forall i :: 0 <= i < |recent| ==> recent[i] == history[i]
  {
    history[..Min(5, |history|)]
  }

  /**
   * A save puts the new record at the head of the recent activity and shifts out
   * the fifth; every record shown is as the save wrote it back.
   */
  lemma RecentActivityAfterSave(history: seq<Item>, item: Item)
    ensures RecentActivity(SaveStep(history, item)) == Rewritten([item] + RecentActivity(history)[..Min(4, |history|)])
  {
    var after := RecentActivity(SaveStep(history, item));
    var expected := Rewritten([item] + RecentActivity(history)[..Min(4, |history|)]);
    assert |after| == |expected|;
    forall i | 0 <= i < |after| ensures after[i] == expected[i] {
      if i > 0 {
        assert expected[i] == Serialised(history[i - 1]);
      }
    }
  }

  /** The "Sin Plagas" card: `totalAnalyses - pestDetections`. */
  function PestFreeCount(s: HistoryStats): int
  {
    s.totalAnalyses - s.pestDetections
  }

  /** The pest-free count is never negative: it is the number of records whose result reports no pest. */
  lemma PestFreeCountIsPestFreeRecords(history: seq<Item>, now: int)
    requires GetHistoryStats(history, now).Normal?
    ensures PestFreeCount(GetHistoryStats(history, now).value) == |Filter(history, PestFlagIs(false))| >= 0
  {
    WithoutPestsMatchesStats(history, now);
  }
}
