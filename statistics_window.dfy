/**
 * The statistics window (Windows/StatisticsWindow.xaml.cs): the summary counts over the
 * statistics log, and the grid of rows, newest first, with each cue's response time as text.
 *
 * A duration is a whole number of ticks. `TimeSpan.Seconds`, `.Minutes` and `.Hours` are
 * components that truncate toward zero; `TotalMinutes < 1` and `TotalHours < 1` are compared
 * as tick counts, which is exact for durations that fit a double's 53-bit mantissa.
 */
module StatisticsWindow {
  import opened Wrappers
  import opened Numeric
  import opened Seqs
  import opened StableSort
  import opened Models

  const TicksPerDay: int := 24 * TicksPerHour

  /** One row of the grid. */
  datatype StatisticsViewModel = StatisticsViewModel(
    shownAt: DateTime,
    cueType: CueType,
    cueTitle: string,
    wasCompleted: bool,
    responseTime: string)

  /** The status column (`StatusConverter`). */
  function StatusText(wasCompleted: bool): (r: string)
    ensures r == "Completed" <==> wasCompleted
    ensures r == "Dismissed" <==> !wasCompleted
  {
    if wasCompleted then "Completed" else "Dismissed"
  }

  // ---------------------------------------------------------------------------
  // Summary

  predicate WasCompleted(s: CueStatistic) { s.wasCompleted }
  predicate WasDismissed(s: CueStatistic) { !s.wasCompleted }

  /** The three summary figures: every logged cue, the completed ones and the dismissed ones. */
  datatype Summary = Summary(total: int, completed: int, dismissed: int)

  /** The summary of a log: every logged cue is either completed or dismissed, never both. */
  function Summarize(stats: seq<CueStatistic>): (r: Summary)
    ensures r.total == |stats|
    ensures r.completed + r.dismissed == r.total
    ensures 0 <= r.completed && 0 <= r.dismissed
  {
    FilterComplementCounts(stats, WasCompleted, WasDismissed);
    Summary(|stats|, |Filter(stats, WasCompleted)|, |Filter(stats, WasDismissed)|)
  }

  /** Logging one more cue adds one to the total and one to exactly the count its outcome names. */
  lemma SummarizeSnoc(stats: seq<CueStatistic>, s: CueStatistic)
    ensures var before, after := Summarize(stats), Summarize(stats + [s]);
      && after.total == before.total + 1
      && after.completed == before.completed + (if s.wasCompleted then 1 else 0)
      && after.dismissed == before.dismissed + (if s.wasCompleted then 0 else 1)
  {
    FilterSnoc(stats, s, WasCompleted);
    FilterSnoc(stats, s, WasDismissed);
  }

  // ---------------------------------------------------------------------------
  // Response time

  /** The moment the user answered: the completion time of a completed cue, else the dismissal time. */
  function ResponseTimestamp(stat: CueStatistic): Option<DateTime> {
    if stat.wasCompleted then stat.completedAt else stat.dismissedAt
  }

  /** `TimeSpan.Seconds`, `.Minutes` and `.Hours` of a duration in ticks. */
  function Seconds(d: int): int { TruncMod(TruncDiv(d, TicksPerSecond), 60) }
  function Minutes(d: int): int { TruncMod(TruncDiv(d, TicksPerMinute), 60) }
  function Hours(d: int): int { TruncMod(TruncDiv(d, TicksPerHour), 24) }

  /** The text of a duration: seconds under a minute, minutes under an hour, else hours and minutes. */
  function FormatDuration(d: int): (r: string)
    ensures |r| > 8
  {
    if d < TicksPerMinute then IntToString(Seconds(d)) + " seconds"
    else if d < TicksPerHour then IntToString(Minutes(d)) + " minutes"
    else IntToString(Hours(d)) + " hours " + IntToString(Minutes(d)) + " minutes"
  }

  const NotAvailable: string := "N/A"

  /** The response-time column: "N/A" exactly when the answering moment was not recorded. */
  function GetResponseTime(stat: CueStatistic): (r: string)
    ensures r == NotAvailable <==> ResponseTimestamp(stat).None?
    ensures ResponseTimestamp(stat).Some? ==> r == FormatDuration(ResponseTimestamp(stat).value - stat.shownAt)
  {
    var responseTime := ResponseTimestamp(stat);
    if responseTime.Some? then FormatDuration(responseTime.value - stat.shownAt) else NotAvailable
  }

  /** Multiplying by a number that is not negative keeps the order. */
  lemma MulMono(a: int, x: int, y: int)
    requires a >= 0 && x <= y
    ensures a * x <= a * y
  {
    assert a * y - a * x == a * (y - x);
  }

  /** A non-zero multiple of a positive `a` is at least `a` away from zero. */
  lemma MultipleBounds(a: int, x: int)
    requires a > 0
    ensures x >= 1 ==> a * x >= a
    ensures x <= -1 ==> a * x <= -a
  {
    if x >= 1 {
      MulMono(a, 1, x);
    } else if x <= -1 {
      MulMono(a, x, -1);
    }
  }

  /** The quotient and remainder are determined by `d == a * q + r` with `0 <= r < a`. */
  lemma DivUnique(d: int, a: int, q: int, r: int)
    requires a > 0 && 0 <= r < a && d == a * q + r
    ensures d / a == q
  {
    var q0, r0 := d / a, d % a;
    assert a * (q - q0) == r0 - r;
    MultipleBounds(a, q - q0);
  }

  /** Dividing by `a` and then by `b` is dividing by `a * b`. */
  lemma DivDiv(d: int, a: int, b: int)
    requires d >= 0 && a > 0 && b > 0
    ensures d / (a * b) == (d / a) / b
  {
    var q, r := d / a, d % a;
    var q2, r2 := q / b, q % b;
    var ab := a * b;
    assert d == a * q + r;
    assert q == b * q2 + r2;
    assert a * q == ab * q2 + a * r2 by {
      assert a * (b * q2 + r2) == a * (b * q2) + a * r2;
      assert a * (b * q2) == ab * q2;
    }
    assert 0 <= a * r2 by {
      MulMono(a, 0, r2);
    }
    assert a * r2 + r < ab by {
      MulMono(a, r2, b - 1);
      assert a * (b - 1) == ab - a;
    }
    DivUnique(d, ab, q2, a * r2 + r);
  }

  /** Adding `k` whole units of `a` adds `k` to the quotient by `a`. */
  lemma DivAddMultiple(d: int, a: int, k: int)
    requires a > 0
    ensures (d + k * a) / a == d / a + k
  {
    assert d + k * a == a * (d / a + k) + d % a;
    DivUnique(d + k * a, a, d / a + k, d % a);
  }

  /**
   * What each branch shows of a duration that is not negative: under a minute, the whole
   * seconds elapsed (0..59); under an hour, the whole minutes elapsed (1..59); from an hour on,
   * the hours and minutes within the day, so that the whole minutes elapsed are the dropped
   * days times 1440 plus the hours times 60 plus the minutes.
   */
  lemma DurationComponents(d: int)
    requires d >= 0
    ensures d < TicksPerMinute ==> Seconds(d) == d / TicksPerSecond && 0 <= Seconds(d) < 60
    ensures TicksPerMinute <= d < TicksPerHour ==> Minutes(d) == d / TicksPerMinute && 1 <= Minutes(d) < 60
    ensures 0 <= Hours(d) < 24 && 0 <= Minutes(d) < 60
    ensures d / TicksPerMinute == (d / TicksPerDay) * 1440 + Hours(d) * 60 + Minutes(d)
  {
    var m := d / TicksPerMinute;
    DivDiv(d, TicksPerSecond, 60);
    DivDiv(d, TicksPerMinute, 60);
    DivDiv(d, TicksPerMinute, 1440);
    DivDiv(m, 60, 24);
    assert Minutes(d) == m % 60;
    assert Hours(d) == (m / 60) % 24;
  }

  /** From an hour on, whole days are not shown: a response one day later reads the same. */
  lemma WholeDaysDropped(d: int)
    requires d >= TicksPerHour
    ensures FormatDuration(d + TicksPerDay) == FormatDuration(d)
  {
    assert Hours(d + TicksPerDay) == Hours(d) by {
      DivAddMultiple(d, TicksPerHour, 24);
      DivAddMultiple(d / TicksPerHour, 24, 1);
    }
    assert Minutes(d + TicksPerDay) == Minutes(d) by {
      DivAddMultiple(d, TicksPerMinute, 1440);
      DivAddMultiple(d / TicksPerMinute, 60, 24);
    }
  }

  /**
   * A response recorded before the cue was shown (a clock set back) gives a negative duration,
   * which always takes the seconds branch and shows between -59 and 0 seconds.
   */
  lemma NegativeDurationShowsSeconds(d: int)
    requires d < 0
    ensures FormatDuration(d) == IntToString(Seconds(d)) + " seconds"
    ensures -59 <= Seconds(d) <= 0
  {
  }

  // ---------------------------------------------------------------------------
  // Rows

  function RowOf(s: CueStatistic): StatisticsViewModel {
    StatisticsViewModel(s.shownAt, s.cueType, s.cueTitle, s.wasCompleted, GetResponseTime(s))
  }

  /** LINQ `Select(RowOf)`. */
  function MapRows(s: seq<CueStatistic>): (r: seq<StatisticsViewModel>)
    ensures |r| == |s|
    ensures forall i :: 0 <= i < |s| ==> r[i] == RowOf(s[i])
  {
    if s == [] then [] else [RowOf(s[0])] + MapRows(s[1..])
  }

  function ShownAtKey(s: CueStatistic): Key { Key(s.shownAt, 0) }
  function RowKey(r: StatisticsViewModel): Key { Key(r.shownAt, 0) }

  /** The grid: the log ordered by shown-at time, newest first, each entry turned into a row. */
  function Rows(stats: seq<CueStatistic>): (r: seq<StatisticsViewModel>)
    ensures |r| == |stats|
  {
    MapRows(Sort(stats, ShownAtKey))
  }

  /** Turning entries into rows commutes with inserting by shown-at time. */
  lemma {:induction false} InsertThenMap(x: CueStatistic, s: seq<CueStatistic>)
    ensures MapRows(Insert(x, s, ShownAtKey)) == Insert(RowOf(x), MapRows(s), RowKey)
  {
    if s != [] && !Outranks(ShownAtKey(x), ShownAtKey(s[0])) {
      InsertThenMap(x, s[1..]);
      assert MapRows(s)[0] == RowOf(s[0]);
      assert MapRows(s)[1..] == MapRows(s[1..]);
      assert MapRows([s[0]] + Insert(x, s[1..], ShownAtKey))
          == [RowOf(s[0])] + MapRows(Insert(x, s[1..], ShownAtKey));
    } else if s != [] {
      assert MapRows([x] + s) == [RowOf(x)] + MapRows(s);
    }
  }

  /** Sorting the log and then turning it into rows is sorting the rows. */
  lemma {:induction false} SortThenMap(s: seq<CueStatistic>)
    ensures MapRows(Sort(s, ShownAtKey)) == Sort(MapRows(s), RowKey)
  {
    if s != [] {
      var init, last := s[..|s| - 1], s[|s| - 1];
      var rows := MapRows(s);
      calc {
        MapRows(Sort(s, ShownAtKey));
        MapRows(Insert(last, Sort(init, ShownAtKey), ShownAtKey));
        { InsertThenMap(last, Sort(init, ShownAtKey)); }
        Insert(RowOf(last), MapRows(Sort(init, ShownAtKey)), RowKey);
        { SortThenMap(init); }
        Insert(RowOf(last), Sort(MapRows(init), RowKey), RowKey);
        { assert rows[..|rows| - 1] == MapRows(init);
          assert rows[|rows| - 1] == RowOf(last); }
        Sort(rows, RowKey);
      }
    }
  }

  /**
   * The grid holds one row per logged cue (the same rows in another order), the newest shown
   * first, and cues shown at the same moment keep their order in the log.
   */
  lemma RowsNewestFirst(stats: seq<CueStatistic>)
    ensures multiset(Rows(stats)) == multiset(MapRows(stats))
    ensures forall i, j :: 0 <= i < j < |Rows(stats)| ==> Rows(stats)[i].shownAt >= Rows(stats)[j].shownAt
    ensures forall k :: WithKey(Rows(stats), RowKey, k) == WithKey(MapRows(stats), RowKey, k)
  {
    SortThenMap(stats);
    SortSorted(MapRows(stats), RowKey);
    SortPermutes(MapRows(stats), RowKey);
    forall k ensures WithKey(Rows(stats), RowKey, k) == WithKey(MapRows(stats), RowKey, k) {
      SortStable(MapRows(stats), RowKey, k);
    }
  }

  class StatisticsWindow {
    var totalText: string
    var completedText: string
    var dismissedText: string
    var rows: seq<StatisticsViewModel>

    /** Opening the window loads the log (`LoadStatistics`): the three figures and the grid. */
    constructor (stats: seq<CueStatistic>)
      ensures var summary := Summarize(stats);
        && totalText == IntToString(summary.total)
        && completedText == IntToString(summary.completed)
        && dismissedText == IntToString(summary.dismissed)
      ensures rows == Rows(stats)
    {
      var summary := Summarize(stats);
      totalText := IntToString(summary.total);
      completedText := IntToString(summary.completed);
      dismissedText := IntToString(summary.dismissed);
      rows := MapRows(Sort(stats, ShownAtKey));
    }
  }
}
