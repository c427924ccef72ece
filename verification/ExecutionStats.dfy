/** The durable daily counters of an application: the total over the last `days` days and the
    zero-filled day-by-day series (apps/web/src/features/applications/application-executions.ts). */
module ExecutionStats {
  import opened Sequences
  import opened Calendar

  datatype StatRow = StatRow(applicationId: string, date: string, succeeded: int, failed: int,
                             timedOut: int, recovered: int)

  datatype WindowSummary = WindowSummary(days: int, succeeded: int, failed: int, recovered: int)

  datatype DailyStatBar = DailyStatBar(date: string, succeeded: int, failed: int, total: int)

  /** `new Date(86400000 * day)` is a valid date; `toISOString` throws on the others. */
  predicate InTimeRange(day: int) {
    -MAX_TIME <= MS_PER_DAY * day <= MAX_TIME
  }

  predicate IsDate(s: string) {
    ParseDate(s).Some?
  }

  function DayOf(s: string): int
    requires IsDate(s)
  {
    DayNumber(ParseDate(s).value)
  }

  /** First day of the window that has `days` days and ends at `today`. */
  function CutoffDay(days: int, today: string): int
    requires IsDate(today)
  {
    DayOf(today) - (days - 1)
  }

  function OfApplication(applicationId: string): StatRow -> bool {
    (row: StatRow) => row.applicationId == applicationId
  }

  function InWindow(applicationId: string, cutoff: string, today: string): StatRow -> bool {
    (row: StatRow) => row.applicationId == applicationId && InWindowText(row.date, cutoff, today)
  }

  function SucceededOf(row: StatRow): int { row.succeeded }

  function FailedOf(row: StatRow): int { row.failed + row.timedOut }

  function RecoveredOf(row: StatRow): int { row.recovered }

  function Sum(rows: seq<StatRow>, f: StatRow -> int): int {
    if rows == [] then 0 else f(rows[0]) + Sum(rows[1..], f)
  }

  /** The row test of the window, on strings. */
  predicate InWindowText(date: string, cutoff: string, today: string) {
    StrLeq(cutoff, date) && StrLeq(date, today)
  }

  function DurableStatsWindow(stats: seq<StatRow>, applicationId: string, days: int, today: string)
    : Result<WindowSummary, DateError>
    requires IsDate(today)
  {
    var cutoffDay := CutoffDay(days, today);
    if !InTimeRange(cutoffDay) then Err(RangeError)
    else
      var cutoff := DaySlice(cutoffDay);
      var rows := Filter(stats, InWindow(applicationId, cutoff, today));
      Ok(WindowSummary(days, Sum(rows, SucceededOf), Sum(rows, FailedOf), Sum(rows, RecoveredOf)))
  }

  // ------------------------------------------------------------- the row test

  lemma {:induction false} DateIsText(s: string)
    requires IsDate(s)
    ensures FourDigit(ParseDate(s).value) && DateText(ParseDate(s).value) == s
    ensures DayFromYear(0) <= DayOf(s) < DayFromYear(10_000)
  {
    DateTextParse(s);
    var c := ParseDate(s).value;
    DayWithinYear(c);
    YearMonotone(0, c.year);
    YearMonotone(c.year + 1, 10_000);
  }

  /** A day's slice is a given canonical date only for the day of that date. */
  lemma {:induction false} SliceIsDate(day: int, s: string)
    requires IsDate(s)
    ensures DaySlice(day) == s <==> day == DayOf(s)
  {
    DateIsText(s);
    var c := ParseDate(s).value;
    FourDigitText(c);
    if 0 <= YearOfDay(day) <= 9999 {
      DateTextBijection(day);
    } else {
      FourDigitRange(day);
      ExtendedSliceFirst(day, c);
      StrLessIrreflexive(s);
    }
  }

  lemma {:induction false} DateLeq(a: string, b: string)
    requires IsDate(a) && IsDate(b)
    ensures StrLeq(a, b) <==> DayOf(a) <= DayOf(b)
  {
    DateIsText(a);
    DateIsText(b);
    TextOrder(ParseDate(b).value, ParseDate(a).value);
  }

  /** The string comparison with the cutoff is the comparison of days, unless the cutoff lies
      after year 9999. */
  lemma {:induction false} CutoffTest(cutoffDay: int, date: string)
    requires IsDate(date)
    ensures StrLeq(DaySlice(cutoffDay), date) <==> cutoffDay <= DayOf(date) || cutoffDay >= DayFromYear(10_000)
  {
    DateIsText(date);
    FourDigitRange(cutoffDay);
    if 0 <= YearOfDay(cutoffDay) <= 9999 {
      DateTextBijection(cutoffDay);
      DateLeq(DaySlice(cutoffDay), date);
    } else {
      ExtendedSliceFirst(cutoffDay, ParseDate(date).value);
      StrLessAsymmetric(DaySlice(cutoffDay), date);
    }
  }

  lemma {:induction false} StrLessAsymmetric(a: string, b: string)
    requires StrLess(a, b)
    ensures !StrLess(b, a)
  {
    if a != "" && a[0] == b[0] {
      StrLessAsymmetric(a[1..], b[1..]);
    }
  }

  /** Main result on the row test: for every window of at least one day it selects exactly the
      rows of the last `days` days. */
  lemma {:induction false} WindowTest(date: string, days: int, today: string)
    requires IsDate(today) && IsDate(date) && days >= 1
    ensures InWindowText(date, DaySlice(CutoffDay(days, today)), today)
       <==> DayOf(today) - days < DayOf(date) <= DayOf(today)
  {
    DateIsText(today);
    CutoffTest(CutoffDay(days, today), date);
    DateLeq(date, today);
  }

  function OnDays(applicationId: string, first: int, last: int): StatRow -> bool {
    (row: StatRow) => row.applicationId == applicationId && IsDate(row.date) && first <= DayOf(row.date) <= last
  }

  /** So all three totals of a window are sums over the application's rows of its last `days` days. */
  lemma {:induction false} WindowSums(stats: seq<StatRow>, applicationId: string, days: int, today: string)
    requires IsDate(today) && days >= 1 && InTimeRange(CutoffDay(days, today))
    requires forall row :: row in stats ==> IsDate(row.date)
    ensures var rows := Filter(stats, OnDays(applicationId, DayOf(today) - days + 1, DayOf(today)));
            DurableStatsWindow(stats, applicationId, days, today)
            == Ok(WindowSummary(days, Sum(rows, SucceededOf), Sum(rows, FailedOf), Sum(rows, RecoveredOf)))
  {
    hide IsDate, DayOf, DaySlice, InWindowText;
    var p := InWindow(applicationId, DaySlice(CutoffDay(days, today)), today);
    var q := OnDays(applicationId, DayOf(today) - days + 1, DayOf(today));
    forall row | row in stats ensures p(row) == q(row) {
      WindowTest(row.date, days, today);
    }
    FilterCong(stats, p, q);
  }

  ghost predicate SelectsExactlyTheWindow(days: int, today: string)
    requires IsDate(today)
  {
    forall date :: IsDate(date) ==>
      (InWindowText(date, DaySlice(CutoffDay(days, today)), today)
       <==> CutoffDay(days, today) <= DayOf(date) <= DayOf(today))
  }

  /** For window lengths of zero or less the test is right exactly when the cutoff does not pass
      year 9999: a later cutoff prints with a leading `+`, which sorts before every digit. */
  lemma {:induction false} WindowTestExact(days: int, today: string)
    requires IsDate(today)
    ensures SelectsExactlyTheWindow(days, today) <==> CutoffDay(days, today) < DayFromYear(10_000)
  {
    var cutoffDay := CutoffDay(days, today);
    forall date | IsDate(date)
      ensures InWindowText(date, DaySlice(cutoffDay), today)
         <==> (cutoffDay <= DayOf(date) || cutoffDay >= DayFromYear(10_000)) && DayOf(date) <= DayOf(today)
    {
      CutoffTest(cutoffDay, date);
      DateLeq(date, today);
    }
    DateIsText(today);
  }

  /** An empty window at the end of year 9999 accepts a row of its own `today`. */
  lemma {:induction false} EmptyWindowSelects()
    ensures var today := DateText(Civil(9999, 12, 31));
            IsDate(today) && InWindowText(today, DaySlice(CutoffDay(0, today)), today)
  {
    var c := Civil(9999, 12, 31);
    var today := DateText(c);
    ParseDateText(c);
    YearStep(9999);
    CutoffTest(CutoffDay(0, today), today);
    StrLessIrreflexive(today);
  }

  // ------------------------------------------------------------- the series

  /** The last row of an application for a date. */
  function LastRow(stats: seq<StatRow>, applicationId: string, date: string): Option<StatRow> {
    if stats == [] then None
    else
      var later := LastRow(stats[1..], applicationId, date);
      if later.Some? then later
      else if stats[0].applicationId == applicationId && stats[0].date == date then Some(stats[0])
      else None
  }

  /** `new Map(rows.map((row) => [row.date, row]))` */
  function MapByDate(rows: seq<StatRow>): map<string, StatRow> {
    if rows == [] then map[] else map[rows[0].date := rows[0]] + MapByDate(rows[1..])
  }

  lemma {:induction false} MapHoldsLastRow(stats: seq<StatRow>, applicationId: string, date: string)
    ensures var byDate := MapByDate(Filter(stats, OfApplication(applicationId)));
            LastRow(stats, applicationId, date) == if date in byDate then Some(byDate[date]) else None
  {
    if stats != [] {
      MapHoldsLastRow(stats[1..], applicationId, date);
      var p := OfApplication(applicationId);
      if p(stats[0]) {
        assert ([stats[0]] + Filter(stats[1..], p))[1..] == Filter(stats[1..], p);
      }
    }
  }

  /** The bar that belongs to a date: the counters of the last row, or zeros. */
  function BarAt(stats: seq<StatRow>, applicationId: string, date: string): DailyStatBar {
    match LastRow(stats, applicationId, date)
    case Some(row) =>
      DailyStatBar(date, row.succeeded, row.failed + row.timedOut, row.succeeded + row.failed + row.timedOut)
    case None => DailyStatBar(date, 0, 0, 0)
  }

  /** Bars of `n` consecutive days, oldest first. */
  function Bars(stats: seq<StatRow>, applicationId: string, first: int, n: nat): (bars: seq<DailyStatBar>)
    ensures |bars| == n
  {
    if n == 0 then []
    else Bars(stats, applicationId, first, n - 1) + [BarAt(stats, applicationId, DaySlice(first + n - 1))]
  }

  lemma {:induction false} BarsAt(stats: seq<StatRow>, applicationId: string, first: int, n: nat, k: nat)
    requires k < n
    ensures Bars(stats, applicationId, first, n)[k] == BarAt(stats, applicationId, DaySlice(first + k))
  {
    hide DaySlice;
    if k < n - 1 {
      BarsAt(stats, applicationId, first, n - 1, k);
    }
  }

  /** If any day of a window is out of range then so is its first day. */
  lemma {:induction false} LaterInRange(today: string, days: int, i: int)
    requires IsDate(today) && 0 <= i <= days - 1
    requires !InTimeRange(DayOf(today) - i)
    ensures !InTimeRange(CutoffDay(days, today))
  {
    DateIsText(today);
    assert DayFromYear(10_000) == 2932897;
  }

  method DailyStatsSeries(stats: seq<StatRow>, applicationId: string, days: int, today: string)
    returns (out: Result<seq<DailyStatBar>, DateError>)
    requires IsDate(today)
    ensures out.Err? <==> days >= 1 && !InTimeRange(CutoffDay(days, today))
    ensures out.Ok? ==> out.value == Bars(stats, applicationId, CutoffDay(days, today), Length(days))
  {
    hide IsDate, DayOf, DaySlice, MapByDate, LastRow, InTimeRange;
    var byDate := MapByDate(Filter(stats, OfApplication(applicationId)));
    var bars: seq<DailyStatBar> := [];
    var today' := DayOf(today);
    var i := days - 1;
    while i >= 0
      invariant i <= days - 1 && (if days >= 1 then -1 <= i else i == days - 1)
      invariant |bars| == days - 1 - i
      invariant bars == Bars(stats, applicationId, CutoffDay(days, today), |bars|)
      invariant i < days - 1 ==> InTimeRange(CutoffDay(days, today))
    {
      if !InTimeRange(today' - i) {
        LaterInRange(today, days, i);
        return Err(RangeError);
      }
      var date := DaySlice(today' - i);
      MapHoldsLastRow(stats, applicationId, date);
      var succeeded := if date in byDate then byDate[date].succeeded else 0;
      var failed := (if date in byDate then byDate[date].failed else 0)
          + (if date in byDate then byDate[date].timedOut else 0);
      bars := bars + [DailyStatBar(date, succeeded, failed, succeeded + failed)];
      i := i - 1;
    }
    return Ok(bars);
  }

  /** The days of a window are consecutive and end at `today`. */
  lemma {:induction false} SeriesDates(stats: seq<StatRow>, applicationId: string, days: int, today: string)
    requires IsDate(today) && days >= 1
    ensures var bars := Bars(stats, applicationId, CutoffDay(days, today), days);
            && bars[days - 1].date == today
            && forall k :: 0 <= k < days ==> bars[k].date == DaySlice(DayOf(today) - (days - 1 - k))
  {
    hide IsDate, DayOf, DaySlice;
    var first := CutoffDay(days, today);
    var bars := Bars(stats, applicationId, first, days);
    forall k | 0 <= k < days ensures bars[k].date == DaySlice(first + k) {
      BarsAt(stats, applicationId, first, days, k);
    }
    SliceIsDate(DayOf(today), today);
    assert bars[days - 1].date == DaySlice(first + (days - 1));
  }

  /** The dates of a series are pairwise distinct exactly when at most one of its days precedes
      year 0000. */
  lemma {:induction false} SeriesDatesDistinct(days: int, today: string)
    requires IsDate(today) && days >= 1
    ensures (forall j, k :: CutoffDay(days, today) <= j < k <= DayOf(today) ==> DaySlice(j) != DaySlice(k))
       <==> CutoffDay(days, today) >= DayFromYear(0) - 1
  {
    hide IsDate, DayOf, DaySlice;
    DateIsText(today);
    if CutoffDay(days, today) >= DayFromYear(0) - 1 {
      forall j, k | CutoffDay(days, today) <= j < k <= DayOf(today) ensures DaySlice(j) != DaySlice(k) {
        DistinctSlices(j, k);
      }
    } else {
      LastDaysBeforeYearZero();
    }
  }

  lemma {:induction false} DistinctSlices(j: int, k: int)
    requires j < k && DayFromYear(0) <= k < DayFromYear(10_000)
    ensures DaySlice(j) != DaySlice(k)
  {
    hide DaySlice;
    FourDigitRange(k);
    DateTextBijection(k);
    assert IsDate(DaySlice(k)) && DayOf(DaySlice(k)) == k;
    SliceIsDate(j, DaySlice(k));
  }

  lemma {:induction false} DecemberBeforeYearZero()
    ensures ValidCivil(Civil(-1, 12, 30)) && DayNumber(Civil(-1, 12, 30)) == DayFromYear(0) - 2
    ensures ValidCivil(Civil(-1, 12, 31)) && DayNumber(Civil(-1, 12, 31)) == DayFromYear(0) - 1
  {
    YearStep(-1);
  }

  /** The two last days before year 0000 have the same ten-character slice. */
  lemma {:induction false} LastDaysBeforeYearZero()
    ensures DaySlice(DayFromYear(0) - 1) == DaySlice(DayFromYear(0) - 2)
  {
    hide DaySlice, DayNumber, DayFromYear;
    DecemberBeforeYearZero();
    SameMonthSlice(Civil(-1, 12, 30), Civil(-1, 12, 31));
  }

  // ------------------------------------------------------------- series against window

  datatype Totals = Totals(succeeded: int, failed: int)

  function BarTotals(bars: seq<DailyStatBar>): Totals {
    if bars == [] then Totals(0, 0)
    else
      var front, last := BarTotals(bars[..|bars| - 1]), bars[|bars| - 1];
      Totals(front.succeeded + last.succeeded, front.failed + last.failed)
  }

  /** Totals of an application's rows whose day lies in `first .. first + n`. */
  function RowTotals(rows: seq<StatRow>, applicationId: string, first: int, n: nat): Totals
    requires forall row :: row in rows ==> IsDate(row.date)
  {
    if rows == [] then Totals(0, 0)
    else
      var rest := RowTotals(rows[1..], applicationId, first, n);
      if rows[0].applicationId == applicationId && first <= DayOf(rows[0].date) < first + n
      then Totals(rows[0].succeeded + rest.succeeded, rows[0].failed + rows[0].timedOut + rest.failed)
      else rest
  }

  /** The rows that no later row of the same application and date overrides. */
  function LastRows(stats: seq<StatRow>): (r: seq<StatRow>)
    ensures forall row :: row in r ==> row in stats
  {
    if stats == [] then []
    else if LastRow(stats[1..], stats[0].applicationId, stats[0].date).Some? then LastRows(stats[1..])
    else [stats[0]] + LastRows(stats[1..])
  }

  ghost predicate OneRowPerDay(stats: seq<StatRow>) {
    forall i, j :: 0 <= i < j < |stats| ==>
        stats[i].applicationId != stats[j].applicationId || stats[i].date != stats[j].date
  }

  lemma {:induction false} LastRowFound(stats: seq<StatRow>, applicationId: string, date: string)
    ensures LastRow(stats, applicationId, date).Some?
       <==> exists k :: 0 <= k < |stats| && stats[k].applicationId == applicationId && stats[k].date == date
  {
    if stats != [] {
      LastRowFound(stats[1..], applicationId, date);
      if k :| 0 <= k < |stats| && stats[k].applicationId == applicationId && stats[k].date == date {
        if k > 0 {
          assert stats[1..][k - 1] == stats[k];
        }
      }
    }
  }

  lemma {:induction false} NothingOverridden(stats: seq<StatRow>)
    requires OneRowPerDay(stats)
    ensures LastRows(stats) == stats
  {
    if stats != [] {
      LastRowFound(stats[1..], stats[0].applicationId, stats[0].date);
      NothingOverridden(stats[1..]);
    }
  }

  /** The row in front is the one that a bar at its date shows. */
  predicate Shows(stats: seq<StatRow>, applicationId: string)
    requires stats != []
  {
    stats[0].applicationId == applicationId && LastRow(stats[1..], applicationId, stats[0].date).None?
  }

  /** The bar of one day, before and after a row is added in front. */
  lemma {:induction false} BarStep(stats: seq<StatRow>, applicationId: string, day: int)
    requires stats != [] && IsDate(stats[0].date)
    ensures var row := stats[0];
            var before, after := BarAt(stats[1..], applicationId, DaySlice(day)),
                BarAt(stats, applicationId, DaySlice(day));
            if Shows(stats, applicationId) && DayOf(row.date) == day
            then after.succeeded == before.succeeded + row.succeeded
                && after.failed == before.failed + row.failed + row.timedOut
            else after == before
  {
    hide IsDate, DayOf, DaySlice;
    SliceIsDate(day, stats[0].date);
  }

  /** A row in front changes nothing if a later row overrides it or its day is not in the window. */
  lemma {:induction false} BarsSame(stats: seq<StatRow>, applicationId: string, first: int, n: nat)
    requires stats != [] && IsDate(stats[0].date)
    requires Shows(stats, applicationId) ==> !(first <= DayOf(stats[0].date) < first + n)
    ensures Bars(stats, applicationId, first, n) == Bars(stats[1..], applicationId, first, n)
  {
    hide IsDate, DayOf, DaySlice, BarAt, LastRow;
    if n > 0 {
      BarsSame(stats, applicationId, first, n - 1);
      BarStep(stats, applicationId, first + n - 1);
    }
  }

  /** A row in front that is shown in the window adds its counters to the totals. */
  lemma {:induction false} BarsGain(stats: seq<StatRow>, applicationId: string, first: int, n: nat)
    requires stats != [] && IsDate(stats[0].date)
    requires Shows(stats, applicationId) && first <= DayOf(stats[0].date) < first + n
    ensures var row, before := stats[0], BarTotals(Bars(stats[1..], applicationId, first, n));
            BarTotals(Bars(stats, applicationId, first, n))
                == Totals(before.succeeded + row.succeeded, before.failed + row.failed + row.timedOut)
  {
    hide IsDate, DayOf, DaySlice, BarAt, LastRow, Bars, BarTotals;
    BarStep(stats, applicationId, first + n - 1);
    BarsStepTotals(stats, applicationId, first, n);
    BarsStepTotals(stats[1..], applicationId, first, n);
    if DayOf(stats[0].date) == first + n - 1 {
      BarsSame(stats, applicationId, first, n - 1);
    } else {
      BarsGain(stats, applicationId, first, n - 1);
    }
  }

  lemma {:induction false} BarsStepTotals(stats: seq<StatRow>, applicationId: string, first: int, n: nat)
    requires n > 0
    ensures var front, last := BarTotals(Bars(stats, applicationId, first, n - 1)),
             BarAt(stats, applicationId, DaySlice(first + n - 1));
            BarTotals(Bars(stats, applicationId, first, n))
                == Totals(front.succeeded + last.succeeded, front.failed + last.failed)
  {
    var bars := Bars(stats, applicationId, first, n);
    assert bars[..n - 1] == Bars(stats, applicationId, first, n - 1);
  }

  lemma {:induction false} NoRowsNoBars(applicationId: string, first: int, n: nat)
    ensures BarTotals(Bars([], applicationId, first, n)) == Totals(0, 0)
  {
    if n > 0 {
      NoRowsNoBars(applicationId, first, n - 1);
      BarsStepTotals([], applicationId, first, n);
    }
  }

  lemma {:induction false} BarsCountLastRows(stats: seq<StatRow>, applicationId: string, first: int, n: nat)
    requires forall row :: row in stats ==> IsDate(row.date)
    ensures BarTotals(Bars(stats, applicationId, first, n)) == RowTotals(LastRows(stats), applicationId, first, n)
  {
    hide IsDate, DayOf, DaySlice;
    if stats == [] {
      NoRowsNoBars(applicationId, first, n);
    } else {
      BarsCountLastRows(stats[1..], applicationId, first, n);
      var row := stats[0];
      if Shows(stats, applicationId) && first <= DayOf(row.date) < first + n {
        BarsGain(stats, applicationId, first, n);
      } else {
        BarsSame(stats, applicationId, first, n);
      }
      if LastRow(stats[1..], row.applicationId, row.date).None? {
        assert LastRows(stats)[1..] == LastRows(stats[1..]);
      }
    }
  }

  lemma {:induction false} WindowRows(stats: seq<StatRow>, applicationId: string, days: int, today: string)
    requires IsDate(today) && CutoffDay(days, today) < DayFromYear(10_000)
    requires forall row :: row in stats ==> IsDate(row.date)
    ensures var cutoff := DaySlice(CutoffDay(days, today));
            var rows := Filter(stats, InWindow(applicationId, cutoff, today));
            RowTotals(stats, applicationId, CutoffDay(days, today), Length(days))
                == Totals(Sum(rows, SucceededOf), Sum(rows, FailedOf))
  {
    hide IsDate, DayOf, DaySlice;
    if stats != [] {
      WindowRows(stats[1..], applicationId, days, today);
      CutoffTest(CutoffDay(days, today), stats[0].date);
      DateLeq(stats[0].date, today);
      var cutoff := DaySlice(CutoffDay(days, today));
      var p := InWindow(applicationId, cutoff, today);
      if p(stats[0]) {
        assert ([stats[0]] + Filter(stats[1..], p))[1..] == Filter(stats[1..], p);
      }
    }
  }

  lemma {:induction false} LastRowsTotalLess(stats: seq<StatRow>, applicationId: string, first: int, n: nat)
    requires forall row :: row in stats ==> IsDate(row.date)
    requires forall row :: row in stats ==> row.succeeded >= 0 && row.failed >= 0 && row.timedOut >= 0
    ensures RowTotals(LastRows(stats), applicationId, first, n).succeeded
             <= RowTotals(stats, applicationId, first, n).succeeded
    ensures RowTotals(LastRows(stats), applicationId, first, n).failed
             <= RowTotals(stats, applicationId, first, n).failed
  {
    if stats != [] {
      LastRowsTotalLess(stats[1..], applicationId, first, n);
      if LastRow(stats[1..], stats[0].applicationId, stats[0].date).None? {
        assert LastRows(stats)[1..] == LastRows(stats[1..]);
      }
    }
  }

  /** A later row of the same application and date overrides the `k`-th row. */
  predicate Overridden(stats: seq<StatRow>, k: nat)
    requires k < |stats|
  {
    LastRow(stats[k + 1..], stats[k].applicationId, stats[k].date).Some?
  }

  predicate CountsSomething(row: StatRow) {
    row.succeeded != 0 || row.failed + row.timedOut != 0
  }

  /** No overridden row of the application in the window counts anything. */
  ghost predicate NothingLost(stats: seq<StatRow>, applicationId: string, first: int, n: nat)
    requires forall row :: row in stats ==> IsDate(row.date)
  {
    forall k :: 0 <= k < |stats| && Overridden(stats, k) && stats[k].applicationId == applicationId ==>
      first <= DayOf(stats[k].date) < first + n ==> !CountsSomething(stats[k])
  }

  lemma {:induction false} NothingLostCons(stats: seq<StatRow>, applicationId: string, first: int, n: nat)
    requires stats != [] && forall row :: row in stats ==> IsDate(row.date)
    ensures NothingLost(stats, applicationId, first, n)
       <==> NothingLost(stats[1..], applicationId, first, n)
            && (Overridden(stats, 0) && stats[0].applicationId == applicationId ==>
                first <= DayOf(stats[0].date) < first + n ==> !CountsSomething(stats[0]))
  {
    hide IsDate, DayOf, CountsSomething, LastRow;
    var rest := stats[1..];
    forall k | 0 <= k < |rest| ensures rest[k] == stats[k + 1] && Overridden(rest, k) == Overridden(stats, k + 1) {
      assert rest[k + 1..] == stats[k + 2..];
    }
    if NothingLost(stats, applicationId, first, n) {
      forall k | 0 <= k < |rest| && Overridden(rest, k) && rest[k].applicationId == applicationId
        ensures first <= DayOf(rest[k].date) < first + n ==> !CountsSomething(rest[k])
      {
        assert Overridden(stats, k + 1);
      }
    }
    if NothingLost(rest, applicationId, first, n) {
      forall k | 0 < k < |stats| && Overridden(stats, k) && stats[k].applicationId == applicationId
        ensures first <= DayOf(stats[k].date) < first + n ==> !CountsSomething(stats[k])
      {
        assert rest[k - 1] == stats[k] && Overridden(rest, k - 1);
      }
    }
  }

  /** With counters that are not negative, dropping overridden rows keeps the totals if and only if
      none of them counts anything. */
  lemma {:induction false} LastRowsTotalSame(stats: seq<StatRow>, applicationId: string, first: int, n: nat)
    requires forall row :: row in stats ==> IsDate(row.date)
    requires forall row :: row in stats ==> row.succeeded >= 0 && row.failed >= 0 && row.timedOut >= 0
    ensures RowTotals(LastRows(stats), applicationId, first, n) == RowTotals(stats, applicationId, first, n)
       <==> NothingLost(stats, applicationId, first, n)
  {
    hide IsDate, DayOf, NothingLost, LastRow;
    if stats == [] {
      NothingToLose(applicationId, first, n);
    } else {
      NothingLostCons(stats, applicationId, first, n);
      LastRowsTotalSame(stats[1..], applicationId, first, n);
      LastRowsTotalLess(stats[1..], applicationId, first, n);
      if !Overridden(stats, 0) {
        assert LastRows(stats)[1..] == LastRows(stats[1..]);
      }
    }
  }

  lemma {:induction false} NothingToLose(applicationId: string, first: int, n: nat)
    ensures NothingLost([], applicationId, first, n)
  {
  }

  function Shown(w: WindowSummary): Totals {
    Totals(w.succeeded, w.failed)
  }

  /** Main result: over canonical dates the series adds up to the window of the rows that are not
      overridden; so to the window itself when no day has two rows, and never to more than the
      window when counters are not negative. */
  lemma {:induction false} SeriesMatchesWindow(stats: seq<StatRow>, applicationId: string, days: int, today: string)
    requires IsDate(today) && CutoffDay(days, today) < DayFromYear(10_000) && InTimeRange(CutoffDay(days, today))
    requires forall row :: row in stats ==> IsDate(row.date)
    ensures var series := BarTotals(Bars(stats, applicationId, CutoffDay(days, today), Length(days)));
            var window := Shown(DurableStatsWindow(stats, applicationId, days, today).value);
            && series == Shown(DurableStatsWindow(LastRows(stats), applicationId, days, today).value)
            && (OneRowPerDay(stats) ==> series == window)
            && ((forall row :: row in stats ==> row.succeeded >= 0 && row.failed >= 0 && row.timedOut >= 0)
                ==> series.succeeded <= window.succeeded && series.failed <= window.failed)
  {
    var first, n := CutoffDay(days, today), Length(days);
    BarsCountLastRows(stats, applicationId, first, n);
    WindowRows(stats, applicationId, days, today);
    WindowRows(LastRows(stats), applicationId, days, today);
    if OneRowPerDay(stats) {
      NothingOverridden(stats);
    }
    if forall row :: row in stats ==> row.succeeded >= 0 && row.failed >= 0 && row.timedOut >= 0 {
      LastRowsTotalLess(stats, applicationId, first, n);
    }
  }

  /** Main result, exactly: with counters that are not negative, the series adds up to the window if
      and only if no overridden row of the application in the window counts anything. */
  lemma {:induction false} SeriesEqualsWindow(stats: seq<StatRow>, applicationId: string, days: int, today: string)
    requires IsDate(today) && CutoffDay(days, today) < DayFromYear(10_000) && InTimeRange(CutoffDay(days, today))
    requires forall row :: row in stats ==> IsDate(row.date)
    requires forall row :: row in stats ==> row.succeeded >= 0 && row.failed >= 0 && row.timedOut >= 0
    ensures BarTotals(Bars(stats, applicationId, CutoffDay(days, today), Length(days)))
            == Shown(DurableStatsWindow(stats, applicationId, days, today).value)
       <==> NothingLost(stats, applicationId, CutoffDay(days, today), Length(days))
  {
    hide NothingLost;
    var first, n := CutoffDay(days, today), Length(days);
    BarsCountLastRows(stats, applicationId, first, n);
    WindowRows(stats, applicationId, days, today);
    LastRowsTotalSame(stats, applicationId, first, n);
  }

  // ------------------------------------------------------------- row by row

  predicate IsRowOf(row: StatRow, applicationId: string, date: string) {
    row.applicationId == applicationId && row.date == date
  }

  /** What a bar says: the counters of the last row of its application and date, timed-out runs among
      the failed ones, or zeros without such a row; and their sum. */
  lemma {:induction false} BarSays(stats: seq<StatRow>, applicationId: string, date: string)
    ensures var bar := BarAt(stats, applicationId, date);
            && bar.date == date && bar.total == bar.succeeded + bar.failed
            && (forall k :: 0 <= k < |stats| && IsRowOf(stats[k], applicationId, date)
                            && (forall j :: k < j < |stats| ==> !IsRowOf(stats[j], applicationId, date)) ==>
                bar.succeeded == stats[k].succeeded && bar.failed == stats[k].failed + stats[k].timedOut)
            && ((forall row :: row in stats ==> !IsRowOf(row, applicationId, date)) ==>
                bar.succeeded == 0 && bar.failed == 0)
  {
    if stats != [] {
      BarSays(stats[1..], applicationId, date);
      LastRowFound(stats[1..], applicationId, date);
      forall k | 0 < k < |stats| && IsRowOf(stats[k], applicationId, date)
                 && (forall j :: k < j < |stats| ==> !IsRowOf(stats[j], applicationId, date))
        ensures LastRow(stats, applicationId, date) == Some(stats[k])
      {
        assert stats[1..][k - 1] == stats[k];
        LastRowIs(stats[1..], applicationId, date, k - 1);
      }
    }
    NoLastRow(stats, applicationId, date);
  }

  lemma {:induction false} NoLastRow(stats: seq<StatRow>, applicationId: string, date: string)
    ensures (forall row :: row in stats ==> !IsRowOf(row, applicationId, date)) ==>
              LastRow(stats, applicationId, date).None?
  {
    LastRowFound(stats, applicationId, date);
    if forall row :: row in stats ==> !IsRowOf(row, applicationId, date) {
      forall k | 0 <= k < |stats| ensures !(stats[k].applicationId == applicationId && stats[k].date == date) {
        assert stats[k] in stats && !IsRowOf(stats[k], applicationId, date);
      }
    }
  }

  lemma {:induction false} LastRowIs(stats: seq<StatRow>, applicationId: string, date: string, k: nat)
    requires k < |stats| && IsRowOf(stats[k], applicationId, date)
    requires forall j :: k < j < |stats| ==> !IsRowOf(stats[j], applicationId, date)
    ensures LastRow(stats, applicationId, date) == Some(stats[k])
  {
    LastRowFound(stats[1..], applicationId, date);
    if k > 0 {
      LastRowIs(stats[1..], applicationId, date, k - 1);
    }
  }

  /** Recovered runs of an application's rows whose day lies in `first .. first + n`. */
  function RecoveredTotal(rows: seq<StatRow>, applicationId: string, first: int, n: nat): int
    requires forall row :: row in rows ==> IsDate(row.date)
  {
    if rows == [] then 0
    else
      var rest := RecoveredTotal(rows[1..], applicationId, first, n);
      if rows[0].applicationId == applicationId && first <= DayOf(rows[0].date) < first + n
      then rows[0].recovered + rest else rest
  }

  lemma {:induction false} RecoveredRows(stats: seq<StatRow>, applicationId: string, days: int, today: string)
    requires IsDate(today) && CutoffDay(days, today) < DayFromYear(10_000)
    requires forall row :: row in stats ==> IsDate(row.date)
    ensures var cutoff := DaySlice(CutoffDay(days, today));
            var rows := Filter(stats, InWindow(applicationId, cutoff, today));
            RecoveredTotal(stats, applicationId, CutoffDay(days, today), Length(days)) == Sum(rows, RecoveredOf)
  {
    hide IsDate, DayOf, DaySlice;
    if stats != [] {
      RecoveredRows(stats[1..], applicationId, days, today);
      CutoffTest(CutoffDay(days, today), stats[0].date);
      DateLeq(stats[0].date, today);
      var cutoff := DaySlice(CutoffDay(days, today));
      var p := InWindow(applicationId, cutoff, today);
      if p(stats[0]) {
        assert ([stats[0]] + Filter(stats[1..], p))[1..] == Filter(stats[1..], p);
      }
    }
  }

  /** Main result on the window: for every length of at least one day that starts at a valid date, it
      totals succeeded, failed and timed-out, and recovered runs of the application over the days
      from `days - 1` days before `today` to `today`. */
  lemma {:induction false} WindowTotals(stats: seq<StatRow>, applicationId: string, days: int, today: string)
    requires IsDate(today) && days >= 1 && forall row :: row in stats ==> IsDate(row.date)
    ensures var first := DayOf(today) - days + 1;
            var totals := RowTotals(stats, applicationId, first, days);
            DurableStatsWindow(stats, applicationId, days, today)
            == if first < -100_000_000 then Err(RangeError)
               else Ok(WindowSummary(days, totals.succeeded, totals.failed,
                                     RecoveredTotal(stats, applicationId, first, days)))
  {
    hide IsDate, DayOf, DaySlice, RowTotals, RecoveredTotal;
    BeforeRange(today);
    WindowRows(stats, applicationId, days, today);
    RecoveredRows(stats, applicationId, days, today);
  }

  lemma {:induction false} BeforeRange(today: string)
    requires IsDate(today)
    ensures DayOf(today) < DayFromYear(10_000) <= 100_000_000
  {
    DateIsText(today);
  }
}
