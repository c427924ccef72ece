/** The summary of the refusal lens: totals, most frequent codes and the daily trend
    (apps/web/src/lib/refusals.ts:105-167). `Date.parse` is the parameter `parse`; what it returns
    is a valid time value or nothing. */
module RefusalSummary {
  import opened Sequences
  import opened Calendar
  import opened Refusals

  type TimeValue = ms: int | -MAX_TIME <= ms <= MAX_TIME

  type Parse = string -> Option<TimeValue>

  datatype CodeCount = CodeCount(code: string, count: nat)

  datatype Bucket = Bucket(date: string, count: nat)

  datatype Summary = Summary(total: nat, byCategory: map<string, nat>, topCodes: seq<CodeCount>, daily: seq<Bucket>,
                             hasLoopSource: bool)

  predicate IsTime(ms: int) {
    -MAX_TIME <= ms <= MAX_TIME
  }

  /** The date `i` days before `nowMs` is a valid date; `toISOString` throws on the others. */
  predicate ShiftInRange(nowMs: int, i: int) {
    IsTime(nowMs - i * MS_PER_DAY)
  }

  /** The day number of a row, from its time stamp. */
  function RowDay(parse: Parse, r: Row): Option<int> {
    if r.at.None? || r.at.value == "" || parse(r.at.value).None? then None
    else Some(parse(r.at.value).value / MS_PER_DAY)
  }

  /** `utcDay` */
  function UtcDay(parse: Parse, r: Row): Option<string> {
    if RowDay(parse, r).None? then None else Some(DaySlice(RowDay(parse, r).value))
  }

  function OnSlice(parse: Parse, slice: string): Row -> bool {
    (r: Row) => UtcDay(parse, r) == Some(slice)
  }

  function OnDay(parse: Parse, day: int): Row -> bool {
    (r: Row) => RowDay(parse, r) == Some(day)
  }

  function IsLoop(): Row -> bool {
    (r: Row) => r.source == Some("loop")
  }

  // ------------------------------------------------------------- the specification

  /** The comparator of codes: most frequent first, then by collation. */
  function MostFrequent(collate: Collate): (CodeCount, CodeCount) -> bool {
    (a: CodeCount, b: CodeCount) => a.count > b.count || (a.count == b.count && collate(a.code) <= collate(b.code))
  }

  /** `slice(0, n)`: a negative `n` counts from the end. */
  function SliceTo<T>(s: seq<T>, n: int): seq<T> {
    if n >= |s| then s else if n >= 0 then s[..n] else if |s| + n >= 0 then s[..|s| + n] else []
  }

  function CountAll(codes: seq<string>, rows: seq<Row>): (counts: seq<CodeCount>)
    ensures |counts| == |codes|
  {
    if codes == [] then [] else [CodeCount(codes[0], |Filter(rows, HasCode(codes[0]))|)] + CountAll(codes[1..], rows)
  }

  /** How often each code occurs, codes in order of first appearance. */
  function CodeCounts(rows: seq<Row>): seq<CodeCount> {
    CountAll(Dedup(Codes(rows)), rows)
  }

  /** The slices of `n` consecutive days. */
  function Slices(first: int, n: nat): (r: seq<string>)
    ensures |r| == n
  {
    if n == 0 then [] else Slices(first, n - 1) + [DaySlice(first + n - 1)]
  }

  /** The position of each slice; a repeated slice has its last position. */
  function DayIndex(dates: seq<string>): (m: map<string, nat>)
    ensures forall d :: d in m <==> d in dates
    ensures forall d :: d in m ==> m[d] < |dates| && dates[m[d]] == d
  {
    if dates == [] then map[]
    else
      assert dates == dates[..|dates| - 1] + [dates[|dates| - 1]];
      DayIndex(dates[..|dates| - 1])[dates[|dates| - 1] := |dates| - 1]
  }

  /** The bucket at position `j`: rows are counted at the last position of their slice. */
  function BucketAt(parse: Parse, dates: seq<string>, rows: seq<Row>, j: nat): Bucket
    requires j < |dates|
  {
    Bucket(dates[j], if DayIndex(dates)[dates[j]] == j then |Filter(rows, OnSlice(parse, dates[j]))| else 0)
  }

  function Buckets(parse: Parse, dates: seq<string>, rows: seq<Row>, n: nat): (r: seq<Bucket>)
    requires n <= |dates|
    ensures |r| == n
    ensures forall j :: 0 <= j < n ==> r[j] == BucketAt(parse, dates, rows, j)
  {
    if n == 0 then [] else Buckets(parse, dates, rows, n - 1) + [BucketAt(parse, dates, rows, n - 1)]
  }

  function CategoryCounts(rows: seq<Row>): map<string, nat> {
    map c | c in {"not_granted", "policy", "state", "human"} :: |Filter(rows, InCategory(c))|
  }

  function Today(nowMs: int): int {
    nowMs / MS_PER_DAY
  }

  function Summarized(collate: Collate, parse: Parse, rows: seq<Row>, days: int, topN: int, nowMs: int): Summary {
    var dates := Slices(Today(nowMs) - days + 1, Length(days));
    Summary(|rows|, CategoryCounts(rows), SliceTo(StableSort(CodeCounts(rows), MostFrequent(collate)), topN),
            Buckets(parse, dates, rows, |dates|), Filter(rows, IsLoop()) != [])
  }

  // ------------------------------------------------------------- the code

  /** `codeCounts.set(code, (codeCounts.get(code) ?? 0) + 1)` on the entries of the map. */
  function CountCode(counts: seq<CodeCount>, code: string): seq<CodeCount> {
    if counts == [] then [CodeCount(code, 1)]
    else if counts[0].code == code then [CodeCount(code, counts[0].count + 1)] + counts[1..]
    else [counts[0]] + CountCode(counts[1..], code)
  }

  function Zeros(dates: seq<string>): (r: seq<Bucket>)
    ensures |r| == |dates| && forall j :: 0 <= j < |dates| ==> r[j] == Bucket(dates[j], 0)
  {
    if dates == [] then [] else Zeros(dates[..|dates| - 1]) + [Bucket(dates[|dates| - 1], 0)]
  }

  method ZeroBuckets(days: int, nowMs: int) returns (r: Result<(map<string, nat>, seq<Bucket>), DateError>)
    ensures r.Err? <==> exists i :: 0 <= i < days && !ShiftInRange(nowMs, i)
    ensures r.Ok? ==>
              var dates := Slices(Today(nowMs) - days + 1, Length(days));
              r.value.0 == DayIndex(dates) && r.value.1 == Zeros(dates)
  {
    hide DaySlice, ShiftInRange, Slices, DayIndex, Zeros, Today;
    var dayIndex: map<string, nat> := map[];
    var daily: seq<Bucket> := [];
    ghost var first := Today(nowMs) - days + 1;
    NoSlices(first);
    var i := days - 1;
    while i >= 0
      invariant i <= days - 1 && (if days >= 1 then -1 <= i else i == days - 1)
      invariant |daily| == days - 1 - i
      invariant dayIndex == DayIndex(Slices(first, |daily|)) && daily == Zeros(Slices(first, |daily|))
      invariant forall k :: i < k < days ==> ShiftInRange(nowMs, k)
    {
      if !ShiftInRange(nowMs, i) {
        return Err(RangeError);
      }
      DayOfShift(nowMs, i);
      var date := DaySlice((nowMs - i * MS_PER_DAY) / MS_PER_DAY);
      SlicesStep(first, |daily|);
      dayIndex := dayIndex[date := |daily|];
      daily := daily + [Bucket(date, 0)];
      i := i - 1;
    }
    return Ok((dayIndex, daily));
  }

  lemma {:induction false} DayOfShift(nowMs: int, i: int)
    ensures (nowMs - i * MS_PER_DAY) / MS_PER_DAY == Today(nowMs) - i
  {
  }

  lemma {:induction false} NoSlices(first: int)
    ensures Slices(first, 0) == [] && DayIndex([]) == map[] && Zeros([]) == []
  {
  }

  lemma {:induction false} DatesStep(dates: seq<string>, date: string)
    ensures Zeros(dates + [date]) == Zeros(dates) + [Bucket(date, 0)]
    ensures DayIndex(dates + [date]) == DayIndex(dates)[date := |dates|]
  {
    assert (dates + [date])[..|dates|] == dates;
  }

  lemma {:induction false} SlicesStep(first: int, n: nat)
    ensures Slices(first, n + 1) == Slices(first, n) + [DaySlice(first + n)]
    ensures Zeros(Slices(first, n + 1)) == Zeros(Slices(first, n)) + [Bucket(DaySlice(first + n), 0)]
    ensures DayIndex(Slices(first, n + 1)) == DayIndex(Slices(first, n))[DaySlice(first + n) := n]
  {
    hide DaySlice, Zeros, DayIndex;
    DatesStep(Slices(first, n), DaySlice(first + n));
  }

  method SummarizeRefusals(collate: Collate, parse: Parse, rows: seq<Row>, days: int, topN: int, nowMs: int)
    returns (r: Result<Summary, DateError>)
    ensures r.Err? <==> exists i :: 0 <= i < days && !ShiftInRange(nowMs, i)
    ensures r.Ok? ==> r.value == Summarized(collate, parse, rows, days, topN, nowMs)
  {
    hide StableSort, SliceTo, MostFrequent, Dedup, CountAll, Filter;
    hide DaySlice, ShiftInRange, Normal, Slices, Zeros, DayIndex, CategoryCounts, CodeCounts, CountCode, UtcDay;
    hide BucketAt;
    var zero := ZeroBuckets(days, nowMs);
    if zero.Err? {
      return Err(RangeError);
    }
    var dayIndex, daily := zero.value.0, zero.value.1;
    ghost var dates := Slices(Today(nowMs) - days + 1, Length(days));
    var byCategory: map<string, nat> := map["not_granted" := 0, "policy" := 0, "state" := 0, "human" := 0];
    var codeCounts: seq<CodeCount> := [];
    var hasLoopSource := false;
    NothingCounted(parse, dates);
    for i := 0 to |rows|
      invariant byCategory == CategoryCounts(rows[..i])
      invariant codeCounts == CodeCounts(rows[..i])
      invariant hasLoopSource <==> Filter(rows[..i], IsLoop()) != []
      invariant |daily| == |dates| && forall j :: 0 <= j < |dates| ==> daily[j] == BucketAt(parse, dates, rows[..i], j)
    {
      var row := rows[i];
      assert rows[..i + 1] == rows[..i] + [row];
      CategoryStep(rows[..i], row);
      CodeCountsSnoc(rows[..i], row);
      FilterSnoc(rows[..i], row, IsLoop());
      BucketStep(parse, dates, rows[..i], row);
      IndexFacts(dates);
      var category := Normal(row.category);
      byCategory := byCategory[category := byCategory[category] + 1];
      codeCounts := CountCode(codeCounts, row.code);
      if row.source == Some("loop") {
        hasLoopSource := true;
      }
      var day := UtcDay(parse, row);
      if day.Some? && day.value in dayIndex {
        var k := dayIndex[day.value];
        daily := daily[k := Bucket(daily[k].date, daily[k].count + 1)];
      }
    }
    assert rows[..|rows|] == rows;
    var topCodes := SliceTo(StableSort(codeCounts, MostFrequent(collate)), topN);
    assert daily == Buckets(parse, dates, rows, |dates|);
    return Ok(Summary(|rows|, byCategory, topCodes, daily, hasLoopSource));
  }

  lemma {:induction false} NothingCounted(parse: Parse, dates: seq<string>)
    ensures CategoryCounts([]) == map["not_granted" := 0, "policy" := 0, "state" := 0, "human" := 0]
    ensures CodeCounts([]) == [] && Filter([], IsLoop()) == []
    ensures forall j :: 0 <= j < |dates| ==> BucketAt(parse, dates, [], j) == Bucket(dates[j], 0)
  {
  }

  lemma {:induction false} NormalCategory(c: string)
    ensures Normal(c) in {"not_granted", "policy", "state", "human"}
  {
  }

  lemma {:induction false} CategoryStep(rows: seq<Row>, r: Row)
    ensures Normal(r.category) in CategoryCounts(rows)
    ensures CategoryCounts(rows + [r])
         == CategoryCounts(rows)[Normal(r.category) := CategoryCounts(rows)[Normal(r.category)] + 1]
  {
    hide Normal, Filter;
    NormalCategory(r.category);
    forall c ensures |Filter(rows + [r], InCategory(c))|
        == |Filter(rows, InCategory(c))| + (if c == Normal(r.category) then 1 else 0) {
      FilterSnoc(rows, r, InCategory(c));
    }
  }

  lemma {:induction false} CountAllSnoc(codes: seq<string>, rows: seq<Row>, r: Row)
    requires Distinct(codes)
    ensures CountAll(codes, rows + [r])
         == if r.code in codes then CountCode(CountAll(codes, rows), r.code) else CountAll(codes, rows)
  {
    hide Filter;
    if codes != [] {
      var first, rest := codes[0], codes[1..];
      CountAllSnoc(rest, rows, r);
      FilterSnoc(rows, r, HasCode(first));
      assert r.code in codes <==> r.code == first || r.code in rest by {
        assert codes == [first] + rest;
      }
      var counts := CountAll(codes, rows);
      assert counts == [CodeCount(first, |Filter(rows, HasCode(first))|)] + CountAll(rest, rows);
      assert counts[1..] == CountAll(rest, rows);
      if first == r.code {
        assert r.code !in rest;
      }
    }
  }

  lemma {:induction false} CountAllNew(codes: seq<string>, rows: seq<Row>, code: string)
    requires code !in codes
    ensures CountAll(codes + [code], rows) == CountAll(codes, rows) + [CodeCount(code, |Filter(rows, HasCode(code))|)]
    ensures CountCode(CountAll(codes, rows), code) == CountAll(codes, rows) + [CodeCount(code, 1)]
  {
    if codes == [] {
      assert [code][1..] == [];
    } else {
      assert (codes + [code])[1..] == codes[1..] + [code];
      assert CountAll(codes, rows)[1..] == CountAll(codes[1..], rows);
      CountAllNew(codes[1..], rows, code);
    }
  }

  lemma {:induction false} CodeCountsSnoc(rows: seq<Row>, r: Row)
    ensures CodeCounts(rows + [r]) == CountCode(CodeCounts(rows), r.code)
  {
    var codes := Dedup(Codes(rows));
    CodesSnoc(rows, r);
    DedupSnoc(Codes(rows), r.code);
    CountAllSnoc(codes, rows, r);
    if r.code !in codes {
      CountAllNew(codes, rows + [r], r.code);
      CountAllNew(codes, rows, r.code);
      FilterSnoc(rows, r, HasCode(r.code));
      CodesMembers(rows, r.code);
      FilterEmpty(rows, HasCode(r.code));
      assert Filter(rows + [r], HasCode(r.code)) == [r];
    }
  }

  lemma {:induction false} IndexFacts(dates: seq<string>)
    ensures forall d :: d in DayIndex(dates) <==> d in dates
    ensures forall d :: d in DayIndex(dates) ==> DayIndex(dates)[d] < |dates| && dates[DayIndex(dates)[d]] == d
  {
  }

  /** One row more is one more in the bucket that its slice points to. */
  lemma {:induction false} BucketStep(parse: Parse, dates: seq<string>, rows: seq<Row>, r: Row)
    ensures forall j :: 0 <= j < |dates| ==>
              var before, after := BucketAt(parse, dates, rows, j), BucketAt(parse, dates, rows + [r], j);
              after == if UtcDay(parse, r).Some? && UtcDay(parse, r).value in DayIndex(dates)
                  && DayIndex(dates)[UtcDay(parse, r).value] == j
                       then Bucket(before.date, before.count + 1) else before
  {
    hide UtcDay, DayIndex, Filter;
    IndexFacts(dates);
    forall j | 0 <= j < |dates|
      ensures var before, after := BucketAt(parse, dates, rows, j), BucketAt(parse, dates, rows + [r], j);
              after == if UtcDay(parse, r).Some? && UtcDay(parse, r).value in DayIndex(dates)
                  && DayIndex(dates)[UtcDay(parse, r).value] == j
                       then Bucket(before.date, before.count + 1) else before
    {
      FilterSnoc(rows, r, OnSlice(parse, dates[j]));
    }
  }

  // ------------------------------------------------------------- the daily trend

  lemma {:induction false} SlicesAt(first: int, n: nat, j: nat)
    requires j < n
    ensures Slices(first, n)[j] == DaySlice(first + j)
  {
    hide DaySlice;
    if j < n - 1 {
      SlicesAt(first, n - 1, j);
    }
  }

  lemma {:induction false} IndexLast(dates: seq<string>, j: nat)
    requires j < |dates|
    ensures j <= DayIndex(dates)[dates[j]]
  {
    if j < |dates| - 1 {
      assert dates[..|dates| - 1][j] == dates[j];
      IndexLast(dates[..|dates| - 1], j);
    }
  }

  predicate FourDigitDay(day: int) {
    DayFromYear(0) <= day < DayFromYear(10_000)
  }

  /** On a four-digit day a row has the day's slice exactly when it is of that day. */
  lemma {:induction false} SliceOfDay(parse: Parse, day: int, r: Row)
    requires FourDigitDay(day)
    ensures OnSlice(parse, DaySlice(day))(r) <==> OnDay(parse, day)(r)
  {
    hide DaySlice;
    if RowDay(parse, r).Some? {
      var d := RowDay(parse, r).value;
      if d != day && DaySlice(d) == DaySlice(day) {
        SameSlice(d, day);
      }
    }
  }

  lemma {:induction false} SameSlice(d: int, day: int)
    requires FourDigitDay(day)
    ensures DaySlice(d) == DaySlice(day) <==> d == day
  {
    hide DaySlice, DateText, DayNumber, ParseDate;
    FourDigitRange(day);
    FourDigitRange(d);
    DateTextBijection(day);
    if 0 <= YearOfDay(d) <= 9999 {
      DateTextBijection(d);
    } else {
      DayOfCivilOfDay(day);
      DayBackToText(day);
      ExtendedSliceFirst(d, CivilOfDay(day));
      StrLessIrreflexive(DaySlice(day));
    }
  }

  lemma {:induction false} DayBackToText(day: int)
    requires 0 <= YearOfDay(day) <= 9999
    ensures FourDigit(CivilOfDay(day)) && DateText(CivilOfDay(day)) == DaySlice(day)
  {
    DayOfCivilOfDay(day);
    FourDigitText(CivilOfDay(day));
  }

  /** Every day from `first` on has a bucket that counts exactly the rows of that day. */
  ghost predicate CountsDays(parse: Parse, rows: seq<Row>, first: int, n: nat) {
    forall j :: 0 <= j < n ==>
        Buckets(parse, Slices(first, n), rows, n)[j].count == |Filter(rows, OnDay(parse, first + j))|
  }

  lemma {:induction false} BucketCountsDay(parse: Parse, rows: seq<Row>, first: int, n: nat, j: nat)
    requires j < n && DayFromYear(0) <= first && first + n <= DayFromYear(10_000)
    ensures BucketAt(parse, Slices(first, n), rows, j).count == |Filter(rows, OnDay(parse, first + j))|
  {
    hide DaySlice, OnSlice, OnDay, Slices, DayIndex, Filter;
    OwnIndex(first, n, j);
    SlicesAt(first, n, j);
    forall r | r in rows ensures OnSlice(parse, DaySlice(first + j))(r) == OnDay(parse, first + j)(r) {
      SliceOfDay(parse, first + j, r);
    }
    FilterCong(rows, OnSlice(parse, DaySlice(first + j)), OnDay(parse, first + j));
  }

  /** Main result on the trend: if the days of the window are in years 0000 to 9999, bucket `j`
      counts exactly the rows of its own day. */
  lemma {:induction false} TrendCountsDays(parse: Parse, rows: seq<Row>, first: int, n: nat)
    requires DayFromYear(0) <= first && first + n <= DayFromYear(10_000)
    ensures CountsDays(parse, rows, first, n)
  {
    hide DaySlice, OnDay, Slices, BucketAt, Filter;
    forall j | 0 <= j < n ensures Buckets(parse, Slices(first, n), rows, n)[j].count
        == |Filter(rows, OnDay(parse, first + j))| {
      BucketCountsDay(parse, rows, first, n, j);
    }
  }

  lemma {:induction false} OwnIndex(first: int, n: nat, j: nat)
    requires j < n && DayFromYear(0) <= first && first + n <= DayFromYear(10_000)
    ensures DayIndex(Slices(first, n))[Slices(first, n)[j]] == j
  {
    hide DaySlice;
    var dates := Slices(first, n);
    var k := DayIndex(dates)[dates[j]];
    SlicesAt(first, n, j);
    SlicesAt(first, n, k);
    SameSlice(first + k, first + j);
  }

  // ------------------------------------------------------------- outside years 0000 to 9999

  /** The last days of the time range are inside their months. */
  lemma {:induction false} RangeEnds()
    ensures CivilOfDay(-100_000_000) == Civil(-271_821, 4, 20) && CivilOfDay(100_000_000) == Civil(275_760, 9, 13)
  {
    assert DayNumber(Civil(-271_821, 4, 20)) == -100_000_000;
    assert DayNumber(Civil(275_760, 9, 13)) == 100_000_000;
    CivilOfDayNumber(Civil(-271_821, 4, 20));
    CivilOfDayNumber(Civil(275_760, 9, 13));
  }

  lemma {:induction false} OutOfFourDigits(day: int)
    requires !FourDigitDay(day)
    ensures !(0 <= CivilOfDay(day).year <= 9999)
  {
    FourDigitRange(day);
  }

  lemma {:induction false} SameMonth(c: Civil, d: Civil)
    requires ValidCivil(c) && ValidCivil(d) && c.year == d.year && c.month == d.month
    ensures DayNumber(d) - DayNumber(c) == d.day - c.day
  {
  }

  /** A neighbouring day of the same month, in the time range if the day is. */
  lemma {:induction false} Neighbour(day: int) returns (other: int)
    requires !FourDigitDay(day) && -100_000_000 <= day <= 100_000_000
    ensures (other == day + 1 || other == day - 1) && DaySlice(other) == DaySlice(day)
    ensures -100_000_000 <= other <= 100_000_000
  {
    hide DateText, DaySlice, DayNumber, CivilOfDay, DaysInMonth;
    RangeEnds();
    var c := CivilOfDay(day);
    DayOfCivilOfDay(day);
    OutOfFourDigits(day);
    var up := c.day < DaysInMonth(c.year, c.month) && day != 100_000_000;
    var d := c.(day := if up then c.day + 1 else c.day - 1);
    SameMonth(c, d);
    SameMonthSlice(c, d);
    other := DayNumber(d);
  }

  /** Two days of the window with the same slice: the earlier one's bucket stays empty. */
  lemma {:induction false} EarlierMissed(parse: Parse, r: Row, first: int, n: nat, a: nat, b: nat)
    requires a < b < n
    ensures DaySlice(first + a) == DaySlice(first + b) && RowDay(parse, r) == Some(first + a)
       ==> !CountsDays(parse, [r], first, n)
  {
    hide DaySlice, RowDay, Filter, UtcDay;
    var dates := Slices(first, n);
    SlicesAt(first, n, a);
    SlicesAt(first, n, b);
    IndexLast(dates, b);
    OneRow(r, OnDay(parse, first + a));
    assert Buckets(parse, dates, [r], n)[a] == BucketAt(parse, dates, [r], a);
    if DaySlice(first + a) == DaySlice(first + b) && RowDay(parse, r) == Some(first + a) {
      assert Buckets(parse, dates, [r], n)[a].count == 0;
    }
  }

  /** A day outside the window that shares a slice with a day inside is counted all the same. */
  lemma {:induction false} OutsiderCounted(parse: Parse, r: Row, first: int, n: nat, j: nat, day: int)
    requires j < n && !(first <= day < first + n)
    ensures DaySlice(day) == DaySlice(first + j) && RowDay(parse, r) == Some(day) ==> !CountsDays(parse, [r], first, n)
  {
    hide DaySlice, RowDay, Filter;
    var dates := Slices(first, n);
    SlicesAt(first, n, j);
    var k := DayIndex(dates)[dates[j]];
    SlicesAt(first, n, k);
    OneRow(r, OnDay(parse, first + k));
    OneRow(r, OnSlice(parse, dates[k]));
    assert Buckets(parse, dates, [r], n)[k] == BucketAt(parse, dates, [r], k);
    if DaySlice(day) == DaySlice(first + j) && RowDay(parse, r) == Some(day) {
      assert Buckets(parse, dates, [r], n)[k].count == 1;
    }
  }

  lemma {:induction false} SomeRowMiscounted(first: int, n: nat, j: nat) returns (parse: Parse, r: Row)
    requires j < n && !FourDigitDay(first + j) && -100_000_000 <= first + j <= 100_000_000
    ensures !CountsDays(parse, [r], first, n)
  {
    hide DaySlice;
    var other := Neighbour(first + j);
    var inside := first <= other < first + n;
    var day := if inside && other > first + j then first + j else other;
    var stamp: TimeValue := day * MS_PER_DAY;
    parse := (text: string) => Some(stamp);
    r := Row("", "policy", "", Some("-"), None);
    assert RowDay(parse, r) == Some(day);
    if inside {
      EarlierMissed(parse, r, first, n, day - first, (if other > first + j then other else first + j) - first);
    } else {
      OutsiderCounted(parse, r, first, n, j, day);
    }
  }

  /** So, for every window of valid dates, the trend is right for all rows if and only if the window
      is empty or lies in years 0000 to 9999: a day with a signed year shares its ten characters with
      its neighbours. */
  lemma {:induction false} TrendExact(first: int, n: nat)
    requires -100_000_000 <= first && first + n <= 100_000_001
    ensures (forall parse: Parse, rows: seq<Row> :: CountsDays(parse, rows, first, n))
       <==> n == 0 || (DayFromYear(0) <= first && first + n <= DayFromYear(10_000))
  {
    hide DaySlice;
    if n == 0 {
      return;
    }
    hide CountsDays;
    if DayFromYear(0) <= first && first + n <= DayFromYear(10_000) {
      forall parse: Parse, rows: seq<Row> ensures CountsDays(parse, rows, first, n) {
        TrendCountsDays(parse, rows, first, n);
      }
    } else {
      var parse, r := SomeRowMiscounted(first, n, if DayFromYear(0) <= first then n - 1 else 0);
      assert !CountsDays(parse, [r], first, n);
    }
  }

  lemma {:induction false} OneRow(r: Row, p: Row -> bool)
    ensures |Filter([r], p)| == if p(r) then 1 else 0
  {
    assert [r][1..] == [];
    assert Filter([], p) == [];
  }

  // ------------------------------------------------------------- codes and categories

  lemma {:induction false} PreorderCounts(collate: Collate)
    ensures TotalPreorder(MostFrequent(collate))
  {
  }

  lemma {:induction false} CountAllAt(codes: seq<string>, rows: seq<Row>, k: nat)
    requires k < |codes|
    ensures CountAll(codes, rows)[k] == CodeCount(codes[k], |Filter(rows, HasCode(codes[k]))|)
  {
    if k > 0 {
      CountAllAt(codes[1..], rows, k - 1);
    }
  }

  /** Every code that occurs is counted, with its number of rows, and no other. */
  lemma {:induction false} CountedCodes(rows: seq<Row>, x: CodeCount)
    ensures x in CodeCounts(rows) <==> x.count == |Filter(rows, HasCode(x.code))| && x.count > 0
  {
    hide Dedup, Filter;
    var codes := Dedup(Codes(rows));
    CodesMembers(rows, x.code);
    FilterEmpty(rows, HasCode(x.code));
    if x in CodeCounts(rows) {
      var k :| 0 <= k < |codes| && CodeCounts(rows)[k] == x;
      CountAllAt(codes, rows, k);
    }
    if x.code in codes {
      var k :| 0 <= k < |codes| && codes[k] == x.code;
      CountAllAt(codes, rows, k);
    }
  }

  /** Main result on codes: the listed codes are the first ones in the order count descending, then
      collation ascending, ties in order of first appearance; no code left out precedes a listed
      one. */
  lemma {:induction false} TopCodesAreTop(collate: Collate, rows: seq<Row>, topN: int)
    ensures var all := StableSort(CodeCounts(rows), MostFrequent(collate));
            var top := SliceTo(all, topN);
            && Sorted(all, MostFrequent(collate))
            && top <= all
            && (0 <= topN ==> |top| == if |all| < topN then |all| else topN)
            && (forall x :: x in all <==> x in CodeCounts(rows))
            && (forall x :: Ties(all, MostFrequent(collate), x) == Ties(CodeCounts(rows), MostFrequent(collate), x))
            && (forall i, j :: 0 <= i < |top| <= j < |all| ==> MostFrequent(collate)(top[i], all[j]))
  {
    hide CodeCounts, Ties;
    var all := StableSort(CodeCounts(rows), MostFrequent(collate));
    PreorderCounts(collate);
    SortSorts(CodeCounts(rows), MostFrequent(collate));
    SortMembers(CodeCounts(rows), MostFrequent(collate));
    forall x ensures Ties(all, MostFrequent(collate), x) == Ties(CodeCounts(rows), MostFrequent(collate), x) {
      SortStable(CodeCounts(rows), MostFrequent(collate), x);
    }
  }

  /** Main result on codes and groups: the count of a listed code is the sum of the sizes of its
      groups over all categories of the grouped rows. */
  lemma {:induction false} CodeCountIsGroupSizes(collate: Collate, parse: Parse, rows: seq<Row>, days: int, topN: int,
      nowMs: int)
    ensures forall x :: x in Summarized(collate, parse, rows, days, topN, nowMs).topCodes ==>
              x.count == CodeSizeAll(Grouped(collate, rows, |CATEGORY_ORDER|), x.code)
  {
    hide Normal, Filter, Grouped, CodeSizeAll, CodeCounts, Buckets, Slices, CategoryCounts;
    TopCodesAreTop(collate, rows, topN);
    var all := StableSort(CodeCounts(rows), MostFrequent(collate));
    forall x | x in SliceTo(all, topN)
      ensures x.count == CodeSizeAll(Grouped(collate, rows, |CATEGORY_ORDER|), x.code)
    {
      assert x in all;
      CountedCodes(rows, x);
      CodeSizeTotal(collate, rows, x.code);
    }
  }

  /** Main result on categories: a category has a group exactly when the summary counts it above
      zero, with that count, and the counts of all groups add up to the summary's total. */
  lemma {:induction false} CountsAgree(collate: Collate, parse: Parse, rows: seq<Row>, days: int, topN: int, nowMs: int)
    ensures var groups := Grouped(collate, rows, |CATEGORY_ORDER|);
            var summary := Summarized(collate, parse, rows, days, topN, nowMs);
            && (forall g :: g in groups ==>
                g.category in summary.byCategory && g.count == summary.byCategory[g.category] > 0)
            && (forall c :: c in summary.byCategory && summary.byCategory[c] > 0 ==>
                exists g :: g in groups && g.category == c)
            && CountTotal(groups) == summary.total
  {
    hide Normal, Filter, Grouped, CodeCounts, Buckets, Slices, CountTotal;
    var groups := Grouped(collate, rows, |CATEGORY_ORDER|);
    GroupedMembers(collate, rows, |CATEGORY_ORDER|);
    CountsAddUp(collate, rows);
    forall g | g in groups
      ensures g.category in CategoryCounts(rows) && g.count == CategoryCounts(rows)[g.category] > 0
    {
      GroupCount(collate, rows, g.category);
    }
    forall c | c in CategoryCounts(rows) && CategoryCounts(rows)[c] > 0
      ensures exists g :: g in groups && g.category == c
    {
      var k := CategoryPosition(c);
      assert GroupOf(collate, rows, c) in groups;
      assert GroupOf(collate, rows, c).category == c;
    }
  }

  lemma {:induction false} CategoryPosition(c: string) returns (k: nat)
    requires c in {"not_granted", "policy", "state", "human"}
    ensures k < |CATEGORY_ORDER| && CATEGORY_ORDER[k] == c
  {
    k := if c == "not_granted" then 0 else if c == "policy" then 1 else if c == "state" then 2 else 3;
  }

  lemma {:induction false} GroupCount(collate: Collate, rows: seq<Row>, category: string)
    requires category in CATEGORY_ORDER
    ensures category in CategoryCounts(rows) && GroupOf(collate, rows, category).count == CategoryCounts(rows)[category]
  {
    hide Normal, Filter, CodeGroups, SortEach;
  }

  // ------------------------------------------------------------- the summary in words

  lemma {:induction false} ListedOrNot(collate: Collate, rows: seq<Row>, topN: int, code: string)
    requires RowCount(rows, code) > 0
    ensures CodeCount(code, RowCount(rows, code)) in StableSort(CodeCounts(rows), MostFrequent(collate))
  {
    hide CodeCounts, Ties, RowCount;
    RowCountIs(rows, code);
    TopCodesAreTop(collate, rows, topN);
    CountedCodes(rows, CodeCount(code, RowCount(rows, code)));
  }

  /** Main result on codes, in row counts and collation: the list has the rows of each code, most
      frequent first and equal ones by collation; no code that is left out has more rows than a
      listed one, or as many and an earlier name. */
  lemma {:induction false} TopCodesByCount(collate: Collate, parse: Parse, rows: seq<Row>, days: int, topN: int,
                                           nowMs: int)
    ensures var top := Summarized(collate, parse, rows, days, topN, nowMs).topCodes;
            && (forall x :: x in top ==> x.count == RowCount(rows, x.code) > 0)
            && (forall i, j :: 0 <= i < j < |top| ==>
                top[i].count > top[j].count
                || (top[i].count == top[j].count && collate(top[i].code) <= collate(top[j].code)))
            && (forall x, code ::
                  x in top && RowCount(rows, code) > 0 && CodeCount(code, RowCount(rows, code)) !in top ==>
                  x.count > RowCount(rows, code)
                  || (x.count == RowCount(rows, code) && collate(x.code) <= collate(code)))
  {
    hide CodeCounts, Ties, RowCount, Buckets, Slices, CategoryCounts, Filter;
    var all := StableSort(CodeCounts(rows), MostFrequent(collate));
    var top := SliceTo(all, topN);
    TopCodesAreTop(collate, rows, topN);
    forall x | x in top ensures x.count == RowCount(rows, x.code) > 0 {
      assert x in all;
      CountedCodes(rows, x);
      RowCountIs(rows, x.code);
    }
    forall i, j | 0 <= i < j < |top|
      ensures top[i].count > top[j].count
              || (top[i].count == top[j].count && collate(top[i].code) <= collate(top[j].code))
    {
      assert MostFrequent(collate)(all[i], all[j]);
      assert top[i] == all[i] && top[j] == all[j];
    }
    forall x, code | x in top && RowCount(rows, code) > 0 && CodeCount(code, RowCount(rows, code)) !in top
      ensures x.count > RowCount(rows, code)
              || (x.count == RowCount(rows, code) && collate(x.code) <= collate(code))
    {
      ListedOrNot(collate, rows, topN, code);
      var y := CodeCount(code, RowCount(rows, code));
      var i :| 0 <= i < |top| && top[i] == x;
      var j :| 0 <= j < |all| && all[j] == y;
      BeyondPrefix(top, all, j);
      assert MostFrequent(collate)(top[i], all[j]);
    }
  }

  lemma {:induction false} BeyondPrefix(top: seq<CodeCount>, all: seq<CodeCount>, j: nat)
    requires top <= all && j < |all|
    ensures all[j] !in top ==> |top| <= j
  {
    assert j < |top| ==> top[j] == all[j];
  }

  /** How many codes are listed: at most `topN`; a negative one leaves out that many at the end. */
  lemma {:induction false} TopCodesLength(collate: Collate, parse: Parse, rows: seq<Row>, days: int, topN: int,
                                          nowMs: int)
    ensures var n, k := |CodeCounts(rows)|, |Summarized(collate, parse, rows, days, topN, nowMs).topCodes|;
            k == (if topN >= n then n else if topN >= 0 then topN else if n + topN >= 0 then n + topN else 0)
  {
    hide CodeCounts, Buckets, Slices, CategoryCounts;
  }

  /** The row's time lies in a day. */
  predicate FallsOn(parse: Parse, r: Row, day: int) {
    && r.at.Some? && r.at.value != "" && parse(r.at.value).Some?
    && day * 86_400_000 <= parse(r.at.value).value < (day + 1) * 86_400_000
  }

  function RowsOn(parse: Parse, rows: seq<Row>, day: int): nat {
    if rows == [] then 0 else (if FallsOn(parse, rows[0], day) then 1 else 0) + RowsOn(parse, rows[1..], day)
  }

  lemma {:induction false} RowsOnIs(parse: Parse, rows: seq<Row>, day: int)
    ensures RowsOn(parse, rows, day) == |Filter(rows, OnDay(parse, day))|
  {
    if rows != [] {
      RowsOnIs(parse, rows[1..], day);
      FallsOnIs(parse, rows[0], day);
    }
  }

  lemma {:induction false} FallsOnIs(parse: Parse, r: Row, day: int)
    ensures OnDay(parse, day)(r) <==> FallsOn(parse, r, day)
  {
    if r.at.Some? && parse(r.at.value).Some? {
      var ms := parse(r.at.value).value;
      assert ms / 86_400_000 == day <==> day * 86_400_000 <= ms < (day + 1) * 86_400_000;
    }
  }

  /** Main result on the trend, in days and milliseconds: there is one bucket for each day up to today,
      oldest first, labelled with its date, and in years 0000 to 9999 it has the number of rows whose
      time falls on that day. */
  lemma {:induction false} TrendInDays(collate: Collate, parse: Parse, rows: seq<Row>, days: int, topN: int, nowMs: int)
    requires days >= 1
    ensures var today, daily := nowMs / 86_400_000, Summarized(collate, parse, rows, days, topN, nowMs).daily;
            && |daily| == days
            && (forall j :: 0 <= j < days ==> daily[j].date == DaySlice(today - (days - 1 - j)))
            && (DayFromYear(0) <= today - days + 1 && today < DayFromYear(10_000) ==>
                forall j :: 0 <= j < days ==> daily[j].count == RowsOn(parse, rows, today - (days - 1 - j)))
  {
    hide CodeCounts, CategoryCounts, DaySlice, Filter, RowsOn, DayFromYear, BucketAt;
    var today := nowMs / 86_400_000;
    var first := today - days + 1;
    var dates := Slices(first, days);
    var daily := Summarized(collate, parse, rows, days, topN, nowMs).daily;
    assert daily == Buckets(parse, dates, rows, days);
    forall j | 0 <= j < days ensures daily[j].date == DaySlice(today - (days - 1 - j)) {
      SlicesAt(first, days, j);
      BucketDate(parse, dates, rows, j);
    }
    if DayFromYear(0) <= first && today < DayFromYear(10_000) {
      forall j | 0 <= j < days ensures daily[j].count == RowsOn(parse, rows, today - (days - 1 - j)) {
        BucketCountsDay(parse, rows, first, days, j);
        RowsOnIs(parse, rows, first + j);
      }
    }
  }

  lemma {:induction false} BucketDate(parse: Parse, dates: seq<string>, rows: seq<Row>, j: nat)
    requires j < |dates|
    ensures BucketAt(parse, dates, rows, j).date == dates[j]
  {
  }

  /** The rest of the summary: the number of rows, of rows in each category, and whether any row comes
      from the loop. */
  lemma {:induction false} SummaryTotals(collate: Collate, parse: Parse, rows: seq<Row>, days: int, topN: int,
      nowMs: int)
    ensures var s := Summarized(collate, parse, rows, days, topN, nowMs);
            && s.total == |rows|
            && s.byCategory.Keys == {"not_granted", "policy", "state", "human"}
            && (forall c :: c in s.byCategory ==> s.byCategory[c] == BelongingRows(rows, c))
            && (s.hasLoopSource <==> exists r :: r in rows && r.source == Some("loop"))
  {
    hide CodeCounts, Buckets, Slices, Filter, InCategory, BelongingRows;
    FilterEmpty(rows, IsLoop());
    forall c | c in CategoryCounts(rows) ensures CategoryCounts(rows)[c] == BelongingRows(rows, c) {
      BelongingRowsIs(rows, c);
    }
  }

  function BelongingRows(rows: seq<Row>, category: string): nat {
    if rows == [] then 0 else (if Belongs(rows[0], category) then 1 else 0) + BelongingRows(rows[1..], category)
  }

  lemma {:induction false} BelongingRowsIs(rows: seq<Row>, category: string)
    requires category == "not_granted" || category == "policy" || category == "state" || category == "human"
    ensures BelongingRows(rows, category) == |Filter(rows, InCategory(category))|
  {
    if rows != [] {
      hide InCategory, Belongs;
      BelongsIs(rows[0], category);
      BelongingRowsIs(rows[1..], category);
    }
  }

  /** The summary fails exactly when some day of the window is further than 8.64e15 ms from 1970. */
  lemma {:induction false} ShiftLimits(nowMs: int, i: int)
    ensures ShiftInRange(nowMs, i)
       <==> -8_640_000_000_000_000 <= nowMs - i * 86_400_000 <= 8_640_000_000_000_000
  {
  }
}
