/** The proleptic Gregorian calendar of `Date` (section 21.4.1 of ECMA-262), the ten-character
    date text that `toISOString().slice(0, 10)` yields, and the order of strings. A day number
    counts days from 1970-01-01; a time value counts milliseconds. */
module Calendar {
  import opened Sequences

  const MS_PER_DAY: int := 86_400_000
  /** Time values outside this range are invalid dates (section 21.4.1.1). */
  const MAX_TIME: int := 8_640_000_000_000_000

  // ------------------------------------------------------------- string order

  /** `a < b` on strings. */
  predicate StrLess(a: string, b: string) {
    if b == "" then false
    else if a == "" then true
    else a[0] < b[0] || (a[0] == b[0] && StrLess(a[1..], b[1..]))
  }

  /** `a <= b` on strings, which section 13.10.1 defines as the negation of `b < a`. */
  predicate StrLeq(a: string, b: string) {
    !StrLess(b, a)
  }

  lemma {:induction false} StrLessConcat(p: string, q: string, x: string, y: string)
    requires |p| == |q|
    ensures StrLess(p + x, q + y) <==> StrLess(p, q) || (p == q && StrLess(x, y))
  {
    if p == "" {
      assert p + x == x && q + y == y;
    } else {
      StrLessConcat(p[1..], q[1..], x, y);
      assert (p + x)[1..] == p[1..] + x && (q + y)[1..] == q[1..] + y;
      if p[0] == q[0] && p[1..] == q[1..] {
        assert p == [p[0]] + p[1..] && q == [q[0]] + q[1..];
      }
    }
  }

  // ------------------------------------------------------------- digits

  function Digit(n: int): char
    requires 0 <= n < 10
  {
    (48 + n) as char
  }

  predicate IsDigit(c: char) {
    '0' <= c <= '9'
  }

  function Pow10(w: nat): (r: int)
    ensures r >= 1
  {
    if w == 0 then 1 else 10 * Pow10(w - 1)
  }

  /** The decimal digits of `n`, padded to `w` places. */
  function Pad(n: nat, w: nat): (s: string)
    ensures |s| == w
    ensures forall i :: 0 <= i < w ==> IsDigit(s[i])
  {
    if w == 0 then "" else Pad(n / 10, w - 1) + [Digit(n % 10)]
  }

  function Number(s: string): nat
    requires forall i :: 0 <= i < |s| ==> IsDigit(s[i])
  {
    if s == "" then 0
    else
      assert IsDigit(s[|s| - 1]);
      10 * Number(s[..|s| - 1]) + (s[|s| - 1] as int - 48)
  }

  lemma {:induction false} NumberPad(n: nat, w: nat)
    requires n < Pow10(w)
    ensures Number(Pad(n, w)) == n
  {
    if w > 0 {
      NumberPad(n / 10, w - 1);
      assert Pad(n, w)[..w - 1] == Pad(n / 10, w - 1);
    }
  }

  lemma {:induction false} PadNumber(s: string)
    requires forall i :: 0 <= i < |s| ==> IsDigit(s[i])
    ensures Number(s) < Pow10(|s|)
    ensures Pad(Number(s), |s|) == s
  {
    if s != "" {
      PadNumber(s[..|s| - 1]);
      assert s == s[..|s| - 1] + [s[|s| - 1]];
      assert Number(s) / 10 == Number(s[..|s| - 1]);
    }
  }

  /** Padded numbers are ordered as strings exactly as they are as numbers. */
  lemma {:induction false} PadOrder(a: nat, b: nat, w: nat)
    requires a < Pow10(w) && b < Pow10(w)
    ensures StrLess(Pad(a, w), Pad(b, w)) <==> a < b
    ensures Pad(a, w) == Pad(b, w) <==> a == b
  {
    NumberPad(a, w);
    NumberPad(b, w);
    if w > 0 {
      PadOrder(a / 10, b / 10, w - 1);
      StrLessConcat(Pad(a / 10, w - 1), Pad(b / 10, w - 1), [Digit(a % 10)], [Digit(b % 10)]);
    }
  }

  // ------------------------------------------------------------- civil dates

  datatype Civil = Civil(year: int, month: int, day: int)

  predicate IsLeap(y: int) {
    y % 4 == 0 && (y % 100 != 0 || y % 400 == 0)
  }

  function YearLength(y: int): int {
    if IsLeap(y) then 366 else 365
  }

  /** Days of the year before month `m` (1..12); `m == 13` gives the length of the year. */
  function DaysBeforeMonth(y: int, m: int): int
    requires 1 <= m <= 13
  {
    [0, 31, 59, 90, 120, 151, 181, 212, 243, 273, 304, 334, 365][m - 1] + (if m > 2 && IsLeap(y) then 1 else 0)
  }

  function DaysInMonth(y: int, m: int): (r: int)
    requires 1 <= m <= 12
    ensures 28 <= r <= 31
  {
    DaysBeforeMonth(y, m + 1) - DaysBeforeMonth(y, m)
  }

  predicate ValidCivil(c: Civil) {
    1 <= c.month <= 12 && 1 <= c.day <= DaysInMonth(c.year, c.month)
  }

  /** The dates whose text has a four-digit year. */
  predicate FourDigit(c: Civil) {
    ValidCivil(c) && 0 <= c.year <= 9999
  }

  function DayFromYear(y: int): int {
    365 * (y - 1970) + (y - 1969) / 4 - (y - 1901) / 100 + (y - 1601) / 400
  }

  function DayNumber(c: Civil): int
    requires ValidCivil(c)
  {
    DayFromYear(c.year) + DaysBeforeMonth(c.year, c.month) + c.day - 1
  }

  lemma {:induction false} Quarters(y: int)
    ensures (y - 1968) / 4 - (y - 1969) / 4 == if y % 4 == 0 then 1 else 0
  {
    assert y == 4 * (y / 4) + y % 4;
  }

  lemma {:induction false} Centuries(y: int)
    ensures (y - 1900) / 100 - (y - 1901) / 100 == if y % 100 == 0 then 1 else 0
  {
    assert y == 100 * (y / 100) + y % 100;
  }

  lemma {:induction false} FourCenturies(y: int)
    ensures (y - 1600) / 400 - (y - 1601) / 400 == if y % 400 == 0 then 1 else 0
  {
    assert y == 400 * (y / 400) + y % 400;
  }

  lemma {:induction false} MultipleOf400(y: int)
    requires y % 400 == 0
    ensures y % 100 == 0
  {
    assert y == 100 * (4 * (y / 400));
  }

  lemma {:induction false} MultipleOf100(y: int)
    requires y % 100 == 0
    ensures y % 4 == 0
  {
    assert y == 4 * (25 * (y / 100));
  }

  lemma {:induction false} YearStep(y: int)
    ensures DayFromYear(y + 1) == DayFromYear(y) + YearLength(y)
  {
    Quarters(y);
    Centuries(y);
    FourCenturies(y);
    if y % 400 == 0 {
      MultipleOf400(y);
    }
    if y % 100 == 0 {
      MultipleOf100(y);
    }
  }

  lemma {:induction false} YearMonotone(a: int, b: int)
    requires a <= b
    ensures DayFromYear(a) + 365 * (b - a) <= DayFromYear(b)
    decreases b - a
  {
    if a < b {
      YearStep(a);
      YearMonotone(a + 1, b);
    }
  }

  /** YearFromTime: the year whose first day is the last one not after `d`, found from guess `y`. */
  function YearFrom(d: int, y: int): (r: int)
    ensures DayFromYear(r) <= d < DayFromYear(r + 1)
    decreases if d < DayFromYear(y) then 1 else 0,
              if d < DayFromYear(y) then DayFromYear(y) - d else d - DayFromYear(y)
  {
    hide DayFromYear, IsLeap;
    YearStep(y);
    YearStep(y - 1);
    if d < DayFromYear(y) then YearFrom(d, y - 1)
    else if d >= DayFromYear(y + 1) then YearFrom(d, y + 1)
    else y
  }

  function YearOfDay(d: int): (r: int)
    ensures DayFromYear(r) <= d < DayFromYear(r + 1)
  {
    YearFrom(d, 1970)
  }

  /** MonthFromTime: the month holding day `n` of year `y`, searched upwards from `m`. */
  function MonthFrom(y: int, n: int, m: int): (r: int)
    requires 1 <= m <= 12
    requires DaysBeforeMonth(y, m) <= n < YearLength(y)
    ensures 1 <= r <= 12
    ensures DaysBeforeMonth(y, r) <= n < DaysBeforeMonth(y, r + 1)
    decreases 12 - m
  {
    if n < DaysBeforeMonth(y, m + 1) then m else MonthFrom(y, n, m + 1)
  }

  function CivilOfDay(d: int): Civil {
    var y := YearOfDay(d);
    YearStep(y);
    var n := d - DayFromYear(y);
    var m := MonthFrom(y, n, 1);
    Civil(y, m, n - DaysBeforeMonth(y, m) + 1)
  }

  /** Every day number is the number of the valid date it converts to. */
  lemma {:induction false} DayOfCivilOfDay(d: int)
    ensures ValidCivil(CivilOfDay(d)) && DayNumber(CivilOfDay(d)) == d
  {
    YearStep(YearOfDay(d));
  }

  predicate CivilLess(a: Civil, b: Civil) {
    a.year < b.year || (a.year == b.year && (a.month < b.month || (a.month == b.month && a.day < b.day)))
  }

  lemma {:induction false} DayWithinYear(c: Civil)
    requires ValidCivil(c)
    ensures DayFromYear(c.year) <= DayNumber(c) < DayFromYear(c.year + 1)
  {
    YearStep(c.year);
  }

  lemma {:induction false} MonthMonotone(y: int, a: int, b: int)
    requires 1 <= a < b <= 13
    ensures DaysBeforeMonth(y, a + 1) <= DaysBeforeMonth(y, b)
  {
  }

  lemma {:induction false} EarlierDate(a: Civil, b: Civil)
    requires ValidCivil(a) && ValidCivil(b) && CivilLess(a, b)
    ensures DayNumber(a) < DayNumber(b)
  {
    if a.year < b.year {
      DayWithinYear(a);
      DayWithinYear(b);
      YearMonotone(a.year + 1, b.year);
    } else if a.month < b.month {
      MonthMonotone(a.year, a.month, b.month);
    }
  }

  /** The order of dates is the order of their day numbers. */
  lemma {:induction false} DateOrder(a: Civil, b: Civil)
    requires ValidCivil(a) && ValidCivil(b)
    ensures CivilLess(a, b) <==> DayNumber(a) < DayNumber(b)
    ensures a == b <==> DayNumber(a) == DayNumber(b)
  {
    if CivilLess(a, b) {
      EarlierDate(a, b);
    } else if CivilLess(b, a) {
      EarlierDate(b, a);
    } else {
      assert a == b;
    }
  }

  /** Every valid date is the date of its own day number. */
  lemma {:induction false} CivilOfDayNumber(c: Civil)
    requires ValidCivil(c)
    ensures CivilOfDay(DayNumber(c)) == c
  {
    DayOfCivilOfDay(DayNumber(c));
    DateOrder(c, CivilOfDay(DayNumber(c)));
  }

  // ------------------------------------------------------------- date text

  /** The date part of `toISOString` (section 21.4.1.32): years outside 0..9999 carry a sign
      and six digits. */
  function DateText(c: Civil): (s: string)
    requires ValidCivil(c)
    ensures |s| >= 10
  {
    (if 0 <= c.year <= 9999 then Pad(c.year, 4)
     else if c.year < 0 then "-" + Pad(-c.year, 6)
     else "+" + Pad(c.year, 6)) + ("-" + (Pad(c.month, 2) + ("-" + Pad(c.day, 2))))
  }

  /** `toISOString` throws on an invalid date. */
  datatype DateError = RangeError

  /** The days of a countdown `for (let i = days - 1; i >= 0; i -= 1)`. */
  function Length(days: int): nat {
    if days > 0 then days else 0
  }

  /** `new Date(86400000 * d).toISOString().slice(0, 10)`: the whole date for years 0..9999,
      only the signed year and month otherwise. */
  function DaySlice(d: int): (s: string)
    ensures |s| == 10
  {
    DayOfCivilOfDay(d);
    DateText(CivilOfDay(d))[..10]
  }

  lemma {:induction false} FourDigitText(c: Civil)
    requires FourDigit(c)
    ensures DateText(c) == Pad(c.year, 4) + ("-" + (Pad(c.month, 2) + ("-" + Pad(c.day, 2))))
    ensures DaySlice(DayNumber(c)) == DateText(c)
  {
    hide Pad, DayNumber;
    CivilOfDayNumber(c);
    assert |DateText(c)| == 10;
    assert DateText(c)[..10] == DateText(c);
  }

  lemma {:induction false} Pow10Facts()
    ensures Pow10(2) == 100 && Pow10(4) == 10_000
  {
    assert Pow10(1) == 10;
    assert Pow10(2) == 100;
    assert Pow10(3) == 1000;
  }

  lemma {:induction false} DashedLess(y1: string, m1: string, d1: string, y2: string, m2: string, d2: string)
    requires |y1| == |y2| && |m1| == |m2|
    ensures StrLess(y1 + ("-" + (m1 + ("-" + d1))), y2 + ("-" + (m2 + ("-" + d2))))
       <==> StrLess(y1, y2) || (y1 == y2 && (StrLess(m1, m2) || (m1 == m2 && StrLess(d1, d2))))
  {
    hide StrLess;
    StrLessIrreflexive("-");
    StrLessConcat(y1, y2, "-" + (m1 + ("-" + d1)), "-" + (m2 + ("-" + d2)));
    StrLessConcat("-", "-", m1 + ("-" + d1), m2 + ("-" + d2));
    StrLessConcat(m1, m2, "-" + d1, "-" + d2);
    StrLessConcat("-", "-", d1, d2);
  }

  lemma {:induction false} TextLess(a: Civil, b: Civil)
    requires FourDigit(a) && FourDigit(b)
    ensures StrLess(DateText(a), DateText(b)) <==> DayNumber(a) < DayNumber(b)
  {
    hide Pad, StrLess, DateText, DayNumber;
    Pow10Facts();
    FourDigitText(a);
    FourDigitText(b);
    DashedLess(Pad(a.year, 4), Pad(a.month, 2), Pad(a.day, 2), Pad(b.year, 4), Pad(b.month, 2), Pad(b.day, 2));
    PadOrder(a.year, b.year, 4);
    PadOrder(a.month, b.month, 2);
    PadOrder(a.day, b.day, 2);
    DateOrder(a, b);
  }

  /** Four-digit dates are ordered as text exactly as they are as days. */
  lemma {:induction false} TextOrder(a: Civil, b: Civil)
    requires FourDigit(a) && FourDigit(b)
    ensures StrLess(DateText(a), DateText(b)) <==> DayNumber(a) < DayNumber(b)
    ensures DateText(a) == DateText(b) <==> DayNumber(a) == DayNumber(b)
  {
    TextLess(a, b);
    TextLess(b, a);
    DateOrder(a, b);
    StrLessIrreflexive(DateText(a));
  }

  lemma {:induction false} StrLessIrreflexive(s: string)
    ensures !StrLess(s, s)
  {
    if s != "" {
      StrLessIrreflexive(s[1..]);
    }
  }

  /** The slice of a day outside years 0..9999 comes before every four-digit date. */
  lemma {:induction false} ExtendedSliceFirst(d: int, c: Civil)
    requires FourDigit(c) && !(0 <= YearOfDay(d) <= 9999)
    ensures StrLess(DaySlice(d), DateText(c))
  {
    DayOfCivilOfDay(d);
    FourDigitText(c);
    assert DaySlice(d)[0] == '-' || DaySlice(d)[0] == '+';
    assert IsDigit(Pad(c.year, 4)[0]);
    assert DateText(c)[0] == Pad(c.year, 4)[0];
  }

  /** Dates of the same month outside years 0..9999 have the same slice. */
  lemma {:induction false} SameMonthSlice(a: Civil, b: Civil)
    requires ValidCivil(a) && ValidCivil(b) && a.year == b.year && a.month == b.month
    requires !(0 <= a.year <= 9999)
    ensures DaySlice(DayNumber(a)) == DaySlice(DayNumber(b))
  {
    hide Pad, DayNumber;
    CivilOfDayNumber(a);
    CivilOfDayNumber(b);
    var yearMonth := (if a.year < 0 then "-" + Pad(-a.year, 6) else "+" + Pad(a.year, 6)) + "-" + Pad(a.month, 2);
    assert |yearMonth| == 10;
    assert DateText(a)[..10] == yearMonth == DateText(b)[..10];
  }

  /** Reads a canonical `YYYY-MM-DD`; such a text followed by `T00:00:00Z` is in the
      interchange format of section 21.4.1.32, so `Date.parse` gives its first millisecond. */
  function ParseDate(s: string): Option<Civil> {
    if |s| == 10 && s[4] == '-' && s[7] == '-'
       && (forall i | 0 <= i < 10 && i != 4 && i != 7 :: IsDigit(s[i])) then
      assert forall i :: 0 <= i < 4 ==> s[..4][i] == s[i];
      assert forall i :: 0 <= i < 2 ==> s[5..7][i] == s[5 + i] && s[8..][i] == s[8 + i];
      var c := Civil(Number(s[..4]), Number(s[5..7]), Number(s[8..]));
      if ValidCivil(c) then Some(c) else None
    else None
  }

  lemma {:induction false} ParseDateText(c: Civil)
    requires FourDigit(c)
    ensures ParseDate(DateText(c)) == Some(c)
  {
    hide Pad, Number, DaySlice, DateText;
    Pow10Facts();
    FourDigitText(c);
    var s := DateText(c);
    assert s[..4] == Pad(c.year, 4) && s[5..7] == Pad(c.month, 2) && s[8..] == Pad(c.day, 2);
    NumberPad(c.year, 4);
    NumberPad(c.month, 2);
    NumberPad(c.day, 2);
    forall i | 0 <= i < 10 && i != 4 && i != 7 ensures IsDigit(s[i]) {
      if i < 4 {
        assert s[i] == Pad(c.year, 4)[i];
      } else if i < 7 {
        assert s[i] == Pad(c.month, 2)[i - 5];
      } else {
        assert s[i] == Pad(c.day, 2)[i - 8];
      }
    }
  }

  lemma {:induction false} DateTextParse(s: string)
    requires ParseDate(s).Some?
    ensures FourDigit(ParseDate(s).value) && DateText(ParseDate(s).value) == s
  {
    Pow10Facts();
    var c := ParseDate(s).value;
    assert s == s[..4] + "-" + s[5..7] + "-" + s[8..];
    PadNumber(s[..4]);
    PadNumber(s[5..7]);
    PadNumber(s[8..]);
  }

  /** The canonical dates and the days of years 0..9999 are in bijection, through the text. */
  lemma {:induction false} DateTextBijection(d: int)
    requires 0 <= YearOfDay(d) <= 9999
    ensures ParseDate(DaySlice(d)) == Some(CivilOfDay(d))
    ensures DayNumber(ParseDate(DaySlice(d)).value) == d
  {
    DayOfCivilOfDay(d);
    FourDigitText(CivilOfDay(d));
    ParseDateText(CivilOfDay(d));
  }

  /** Days are four-digit exactly between 0000-01-01 and 9999-12-31. */
  lemma {:induction false} FourDigitRange(d: int)
    ensures 0 <= YearOfDay(d) <= 9999 <==> DayFromYear(0) <= d < DayFromYear(10_000)
    ensures YearOfDay(d) < 0 <==> d < DayFromYear(0)
  {
    var y := YearOfDay(d);
    if y < 0 {
      YearMonotone(y + 1, 0);
      YearMonotone(0, 10_000);
    } else if y > 9999 {
      YearMonotone(10_000, y);
      YearMonotone(0, y);
    } else {
      YearMonotone(0, y);
      YearMonotone(y + 1, 10_000);
    }
  }

  // ------------------------------------------------------------- the calendar, day after day

  /** Every fourth year but the centuries, and every fourth century, has a 29 February. */
  predicate HasLeapDay(year: int) {
    if year % 100 == 0 then year % 400 == 0 else year % 4 == 0
  }

  /** The last day of a month, month by month. */
  function LastDay(year: int, month: int): int {
    if month == 4 || month == 6 || month == 9 || month == 11 then 30
    else if month == 2 then (if HasLeapDay(year) then 29 else 28)
    else 31
  }

  lemma {:induction false} LeapRule(year: int)
    ensures IsLeap(year) <==> HasLeapDay(year)
  {
    if year % 100 == 0 {
      MultipleOf100(year);
    }
  }

  /** The date after a date. */
  function NextDate(c: Civil): Civil {
    if c.day < LastDay(c.year, c.month) then Civil(c.year, c.month, c.day + 1)
    else if c.month < 12 then Civil(c.year, c.month + 1, 1)
    else Civil(c.year + 1, 1, 1)
  }

  lemma {:induction false} MonthLengths(year: int, month: int)
    requires 1 <= month <= 12
    ensures DaysInMonth(year, month) == LastDay(year, month)
  {
    LeapRule(year);
    hide IsLeap, HasLeapDay;
    var table := [0, 31, 59, 90, 120, 151, 181, 212, 243, 273, 304, 334, 365];
    assert DaysBeforeMonth(year, month) == table[month - 1] + (if month > 2 && IsLeap(year) then 1 else 0);
    assert DaysBeforeMonth(year, month + 1) == table[month] + (if month + 1 > 2 && IsLeap(year) then 1 else 0);
  }

  lemma {:induction false} NextDayNumber(c: Civil)
    requires ValidCivil(c)
    ensures ValidCivil(NextDate(c)) && DayNumber(NextDate(c)) == DayNumber(c) + 1
  {
    MonthLengths(c.year, c.month);
    hide LastDay;
    YearStep(c.year);
    hide DayFromYear;
    if c.day == LastDay(c.year, c.month) && c.month == 12 {
      LastOfYear(c.year);
    }
  }

  lemma {:induction false} LastOfYear(year: int)
    ensures DaysBeforeMonth(year, 12) + DaysInMonth(year, 12) == YearLength(year) && DaysBeforeMonth(year, 1) == 0
  {
  }

  /** Main result: the conversion is the civil calendar. Day 0 is 1970-01-01, and each day has the
      date after that of the day before. */
  lemma {:induction false} CalendarSuccessor(d: int)
    ensures CivilOfDay(0) == Civil(1970, 1, 1)
    ensures CivilOfDay(d + 1) == NextDate(CivilOfDay(d))
  {
    hide CivilOfDay, DayNumber;
    DayOfCivilOfDay(d);
    NextDayNumber(CivilOfDay(d));
    CivilOfDayNumber(NextDate(CivilOfDay(d)));
    EpochDate();
    CivilOfDayNumber(Civil(1970, 1, 1));
  }

  lemma {:induction false} EpochDate()
    ensures ValidCivil(Civil(1970, 1, 1)) && DayNumber(Civil(1970, 1, 1)) == 0
  {
  }

  /** The characters of a date of years 0 to 9999: year, month and day in decimal digits between
      hyphens. */
  lemma {:induction false} DateCharacters(d: int)
    requires 0 <= CivilOfDay(d).year <= 9999
    ensures var c, s := CivilOfDay(d), DaySlice(d);
            && s[4] == '-' && s[7] == '-'
            && (forall i :: 0 <= i < 10 && i != 4 && i != 7 ==> '0' <= s[i] <= '9')
            && Value(s[0]) * 1000 + Value(s[1]) * 100 + Value(s[2]) * 10 + Value(s[3]) == c.year
            && Value(s[5]) * 10 + Value(s[6]) == c.month && Value(s[8]) * 10 + Value(s[9]) == c.day
  {
    var c := CivilOfDay(d);
    DayOfCivilOfDay(d);
    FourDigitText(c);
    PadDigits(c.year, c.month, c.day);
    hide Pad, CivilOfDay, DayNumber, DateText;
  }

  function Value(c: char): int {
    c as int - '0' as int
  }

  lemma {:induction false} PadDigits(year: nat, month: nat, day: nat)
    requires year <= 9999 && month <= 99 && day <= 99
    ensures var y := Pad(year, 4); Value(y[0]) * 1000 + Value(y[1]) * 100 + Value(y[2]) * 10 + Value(y[3]) == year
    ensures var m := Pad(month, 2); Value(m[0]) * 10 + Value(m[1]) == month
    ensures var t := Pad(day, 2); Value(t[0]) * 10 + Value(t[1]) == day
    ensures forall c :: IsDigit(c) <==> '0' <= c <= '9'
  {
    var y1 := year / 10;
    var y2 := y1 / 10;
    var y3 := y2 / 10;
    assert Pad(y3, 1) == Pad(y3 / 10, 0) + [Digit(y3 % 10)];
    assert Pad(y2, 2) == Pad(y3, 1) + [Digit(y2 % 10)];
    assert Pad(y1, 3) == Pad(y2, 2) + [Digit(y1 % 10)];
    assert Pad(year, 4) == Pad(y1, 3) + [Digit(year % 10)];
    assert y3 < 10 && y3 % 10 == y3;
    assert Pad(month / 10, 1) == Pad(month / 10 / 10, 0) + [Digit(month / 10 % 10)];
    assert Pad(day / 10, 1) == Pad(day / 10 / 10, 0) + [Digit(day / 10 % 10)];
  }

  /** The characters of a day outside years 0 to 9999: the sign, six digits of the year and the month;
      the day is cut off. */
  lemma {:induction false} ExtendedCharacters(d: int)
    requires !(0 <= CivilOfDay(d).year <= 9999) && -999_999 <= CivilOfDay(d).year <= 999_999
    ensures var c, s := CivilOfDay(d), DaySlice(d);
            && s[0] == (if c.year < 0 then '-' else '+') && s[7] == '-'
            && (forall i :: 0 <= i < 10 && i != 0 && i != 7 ==> '0' <= s[i] <= '9')
            && Number(s[1..7]) == (if c.year < 0 then -c.year else c.year)
            && Value(s[8]) * 10 + Value(s[9]) == c.month
  {
    var c := CivilOfDay(d);
    DayOfCivilOfDay(d);
    var year := if c.year < 0 then -c.year else c.year;
    PadDigits(0, c.month, 0);
    SixDigits();
    NumberPad(year, 6);
    hide Pad, CivilOfDay, DayNumber;
    var sign := if c.year < 0 then "-" else "+";
    assert DaySlice(d) == sign + Pad(year, 6) + ("-" + Pad(c.month, 2));
    assert DaySlice(d)[1..7] == Pad(year, 6);
  }

  lemma {:induction false} SixDigits()
    ensures Pow10(6) == 1_000_000
  {
    assert Pow10(3) == 1_000;
    assert Pow10(6) == 1_000 * Pow10(3);
  }
}
