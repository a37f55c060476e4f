/** Proleptic Gregorian dates, as Python's datetime.date sees them:
    day numbers start at 1 for 0001-01-01, weekday() is Monday = 0, and
    monthrange gives the Gregorian month lengths. */
module Calendar {

  datatype Date = Date(year: int, month: int, day: int)

  predicate IsLeapYear(y: int) {
    y % 4 == 0 && (y % 100 != 0 || y % 400 == 0)
  }

  function DaysInMonth(y: int, m: int): (n: int)
    requires 1 <= m <= 12
    ensures 28 <= n <= 31
    ensures n == 29 <==> m == 2 && IsLeapYear(y)
  {
    if m == 2 then (if IsLeapYear(y) then 29 else 28)
    else if m == 4 || m == 6 || m == 9 || m == 11 then 30
    else 31
  }

  predicate ValidDate(d: Date) {
    1 <= d.year && 1 <= d.month <= 12 && 1 <= d.day <= DaysInMonth(d.year, d.month)
  }

  function YearLength(y: int): int {
    if IsLeapYear(y) then 366 else 365
  }

  /** Days in the years 1 .. y-1, counted year by year. */
  function DaysBeforeYear(y: int): int
    requires y >= 1
    decreases y
  {
    if y == 1 then 0 else DaysBeforeYear(y - 1) + YearLength(y - 1)
  }

  /** The closed form toordinal uses for the same count. */
  function DaysBeforeYearFormula(y: int): int {
    var p := y - 1;
    365 * p + p / 4 - p / 100 + p / 400
  }

  /** Days in the months 1 .. m-1 of year y. */
  function DaysBeforeMonth(y: int, m: int): int
    requires 1 <= m <= 12
  {
    [0, 31, 59, 90, 120, 151, 181, 212, 243, 273, 304, 334][m - 1]
      + (if m > 2 && IsLeapYear(y) then 1 else 0)
  }

  lemma MonthStep(y: int, m: int)
    requires 1 <= m < 12
    ensures DaysBeforeMonth(y, m + 1) == DaysBeforeMonth(y, m) + DaysInMonth(y, m)
  {
  }

  /** date.toordinal(): 0001-01-01 is day 1. */
  function Ordinal(d: Date): int
    requires ValidDate(d)
  {
    DaysBeforeYear(d.year) + DaysBeforeMonth(d.year, d.month) + d.day
  }

  /** date.weekday(): Monday is 0, Sunday is 6. */
  function Weekday(d: Date): (w: int)
    requires ValidDate(d)
    ensures 0 <= w < 7
  {
    (Ordinal(d) + 6) % 7
  }

  /** Chronological order, as `<` on dates (and on their ISO strings). */
  predicate Before(a: Date, b: Date) {
    a.year < b.year || (a.year == b.year && (a.month < b.month || (a.month == b.month && a.day < b.day)))
  }

  function NextDay(d: Date): Date
    requires ValidDate(d)
  {
    if d.day < DaysInMonth(d.year, d.month) then Date(d.year, d.month, d.day + 1)
    else if d.month < 12 then Date(d.year, d.month + 1, 1)
    else Date(d.year + 1, 1, 1)
  }

  /** `d + timedelta(days=n)` for n >= 0. */
  function AddDays(d: Date, n: nat): (r: Date)
    requires ValidDate(d)
    ensures ValidDate(r)
    decreases n
  {
    NextDayValid(d);
    if n == 0 then d else AddDays(NextDay(d), n - 1)
  }

  lemma DivStep4(p: int)
    requires p >= 0
    ensures (p + 1) / 4 - p / 4 == if (p + 1) % 4 == 0 then 1 else 0
  {
  }

  lemma DivStep100(p: int)
    requires p >= 0
    ensures (p + 1) / 100 - p / 100 == if (p + 1) % 100 == 0 then 1 else 0
  {
  }

  lemma DivStep400(p: int)
    requires p >= 0
    ensures (p + 1) / 400 - p / 400 == if (p + 1) % 400 == 0 then 1 else 0
  {
  }

  lemma ModShift(a: int, n: int)
    ensures (a + n) % 7 == (a % 7 + n) % 7
  {
  }

  lemma Mod100To4(y: int)
    requires y % 100 == 0
    ensures y % 4 == 0
  {
    var k := y / 100;
    assert y == 4 * (25 * k);
  }

  lemma Mod400To100(y: int)
    requires y % 400 == 0
    ensures y % 100 == 0
  {
    var k := y / 400;
    assert y == 100 * (4 * k);
  }

  lemma FormulaStep(y: int)
    requires y >= 1
    ensures DaysBeforeYearFormula(y + 1) == DaysBeforeYearFormula(y) + YearLength(y)
  {
    var p := y - 1;
    DivStep4(p);
    DivStep100(p);
    DivStep400(p);
    if y % 100 == 0 { Mod100To4(y); }
    if y % 400 == 0 { Mod400To100(y); }
    assert DaysBeforeYearFormula(y + 1) - DaysBeforeYearFormula(y) ==
      365 + ((p + 1) / 4 - p / 4) - ((p + 1) / 100 - p / 100) + ((p + 1) / 400 - p / 400);
  }

  /** The year-by-year count agrees with the closed form. */
  lemma {:induction false} DaysBeforeYearClosedForm(y: int)
    requires y >= 1
    ensures DaysBeforeYear(y) == DaysBeforeYearFormula(y)
    decreases y
  {
    if y > 1 {
      DaysBeforeYearClosedForm(y - 1);
      FormulaStep(y - 1);
    }
  }

  lemma YearStep(y: int)
    requires y >= 1
    ensures DaysBeforeYear(y + 1) == DaysBeforeYear(y) + YearLength(y)
  {
  }

  lemma DaysBeforeDecember(y: int)
    ensures DaysBeforeMonth(y, 12) + 31 == YearLength(y)
  {
  }

  lemma NextDayValid(d: Date)
    requires ValidDate(d)
    ensures ValidDate(NextDay(d))
  {
  }

  lemma NextDayOrdinal(d: Date)
    requires ValidDate(d)
    ensures ValidDate(NextDay(d)) && Ordinal(NextDay(d)) == Ordinal(d) + 1
  {
    if d.day == DaysInMonth(d.year, d.month) && d.month < 12 {
      MonthStep(d.year, d.month);
    } else if d.day == DaysInMonth(d.year, d.month) {
      YearStep(d.year);
      DaysBeforeDecember(d.year);
    }
  }

  lemma {:induction false} AddDaysOrdinal(d: Date, n: nat)
    requires ValidDate(d)
    ensures Ordinal(AddDays(d, n)) == Ordinal(d) + n
    decreases n
  {
    if n > 0 {
      NextDayOrdinal(d);
      AddDaysOrdinal(NextDay(d), n - 1);
    }
  }

  /** Moving n days ahead moves the weekday n places round the week. */
  lemma WeekdayAfter(d: Date, n: nat)
    requires ValidDate(d)
    ensures Weekday(AddDays(d, n)) == (Weekday(d) + n) % 7
  {
    AddDaysOrdinal(d, n);
    ModShift(Ordinal(d) + 6, n);
  }

  /** Within a month, the weekday moves with the day of the month. */
  lemma WeekdayWithinMonth(y: int, m: int, d1: int, d2: int)
    requires ValidDate(Date(y, m, d1)) && ValidDate(Date(y, m, d2))
    ensures Weekday(Date(y, m, d2)) == (Weekday(Date(y, m, d1)) + (d2 - d1)) % 7
  {
    ModShift(Ordinal(Date(y, m, d1)) + 6, d2 - d1);
  }

  lemma {:induction false} MonthsBetween(y: int, m1: int, m2: int)
    requires 1 <= m1 < m2 <= 12
    ensures DaysBeforeMonth(y, m2) >= DaysBeforeMonth(y, m1) + DaysInMonth(y, m1)
    decreases m2 - m1
  {
    MonthStep(y, m2 - 1);
    if m1 < m2 - 1 {
      MonthsBetween(y, m1, m2 - 1);
    }
  }

  lemma DayWithinYear(d: Date)
    requires ValidDate(d)
    ensures DaysBeforeMonth(d.year, d.month) + d.day <= YearLength(d.year)
  {
    DaysBeforeDecember(d.year);
    if d.month < 12 {
      MonthsBetween(d.year, d.month, 12);
    }
  }

  lemma {:induction false} YearsBetween(y1: int, y2: int)
    requires 1 <= y1 < y2
    ensures DaysBeforeYear(y2) >= DaysBeforeYear(y1) + YearLength(y1)
    decreases y2 - y1
  {
    YearStep(y2 - 1);
    if y1 < y2 - 1 {
      YearsBetween(y1, y2 - 1);
    }
  }

  /** Chronological order is day-number order. */
  lemma BeforeIffOrdinal(a: Date, b: Date)
    requires ValidDate(a) && ValidDate(b)
    ensures Before(a, b) <==> Ordinal(a) < Ordinal(b)
  {
    if Before(a, b) {
      OrdinalMonotone(a, b);
    } else if Before(b, a) {
      OrdinalMonotone(b, a);
    } else {
      assert a == b;
    }
  }

  lemma OrdinalMonotone(a: Date, b: Date)
    requires ValidDate(a) && ValidDate(b) && Before(a, b)
    ensures Ordinal(a) < Ordinal(b)
  {
    if a.year < b.year {
      DayWithinYear(a);
      YearsBetween(a.year, b.year);
    } else if a.month < b.month {
      MonthsBetween(a.year, a.month, b.month);
    }
  }

  /** The last Thursday of a month, found as in the source: step back from
      the month's last day by (weekday - 3 + 7) % 7 days. */
  function LastThursday(y: int, m: int): (r: Date)
    requires y >= 1 && 1 <= m <= 12
    ensures ValidDate(r) && r.year == y && r.month == m
    ensures Weekday(r) == 3
    ensures DaysInMonth(y, m) - 7 < r.day
  {
    var last := Date(y, m, DaysInMonth(y, m));
    var back := (Weekday(last) - 3 + 7) % 7;
    var r := Date(y, m, last.day - back);
    WeekdayWithinMonth(y, m, last.day, r.day);
    r
  }

  function Digit(n: int): char
    requires 0 <= n < 10
  {
    ['0', '1', '2', '3', '4', '5', '6', '7', '8', '9'][n]
  }

  /** strftime("%y"): the year's last two digits. */
  function TwoDigitYear(y: int): (s: string)
    ensures |s| == 2
  {
    [Digit((y % 100) / 10), Digit(y % 10)]
  }

  /** strftime("%b").upper() in the C locale. */
  function MonthAbbrevUpper(m: int): (s: string)
    requires 1 <= m <= 12
    ensures |s| == 3
  {
    ["JAN", "FEB", "MAR", "APR", "MAY", "JUN", "JUL", "AUG", "SEP", "OCT", "NOV", "DEC"][m - 1]
  }
}
