/**
 * The proleptic Gregorian calendar as Python's `datetime.date` implements it:
 * dates are (year, month, day) triples, day arithmetic goes through the day
 * number (`toordinal`, 0001-01-01 is day 1), and `weekday()` counts Monday as 0.
 * Years are unbounded here; Python's 1..9999 window is not modelled.
 */
module Calendar {

  predicate IsLeapYear(y: int) {
    y % 4 == 0 && (y % 100 != 0 || y % 400 == 0)
  }

  /** Length of month `m` of year `y`, as `calendar.monthrange(y, m)[1]`. */
  function DaysInMonth(y: int, m: int): (n: int)
    requires 1 <= m <= 12
    ensures 28 <= n <= 31
  {
    if m == 2 then (if IsLeapYear(y) then 29 else 28)
    else if m == 4 || m == 6 || m == 9 || m == 11 then 30
    else 31
  }

  function DaysInYear(y: int): int {
    if IsLeapYear(y) then 366 else 365
  }

  datatype Ymd = Ymd(year: int, month: int, day: int)

  predicate IsValidYmd(d: Ymd) {
    1 <= d.month <= 12 && 1 <= d.day <= DaysInMonth(d.year, d.month)
  }

  /** A calendar date: a triple naming a day that exists. */
  type Date = d: Ymd | IsValidYmd(d) witness Ymd(1970, 1, 1)

  /** Python's date comparison: lexicographic on (year, month, day). */
  predicate OnOrBefore(a: Date, b: Date) {
    a.year < b.year
    || (a.year == b.year && (a.month < b.month || (a.month == b.month && a.day <= b.day)))
  }

  /**
   * Number of days in the years before `y`, counted year by year from year 1
   * (Python's `_days_before_year`; `DaysBeforeYearClosedForm` proves it equal
   * to the closed formula Python uses).
   */
  function DaysBeforeYear(y: int): int
    decreases if y >= 1 then y - 1 else 1 - y
  {
    if y == 1 then 0
    else if y > 1 then DaysBeforeYear(y - 1) + DaysInYear(y - 1)
    else DaysBeforeYear(y + 1) - DaysInYear(y)
  }

  /** Number of days in year `y` before the first of month `m` (Python's `_days_before_month`). */
  function DaysBeforeMonth(y: int, m: int): int
    requires 1 <= m <= 12
  {
    var common :=
      match m
      case 1 => 0   case 2 => 31  case 3 => 59   case 4 => 90
      case 5 => 120 case 6 => 151 case 7 => 181  case 8 => 212
      case 9 => 243 case 10 => 273 case 11 => 304 case _ => 334;
    common + (if m > 2 && IsLeapYear(y) then 1 else 0)
  }

  /** The day number of a date, as Python's `date.toordinal()`. */
  function DayNumber(d: Date): int {
    DaysBeforeYear(d.year) + DaysBeforeMonth(d.year, d.month) + d.day
  }

  /** `date.weekday()`: Monday is 0, Sunday is 6. */
  function Weekday(d: Date): (w: int)
    ensures 0 <= w < 7
  {
    (DayNumber(d) + 6) % 7
  }

  lemma Step4(p: int)
    ensures (p + 1) / 4 - p / 4 == if (p + 1) % 4 == 0 then 1 else 0
  {
  }

  lemma Step100(p: int)
    ensures (p + 1) / 100 - p / 100 == if (p + 1) % 100 == 0 then 1 else 0
  {
  }

  lemma Step400(p: int)
    ensures (p + 1) / 400 - p / 400 == if (p + 1) % 400 == 0 then 1 else 0
  {
  }

  /** Consecutive years are `DaysInYear` apart. */
  lemma YearLength(y: int)
    ensures DaysBeforeYear(y + 1) == DaysBeforeYear(y) + DaysInYear(y)
  {
  }

  /** Python's closed formula for the days before year `p + 1`. */
  function ClosedDaysBefore(p: int): int {
    365 * p + p / 4 - p / 100 + p / 400
  }

  /** The closed formula grows by the length of each year. */
  lemma ClosedDaysBeforeStep(p: int)
    ensures ClosedDaysBefore(p + 1) == ClosedDaysBefore(p) + DaysInYear(p + 1)
  {
    var y := p + 1;
    Step4(p);
    Step100(p);
    Step400(p);
    DivisibilityChain(y);
    var a, b, c := y / 4 - p / 4, y / 100 - p / 100, y / 400 - p / 400;
    assert ClosedDaysBefore(y) - ClosedDaysBefore(p) == 365 + a - b + c;
    assert DaysInYear(y) == 365 + a - b + c;
  }

  lemma DivisibilityChain(y: int)
    ensures y % 400 == 0 ==> y % 100 == 0
    ensures y % 100 == 0 ==> y % 4 == 0
  {
  }

  /** The year-by-year count is Python's closed formula `365*p + p//4 - p//100 + p//400` with `p = y - 1`. */
  lemma {:induction false} DaysBeforeYearClosedForm(y: int)
    ensures DaysBeforeYear(y) == ClosedDaysBefore(y - 1)
    decreases if y >= 1 then y - 1 else 1 - y
  {
    if y > 1 {
      DaysBeforeYearClosedForm(y - 1);
      ClosedDaysBeforeStep(y - 2);
    } else if y < 1 {
      DaysBeforeYearClosedForm(y + 1);
      ClosedDaysBeforeStep(y - 1);
    }
  }

  lemma MonthLength(y: int, m: int)
    requires 1 <= m <= 12
    ensures m < 12 ==> DaysBeforeMonth(y, m + 1) == DaysBeforeMonth(y, m) + DaysInMonth(y, m)
    ensures m == 12 ==> DaysBeforeMonth(y, m) + DaysInMonth(y, m) == DaysInYear(y)
  {
  }

  /** The day after `d`, rolling over month and year ends. */
  function NextDay(d: Date): (r: Date)
    ensures DayNumber(r) == DayNumber(d) + 1
  {
    MonthLength(d.year, d.month);
    if d.day < DaysInMonth(d.year, d.month) then Ymd(d.year, d.month, d.day + 1)
    else if d.month < 12 then Ymd(d.year, d.month + 1, 1)
    else (YearLength(d.year); Ymd(d.year + 1, 1, 1))
  }

  /** The day before `d`, rolling back over month and year starts. */
  function PrevDay(d: Date): (r: Date)
    ensures DayNumber(r) == DayNumber(d) - 1
  {
    if d.day > 1 then Ymd(d.year, d.month, d.day - 1)
    else if d.month > 1 then (MonthLength(d.year, d.month - 1); Ymd(d.year, d.month - 1, DaysInMonth(d.year, d.month - 1)))
    else (YearLength(d.year - 1); MonthLength(d.year - 1, 12); Ymd(d.year - 1, 12, 31))
  }

  /** `d + timedelta(days=n)`, for either sign of `n`. */
  function AddDays(d: Date, n: int): (r: Date)
    ensures DayNumber(r) == DayNumber(d) + n
    // `d` in the measure stops the verifier from unrolling calls whose day count is a literal
    decreases if n < 0 then -n else n, d
  {
    if n == 0 then d
    else if n > 0 then AddDays(NextDay(d), n - 1)
    else AddDays(PrevDay(d), n + 1)
  }

  /** The Monday on or before `d`: `d - timedelta(days=d.weekday())`. */
  function WeekStart(d: Date): (r: Date)
    ensures Weekday(r) == 0
    ensures DayNumber(d) - 6 <= DayNumber(r) <= DayNumber(d)
  {
    var r := AddDays(d, -Weekday(d));
    MondayAlign(DayNumber(d));
    r
  }

  lemma MondayAlign(n: int)
    ensures (n - (n + 6) % 7 + 6) % 7 == 0
  {
  }

  /** First day of the month of `d`: `date(d.year, d.month, 1)`. */
  function MonthStart(d: Date): (r: Date)
    ensures r.year == d.year && r.month == d.month && r.day == 1
  {
    Ymd(d.year, d.month, 1)
  }

  lemma DaysBeforeMonthBound(y: int, m: int)
    requires 1 <= m <= 12
    ensures DaysBeforeMonth(y, m) + DaysInMonth(y, m) <= DaysInYear(y)
  {
  }

  lemma DaysBeforeMonthMonotone(y: int, m1: int, m2: int)
    requires 1 <= m1 < m2 <= 12
    ensures DaysBeforeMonth(y, m1) + DaysInMonth(y, m1) <= DaysBeforeMonth(y, m2)
  {
  }

  /** Every date of year `y` has a day number inside the span of year `y`. */
  lemma DayNumberWithinYear(d: Date)
    ensures DaysBeforeYear(d.year) < DayNumber(d) <= DaysBeforeYear(d.year + 1)
  {
    DaysBeforeMonthBound(d.year, d.month);
    YearLength(d.year);
  }

  /** Years are laid out in order: the span of an earlier year ends before a later one starts. */
  lemma {:induction false} DaysBeforeYearMonotone(y1: int, y2: int)
    requires y1 < y2
    ensures DaysBeforeYear(y1 + 1) <= DaysBeforeYear(y2)
    decreases y2 - y1
  {
    if y1 + 1 < y2 {
      DaysBeforeYearMonotone(y1 + 1, y2);
      YearLength(y1 + 1);
    }
  }

  /** Python's lexicographic date order is the order of day numbers. */
  lemma OrderMatchesDayNumber(a: Date, b: Date)
    ensures OnOrBefore(a, b) <==> DayNumber(a) <= DayNumber(b)
  {
    DayNumberWithinYear(a);
    DayNumberWithinYear(b);
    if a.year < b.year {
      DaysBeforeYearMonotone(a.year, b.year);
    } else if b.year < a.year {
      DaysBeforeYearMonotone(b.year, a.year);
    } else if a.month < b.month {
      DaysBeforeMonthMonotone(a.year, a.month, b.month);
    } else if b.month < a.month {
      DaysBeforeMonthMonotone(a.year, b.month, a.month);
    }
  }

  /** A day number names exactly one date. */
  lemma DayNumberInjective(a: Date, b: Date)
    requires DayNumber(a) == DayNumber(b)
    ensures a == b
  {
    OrderMatchesDayNumber(a, b);
    OrderMatchesDayNumber(b, a);
  }
}
