/**
 * Calendar days, standing for the JavaScript `Date` values the sales page
 * compares by day, month and year. Months are numbered 0..11 as
 * `getMonth()` numbers them. Day numbers count days from 1970-01-01, so
 * their differences have the sign of `getTime()` differences.
 */
module Calendar {

  type Month = m: int | 0 <= m < 12
  type DayOfMonth = d: int | 1 <= d <= 31 witness 1

  datatype Date = Date(year: int, month: Month, day: DayOfMonth)

  predicate IsLeapYear(y: int)
  {
    y % 4 == 0 && (y % 100 != 0 || y % 400 == 0)
  }

  function DaysInMonth(y: int, m: Month): int
  {
    if m == 1 then (if IsLeapYear(y) then 29 else 28)
    else if m == 3 || m == 5 || m == 8 || m == 10 then 30
    else 31
  }

  /** The day exists in its month. */
  predicate IsValid(d: Date)
  {
    d.day <= DaysInMonth(d.year, d.month)
  }

  function YearLength(y: int): int
  {
    if IsLeapYear(y) then 366 else 365
  }

  /** Leap years among the years before `y` (counted from year 1; differences are what matter). */
  function LeapYearsBefore(y: int): int
  {
    (y - 1) / 4 - (y - 1) / 100 + (y - 1) / 400
  }

  /** Days from 1970-01-01 to the first of January of `y`. */
  function DaysBeforeYear(y: int): int
  {
    365 * (y - 1970) + LeapYearsBefore(y) - LeapYearsBefore(1970)
  }

  /** Days from the first of January of `y` to the first of month `m`. */
  function DaysBeforeMonth(y: int, m: Month): int
  {
    [0, 31, 59, 90, 120, 151, 181, 212, 243, 273, 304, 334][m]
      + (if m >= 2 && IsLeapYear(y) then 1 else 0)
  }

  /** Days from 1970-01-01 (day 0) to `d`. */
  function DayNumber(d: Date): int
  {
    DaysBeforeYear(d.year) + DaysBeforeMonth(d.year, d.month) + d.day - 1
  }

  /** `getDay()`: 0 for Sunday through 6 for Saturday; 1970-01-01 was a Thursday. */
  function Weekday(d: Date): (w: int)
    ensures 0 <= w < 7
  {
    (DayNumber(d) + 4) % 7
  }

  /** The calendar day before `d`, as `setDate(getDate() - 1)` computes it. */
  function PrevDay(d: Date): (r: Date)
    ensures IsValid(d) ==> IsValid(r)
  {
    if d.day > 1 then Date(d.year, d.month, d.day - 1)
    else if d.month > 0 then Date(d.year, d.month - 1, DaysInMonth(d.year, d.month - 1))
    else Date(d.year - 1, 11, 31)
  }

  /** The (year, month) one month before `d`'s, January wrapping to the previous December. */
  function PrevMonth(d: Date): (int, Month)
  {
    if d.month == 0 then (d.year - 1, 11) else (d.year, d.month - 1)
  }

  /**
   * `d.setMonth(d.getMonth() - 1)`: the day of the month is kept, and a day
   * past the end of the earlier month rolls over into the following month.
   */
  function SetMonthBack(d: Date): (r: Date)
    requires IsValid(d)
    ensures IsValid(r)
    ensures d.day <= DaysInMonth(PrevMonth(d).0, PrevMonth(d).1) ==> (r.year, r.month) == PrevMonth(d) && r.day == d.day
    ensures d.day > DaysInMonth(PrevMonth(d).0, PrevMonth(d).1) ==> r.year == d.year && r.month == d.month && r.day < d.day
  {
    var (y, m) := PrevMonth(d);
    if d.day <= DaysInMonth(y, m) then Date(y, m, d.day)
    else Date(y, m + 1, d.day - DaysInMonth(y, m))
  }

  lemma QuotientStep(y: int, k: int)
    requires k == 4 || k == 100 || k == 400
    ensures y / k - (y - 1) / k == if y % k == 0 then 1 else 0
  {
    var q, r, q', r' := (y - 1) / k, (y - 1) % k, y / k, y % k;
    if k == 4 {
      assert y - 1 == 4 * q + r && 0 <= r < 4 && y == 4 * q' + r' && 0 <= r' < 4;
    } else if k == 100 {
      assert y - 1 == 100 * q + r && 0 <= r < 100 && y == 100 * q' + r' && 0 <= r' < 100;
    } else {
      assert y - 1 == 400 * q + r && 0 <= r < 400 && y == 400 * q' + r' && 0 <= r' < 400;
    }
  }

  lemma DivisibilityChain(y: int)
    ensures y % 400 == 0 ==> y % 100 == 0
    ensures y % 100 == 0 ==> y % 4 == 0
  {
    if y % 400 == 0 {
      var q, d, r := y / 400, y / 100, y % 100;
      assert y == 400 * q && y == 100 * d + r && 0 <= r < 100;
      assert r == 100 * (4 * q - d);
    }
    if y % 100 == 0 {
      var q, d, r := y / 100, y / 4, y % 4;
      assert y == 100 * q && y == 4 * d + r && 0 <= r < 4;
      assert r == 4 * (25 * q - d);
    }
  }

  /** Consecutive new years are one year length apart. */
  lemma YearStep(y: int)
    ensures DaysBeforeYear(y + 1) == DaysBeforeYear(y) + YearLength(y)
  {
    QuotientStep(y, 4);
    QuotientStep(y, 100);
    QuotientStep(y, 400);
    DivisibilityChain(y);
    var leaps := LeapYearsBefore(y + 1) - LeapYearsBefore(y);
    assert leaps == (y / 4 - (y - 1) / 4) - (y / 100 - (y - 1) / 100) + (y / 400 - (y - 1) / 400);
    assert leaps == if IsLeapYear(y) then 1 else 0;
    assert DaysBeforeYear(y + 1) - DaysBeforeYear(y) == 365 + leaps;
  }

  lemma MonthStep(y: int, m: Month)
    requires m > 0
    ensures DaysBeforeMonth(y, m) == DaysBeforeMonth(y, m - 1) + DaysInMonth(y, m - 1)
  {
  }

  /** `PrevDay` is exactly one day earlier. */
  lemma PrevDayNumber(d: Date)
    requires IsValid(d)
    ensures DayNumber(PrevDay(d)) == DayNumber(d) - 1
  {
    if d.day == 1 {
      if d.month > 0 {
        MonthStep(d.year, d.month);
      } else {
        YearStep(d.year - 1);
      }
    }
  }

  /** The weekday of the previous day is one step back around the week. */
  lemma PrevDayWeekday(d: Date)
    requires IsValid(d)
    ensures Weekday(PrevDay(d)) == (Weekday(d) + 6) % 7
  {
    PrevDayNumber(d);
    WeekStepBack(DayNumber(d) + 4);
  }

  lemma WeekStepBack(n: int)
    ensures (n - 1) % 7 == (n % 7 + 6) % 7
  {
    var q, r := n / 7, n % 7;
    assert n == 7 * q + r;
    if r == 0 {
      assert n - 1 == 7 * (q - 1) + 6;
    } else {
      assert n - 1 == 7 * q + (r - 1);
    }
  }

  /** Chronological order on calendar days: year, then month, then day. */
  predicate Before(a: Date, b: Date)
  {
    a.year < b.year
    || (a.year == b.year && a.month < b.month)
    || (a.year == b.year && a.month == b.month && a.day < b.day)
  }

  lemma MonthWithinYear(y: int, m: Month)
    ensures DaysBeforeMonth(y, m) + DaysInMonth(y, m) <= YearLength(y)
  {
  }

  lemma {:induction false} DaysBeforeYearMonotone(y: int, z: int)
    requires y < z
    ensures DaysBeforeYear(y) + YearLength(y) <= DaysBeforeYear(z)
    decreases z - y
  {
    YearStep(y);
    if y + 1 < z {
      DaysBeforeYearMonotone(y + 1, z);
    }
  }

  lemma DaysBeforeMonthMonotone(y: int, m: Month, n: Month)
    requires m < n
    ensures DaysBeforeMonth(y, m) + DaysInMonth(y, m) <= DaysBeforeMonth(y, n)
  {
  }

  /** Day numbers follow the calendar: an earlier valid day has a smaller number. */
  lemma DayNumberMonotone(a: Date, b: Date)
    requires IsValid(a) && IsValid(b) && Before(a, b)
    ensures DayNumber(a) < DayNumber(b)
  {
    if a.year < b.year {
      MonthWithinYear(a.year, a.month);
      DaysBeforeYearMonotone(a.year, b.year);
    } else if a.month < b.month {
      DaysBeforeMonthMonotone(a.year, a.month, b.month);
    }
  }

  /** Distinct valid days have distinct day numbers. */
  lemma DayNumberInjective(a: Date, b: Date)
    requires IsValid(a) && IsValid(b) && DayNumber(a) == DayNumber(b)
    ensures a == b
  {
    if Before(a, b) {
      DayNumberMonotone(a, b);
    } else if Before(b, a) {
      DayNumberMonotone(b, a);
    }
  }

  /** 2023-04-22, the date of the newest seeded sale, was a Saturday. */
  lemma SeedDateWeekday()
    ensures DayNumber(Date(1970, 0, 1)) == 0
    ensures Weekday(Date(2023, 3, 22)) == 6
  {
  }
}
