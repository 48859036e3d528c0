/**
 * Proleptic Gregorian calendar dates, as Python's `datetime.date` sees them.
 *
 * `NextDay` is the model's own day successor; `Ordinal` is the day count that
 * `date.toordinal` uses (0001-01-01 is day 1), and `date + timedelta(days=k)`
 * is by definition the date whose ordinal is k larger. The lemmas below connect
 * the two: stepping with `NextDay` k times lands exactly on that date.
 */
module Calendar {

  datatype Date = Date(year: int, month: int, day: int)

  /** `datetime.MINYEAR` and `datetime.MAXYEAR`. */
  const MinYear: int := 1
  const MaxYear: int := 9999

  predicate IsLeapYear(y: int) {
    y % 4 == 0 && (y % 100 != 0 || y % 400 == 0)
  }

  function YearLength(y: int): int {
    if IsLeapYear(y) then 366 else 365
  }

  function DaysInMonth(y: int, m: int): int {
    if m == 2 then (if IsLeapYear(y) then 29 else 28)
    else if m == 4 || m == 6 || m == 9 || m == 11 then 30
    else 31
  }

  /** A real day of the proleptic Gregorian calendar; the year is unbounded. */
  predicate IsCalendarDate(d: Date) {
    1 <= d.month <= 12 && 1 <= d.day <= DaysInMonth(d.year, d.month)
  }

  /** The years a `datetime.date` can hold. */
  predicate InRange(d: Date) {
    MinYear <= d.year <= MaxYear
  }

  /** What `date(year, month, day)` accepts without raising ValueError. */
  predicate IsValidDate(d: Date) {
    IsCalendarDate(d) && InRange(d)
  }

  /**
   * The day after `d`, rolling over month ends and the end of the year.
   * Defined on every triple; only calendar dates are ever stepped.
   */
  function NextDay(d: Date): (n: Date)
    ensures IsCalendarDate(d) ==> IsCalendarDate(n)
  {
    if d.day < DaysInMonth(d.year, d.month) then Date(d.year, d.month, d.day + 1)
    else if d.month < 12 then Date(d.year, d.month + 1, 1)
    else Date(d.year + 1, 1, 1)
  }

  /** `d + timedelta(days=k)` for k >= 0, by k steps of `NextDay`. */
  function AddDays(d: Date, k: nat): (r: Date)
    ensures IsCalendarDate(d) ==> IsCalendarDate(r)
    decreases k
  {
    if k == 0 then d else NextDay(AddDays(d, k - 1))
  }

  /** Days in the years before `y` (Python's `_days_before_year`). */
  function DaysBeforeYear(y: int): int
    requires y >= 1
  {
    var p := y - 1;
    p * 365 + p / 4 - p / 100 + p / 400
  }

  /** Days in the months of year `y` before month `m` (Python's `_days_before_month`). */
  function DaysBeforeMonth(y: int, m: int): int
    requires 1 <= m <= 12
  {
    [0, 31, 59, 90, 120, 151, 181, 212, 243, 273, 304, 334][m - 1]
      + (if m > 2 && IsLeapYear(y) then 1 else 0)
  }

  /** Python's `date.toordinal`: 0001-01-01 is day 1. */
  function Ordinal(d: Date): int
    requires IsCalendarDate(d) && d.year >= 1
  {
    DaysBeforeYear(d.year) + DaysBeforeMonth(d.year, d.month) + d.day
  }

  /** Strict chronological order of two dates. */
  predicate Before(a: Date, b: Date) {
    a.year < b.year
    || (a.year == b.year && a.month < b.month)
    || (a.year == b.year && a.month == b.month && a.day < b.day)
  }

  // ---------------------------------------------------------------------------
  // Lemmas

  lemma DaysBeforeYearStep(y: int)
    requires y >= 1
    ensures DaysBeforeYear(y + 1) == DaysBeforeYear(y) + YearLength(y)
  {
    var p := y - 1;
    assert y / 4 - p / 4 == (if y % 4 == 0 then 1 else 0);
    assert y / 100 - p / 100 == (if y % 100 == 0 then 1 else 0);
    assert y / 400 - p / 400 == (if y % 400 == 0 then 1 else 0);
  }

  lemma {:induction false} DaysBeforeYearGrows(a: int, b: int)
    requires 1 <= a < b
    ensures DaysBeforeYear(b) >= DaysBeforeYear(a) + YearLength(a) + 365 * (b - a - 1)
    decreases b - a
  {
    DaysBeforeYearStep(b - 1);
    if a < b - 1 {
      DaysBeforeYearGrows(a, b - 1);
    }
  }

  lemma DaysBeforeMonthStep(y: int, m: int)
    requires 1 <= m <= 12
    ensures m < 12 ==> DaysBeforeMonth(y, m + 1) == DaysBeforeMonth(y, m) + DaysInMonth(y, m)
    ensures m == 12 ==> DaysBeforeMonth(y, m) + DaysInMonth(y, m) == YearLength(y)
  {
  }

  /** The last day of month `m` falls within the year. */
  lemma {:induction false} MonthEndWithinYear(y: int, m: int)
    requires 1 <= m <= 12
    ensures DaysBeforeMonth(y, m) + DaysInMonth(y, m) <= YearLength(y)
    decreases 12 - m
  {
    DaysBeforeMonthStep(y, m);
    if m < 12 {
      MonthEndWithinYear(y, m + 1);
    }
  }

  /** The last day of month `m` comes before the first day of any later month. */
  lemma {:induction false} MonthEndBeforeLater(y: int, m: int, m': int)
    requires 1 <= m < m' <= 12
    ensures DaysBeforeMonth(y, m) + DaysInMonth(y, m) <= DaysBeforeMonth(y, m')
    decreases m' - m
  {
    DaysBeforeMonthStep(y, m);
    if m + 1 < m' {
      MonthEndBeforeLater(y, m + 1, m');
    }
  }

  /** `NextDay` is Python's `date + timedelta(days=1)`: it adds one to the ordinal. */
  lemma NextDayOrdinal(d: Date)
    requires IsCalendarDate(d) && d.year >= 1
    ensures NextDay(d).year >= d.year
    ensures Ordinal(NextDay(d)) == Ordinal(d) + 1
  {
    DaysBeforeMonthStep(d.year, d.month);
    if d.day == DaysInMonth(d.year, d.month) && d.month == 12 {
      DaysBeforeYearStep(d.year);
    }
  }

  /** `AddDays(d, k)` is Python's `d + timedelta(days=k)`: its ordinal is k larger. */
  lemma {:induction false} AddDaysOrdinal(d: Date, k: nat)
    requires IsCalendarDate(d) && d.year >= 1
    ensures AddDays(d, k).year >= d.year
    ensures Ordinal(AddDays(d, k)) == Ordinal(d) + k
    decreases k
  {
    if k > 0 {
      AddDaysOrdinal(d, k - 1);
      NextDayOrdinal(AddDays(d, k - 1));
    }
  }

  /** Chronological order and ordinal order agree. */
  lemma OrdinalMonotone(a: Date, b: Date)
    requires IsCalendarDate(a) && a.year >= 1
    requires IsCalendarDate(b) && b.year >= 1
    requires Before(a, b)
    ensures Ordinal(a) < Ordinal(b)
  {
    if a.year < b.year {
      MonthEndWithinYear(a.year, a.month);
      DaysBeforeYearGrows(a.year, b.year);
    } else if a.month < b.month {
      MonthEndBeforeLater(a.year, a.month, b.month);
    }
  }

  /** Distinct calendar dates have distinct ordinals. */
  lemma OrdinalInjective(a: Date, b: Date)
    requires IsCalendarDate(a) && a.year >= 1
    requires IsCalendarDate(b) && b.year >= 1
    ensures Ordinal(a) == Ordinal(b) <==> a == b
  {
    if a != b {
      if Before(a, b) {
        OrdinalMonotone(a, b);
      } else {
        assert Before(b, a);
        OrdinalMonotone(b, a);
      }
    }
  }

  /** `NextDay` is the only calendar date one ordinal after `d`. */
  lemma NextDayUnique(d: Date, e: Date)
    requires IsCalendarDate(d) && d.year >= 1
    requires IsCalendarDate(e) && e.year >= 1
    ensures Ordinal(e) == Ordinal(d) + 1 <==> e == NextDay(d)
  {
    NextDayOrdinal(d);
    OrdinalInjective(e, NextDay(d));
  }

  /** Two dates sharing month and day but not year are at least 365 days apart. */
  lemma SameMonthDayYearApart(a: Date, b: Date)
    requires IsCalendarDate(a) && a.year >= 1
    requires IsCalendarDate(b)
    requires a.month == b.month && a.day == b.day && a.year < b.year
    ensures Ordinal(b) - Ordinal(a) >= 365
  {
    DaysBeforeYearGrows(a.year, b.year);
  }

  /**
   * Within 365 consecutive days no month and day come round twice: two such
   * days would be a whole year or more apart.
   */
  lemma NoRepeatWithinYear(start: Date, j: nat, k: nat)
    requires IsCalendarDate(start) && start.year >= 1
    requires j < k < j + 365
    ensures AddDays(start, j).month != AddDays(start, k).month || AddDays(start, j).day != AddDays(start, k).day
  {
    var a, b := AddDays(start, j), AddDays(start, k);
    AddDaysOrdinal(start, j);
    AddDaysOrdinal(start, k);
    if a.month == b.month && a.day == b.day {
      if a.year < b.year {
        SameMonthDayYearApart(a, b);
      } else if b.year < a.year {
        SameMonthDayYearApart(b, a);
      }
    }
  }

  /** Stepping over New Year: the two days after 2023-12-30 are 2023-12-31 and 2024-01-01. */
  lemma NewYearSteps()
    ensures AddDays(Date(2023, 12, 30), 0) == Date(2023, 12, 30)
    ensures AddDays(Date(2023, 12, 30), 1) == Date(2023, 12, 31)
    ensures AddDays(Date(2023, 12, 30), 2) == Date(2024, 1, 1)
    ensures AddDays(Date(2023, 12, 30), 3) == Date(2024, 1, 2)
  {
  }
}
