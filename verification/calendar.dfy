/** The proleptic Gregorian calendar of Python's `datetime`, years 1..9999,
    with a days-since-0001-01-01 numbering. Subtracting a `timedelta` of
    whole days is modelled by stepping back one day at a time; stepping
    below 0001-01-01 is the `OverflowError` Python raises. */
module Calendar {
  import opened Base

  datatype Date = Date(year: int, month: int, day: int)

  const MinYear := 1
  const MaxYear := 9999

  predicate IsLeap(y: int) {
    y % 4 == 0 && (y % 100 != 0 || y % 400 == 0)
  }

  function DaysInMonth(y: int, m: int): int {
    if m == 2 then (if IsLeap(y) then 29 else 28)
    else if m == 4 || m == 6 || m == 9 || m == 11 then 30
    else 31
  }

  function YearLength(y: int): int {
    if IsLeap(y) then 366 else 365
  }

  predicate Valid(d: Date) {
    && MinYear <= d.year <= MaxYear
    && 1 <= d.month <= 12
    && 1 <= d.day <= DaysInMonth(d.year, d.month)
  }

  /** Days in the years before `y` (counting from year 1). */
  function DaysBeforeYear(y: int): nat
    decreases y
  {
    if y <= 1 then 0 else DaysBeforeYear(y - 1) + YearLength(y - 1)
  }

  /** Days in the months of year `y` before month `m`. */
  function DaysBeforeMonth(y: int, m: int): int {
    var common :=
      if m <= 1 then 0 else if m == 2 then 31 else if m == 3 then 59
      else if m == 4 then 90 else if m == 5 then 120 else if m == 6 then 151
      else if m == 7 then 181 else if m == 8 then 212 else if m == 9 then 243
      else if m == 10 then 273 else if m == 11 then 304 else 334;
    if m > 2 && IsLeap(y) then common + 1 else common
  }

  /** Days since 0001-01-01 (which is day 0). */
  function DayNumber(d: Date): int {
    DaysBeforeYear(d.year) + DaysBeforeMonth(d.year, d.month) + d.day - 1
  }

  /** The day before `d`, or `None` for the first representable day. */
  function PrevDay(d: Date): Option<Date> {
    if d.day > 1 then Some(Date(d.year, d.month, d.day - 1))
    else if d.month > 1 then Some(Date(d.year, d.month - 1, DaysInMonth(d.year, d.month - 1)))
    else if d.year > MinYear then Some(Date(d.year - 1, 12, 31))
    else None
  }

  lemma MonthStep(y: int, m: int)
    requires 2 <= m <= 12
    ensures DaysBeforeMonth(y, m) == DaysBeforeMonth(y, m - 1) + DaysInMonth(y, m - 1)
  {
  }

  lemma YearStep(y: int)
    requires y > MinYear
    ensures DaysBeforeYear(y) == DaysBeforeYear(y - 1) + DaysBeforeMonth(y - 1, 12) + DaysInMonth(y - 1, 12)
  {
  }

  lemma PrevDayStep(d: Date)
    requires Valid(d)
    ensures PrevDay(d).None? <==> DayNumber(d) == 0
    ensures PrevDay(d).Some? ==> Valid(PrevDay(d).value) && DayNumber(PrevDay(d).value) == DayNumber(d) - 1
  {
    if d.day > 1 {
    } else if d.month > 1 {
      MonthStep(d.year, d.month);
    } else if d.year > MinYear {
      YearStep(d.year);
    }
  }

  /** `d - timedelta(days=k)`: `None` when the result would precede
      0001-01-01. The result is the date exactly `k` day numbers earlier. */
  function MinusDays(d: Date, k: nat): (r: Option<Date>)
    requires Valid(d)
    ensures r.None? <==> DayNumber(d) < k
    ensures r.Some? ==> Valid(r.value) && DayNumber(r.value) == DayNumber(d) - k
    decreases k
  {
    if k == 0 then Some(d)
    else
      PrevDayStep(d);
      match PrevDay(d)
      case None => None
      case Some(p) => MinusDays(p, k - 1)
  }

  lemma DayNumberNonNegative(d: Date)
    requires Valid(d)
    ensures DayNumber(d) >= 0
  {
  }

  lemma {:induction false} DaysBeforeYearGrows(a: int, b: int)
    requires MinYear <= a < b
    ensures DaysBeforeYear(a + 1) <= DaysBeforeYear(b)
    decreases b - a
  {
    if a + 1 < b {
      DaysBeforeYearGrows(a, b - 1);
    }
  }

  /** A valid date's number lies inside its year's range of numbers. */
  lemma InsideYear(d: Date)
    requires Valid(d)
    ensures DaysBeforeYear(d.year) <= DayNumber(d) < DaysBeforeYear(d.year + 1)
  {
    assert DaysBeforeYear(d.year + 1) == DaysBeforeYear(d.year) + YearLength(d.year);
  }

  lemma MonthsOrdered(y: int, m1: int, m2: int)
    requires 1 <= m1 < m2 <= 12
    ensures DaysBeforeMonth(y, m1) + DaysInMonth(y, m1) <= DaysBeforeMonth(y, m2)
  {
  }

  /** Day numbers identify valid dates: the date `k` days earlier is unique. */
  lemma DayNumberInjective(d1: Date, d2: Date)
    requires Valid(d1) && Valid(d2)
    requires DayNumber(d1) == DayNumber(d2)
    ensures d1 == d2
  {
    InsideYear(d1);
    InsideYear(d2);
    if d1.year < d2.year {
      DaysBeforeYearGrows(d1.year, d2.year);
    } else if d2.year < d1.year {
      DaysBeforeYearGrows(d2.year, d1.year);
    } else if d1.month < d2.month {
      MonthsOrdered(d1.year, d1.month, d2.month);
    } else if d2.month < d1.month {
      MonthsOrdered(d1.year, d2.month, d1.month);
    }
  }

  /** The window start is the one valid date whose number is `k` less. */
  lemma MinusDaysUnique(d: Date, k: nat, e: Date)
    requires Valid(d) && Valid(e)
    requires DayNumber(e) == DayNumber(d) - k
    ensures MinusDays(d, k) == Some(e)
  {
    DayNumberNonNegative(e);
    DayNumberInjective(MinusDays(d, k).value, e);
  }
}
