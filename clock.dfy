/**
  Time in the model: integer seconds since the epoch, read in one fixed
  local zone (the source's Europe/Stockholm, without daylight saving).
  `Day` numbers local calendar days, `HourOf` is the local hour, and
  `DateOfDay` turns a day number into a Gregorian calendar date, which is
  what Python's `datetime.day`, `.month` and `.year` expose.
*/
module Clock {

  const SecondsPerHour: int := 3600
  const SecondsPerDay: int := 86400

  /** Local day number (day 0 is 1970-01-01). */
  function Day(t: int): int { t / SecondsPerDay }

  /** Local hour of the day, `datetime.hour`. */
  function HourOf(t: int): (h: int)
    ensures 0 <= h < 24
  {
    (t % SecondsPerDay) / SecondsPerHour
  }

  datatype Date = Date(year: int, month: int, day: int)

  predicate IsLeap(y: int) {
    y % 4 == 0 && (y % 100 != 0 || y % 400 == 0)
  }

  function DaysInYear(y: int): int { if IsLeap(y) then 366 else 365 }

  function DaysInMonth(y: int, m: int): int {
    if m == 2 then (if IsLeap(y) then 29 else 28)
    else if m == 4 || m == 6 || m == 9 || m == 11 then 30
    else 31
  }

  predicate ValidDate(d: Date) {
    1 <= d.month <= 12 && 1 <= d.day <= DaysInMonth(d.year, d.month)
  }

  /** Days in months `m`..12 of year `y`. */
  function DaysFromMonth(y: int, m: int): int
    requires 1 <= m <= 13
    decreases 13 - m
  {
    if m == 13 then 0 else DaysInMonth(y, m) + DaysFromMonth(y, m + 1)
  }

  /** Days in months 1..`m`-1 of year `y`. */
  function DaysBeforeMonth(y: int, m: int): (r: int)
    requires 1 <= m <= 13
    ensures 0 <= r
  {
    if m == 1 then 0 else DaysBeforeMonth(y, m - 1) + DaysInMonth(y, m - 1)
  }

  lemma {:induction false} MonthsSplitYear(y: int, m: int)
    requires 1 <= m <= 13
    ensures DaysBeforeMonth(y, m) + DaysFromMonth(y, m) == DaysInYear(y)
    decreases m
  {
    if m > 1 {
      MonthsSplitYear(y, m - 1);
    }
  }

  /** The date `z` days (0-based) after the first day of month `m` of year `y`. */
  function MonthDay(y: int, m: int, z: int): (d: Date)
    requires 1 <= m <= 12 && 0 <= z < DaysFromMonth(y, m)
    ensures ValidDate(d) && d.year == y && m <= d.month
    ensures DaysBeforeMonth(y, d.month) + d.day - 1 == DaysBeforeMonth(y, m) + z
    decreases 12 - m
  {
    if m == 12 || z < DaysInMonth(y, m) then Date(y, m, z + 1)
    else MonthDay(y, m + 1, z - DaysInMonth(y, m))
  }

  /** The date `z` days after January 1st of year `y` (`z` may be negative). */
  function DateFrom(y: int, z: int): (d: Date)
    ensures ValidDate(d)
    decreases if z < 0 then 366 - z else z
  {
    if z < 0 then DateFrom(y - 1, z + DaysInYear(y - 1))
    else if z >= DaysInYear(y) then DateFrom(y + 1, z - DaysInYear(y))
    else
      MonthsSplitYear(y, 1);
      MonthDay(y, 1, z)
  }

  /** The calendar date of local day number `z`. */
  function DateOfDay(z: int): (d: Date)
    ensures ValidDate(d)
  {
    DateFrom(1970, z)
  }

  /** `datetime.day` of instant `t`. */
  function DayOfMonth(t: int): (r: int)
    ensures 1 <= r <= 31
  {
    DateOfDay(Day(t)).day
  }

  /** Days from 1970-01-01 to January 1st of year `y`. */
  function DaysBeforeYear(y: int): int
    decreases if y < 1970 then 1970 - y else y - 1970
  {
    if y == 1970 then 0
    else if y > 1970 then DaysBeforeYear(y - 1) + DaysInYear(y - 1)
    else DaysBeforeYear(y + 1) - DaysInYear(y)
  }

  /** Local day number of a calendar date: the inverse of `DateOfDay`. */
  function DayNumber(d: Date): int
    requires ValidDate(d)
  {
    DaysBeforeYear(d.year) + DaysBeforeMonth(d.year, d.month) + d.day - 1
  }

  lemma YearStep(y: int)
    ensures DaysBeforeYear(y + 1) == DaysBeforeYear(y) + DaysInYear(y)
  {
  }

  lemma {:induction false} YearsIncrease(y1: int, y2: int)
    requires y1 < y2
    ensures DaysBeforeYear(y1) + DaysInYear(y1) <= DaysBeforeYear(y2)
    decreases y2 - y1
  {
    YearStep(y2 - 1);
    if y1 < y2 - 1 {
      YearsIncrease(y1, y2 - 1);
    }
  }

  lemma {:induction false} MonthsIncrease(y: int, m1: int, m2: int)
    requires 1 <= m1 < m2 <= 13
    ensures DaysBeforeMonth(y, m1) + DaysInMonth(y, m1) <= DaysBeforeMonth(y, m2)
    decreases m2 - m1
  {
    if m1 < m2 - 1 {
      MonthsIncrease(y, m1, m2 - 1);
    }
  }

  /** A valid date's day number lies inside its own year. */
  lemma DayNumberInYear(d: Date)
    requires ValidDate(d)
    ensures DaysBeforeYear(d.year) <= DayNumber(d) < DaysBeforeYear(d.year) + DaysInYear(d.year)
  {
    MonthsSplitYear(d.year, 13);
    MonthsIncrease(d.year, d.month, 13);
  }

  lemma DayNumberInjective(d1: Date, d2: Date)
    requires ValidDate(d1) && ValidDate(d2) && DayNumber(d1) == DayNumber(d2)
    ensures d1 == d2
  {
    DayNumberInYear(d1);
    DayNumberInYear(d2);
    if d1.year < d2.year {
      YearsIncrease(d1.year, d2.year);
    } else if d2.year < d1.year {
      YearsIncrease(d2.year, d1.year);
    }
    assert d1.year == d2.year;
    if d1.month < d2.month {
      MonthsIncrease(d1.year, d1.month, d2.month);
    } else if d2.month < d1.month {
      MonthsIncrease(d1.year, d2.month, d1.month);
    }
  }

  lemma {:induction false} DateFromNumbersDay(y: int, z: int)
    ensures DayNumber(DateFrom(y, z)) == DaysBeforeYear(y) + z
    decreases if z < 0 then 366 - z else z
  {
    if z < 0 {
      YearStep(y - 1);
      DateFromNumbersDay(y - 1, z + DaysInYear(y - 1));
    } else if z >= DaysInYear(y) {
      YearStep(y);
      DateFromNumbersDay(y + 1, z - DaysInYear(y));
    } else {
      MonthsSplitYear(y, 1);
    }
  }

  /** Day number -> date -> day number is the identity. */
  lemma DayNumberOfDate(z: int)
    ensures DayNumber(DateOfDay(z)) == z
  {
    DateFromNumbersDay(1970, z);
  }

  /** Date -> day number -> date is the identity on valid dates. */
  lemma DateOfDayNumber(d: Date)
    requires ValidDate(d)
    ensures DateOfDay(DayNumber(d)) == d
  {
    DayNumberOfDate(DayNumber(d));
    DayNumberInjective(DateOfDay(DayNumber(d)), d);
  }
}
