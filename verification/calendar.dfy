/** Integer calendar arithmetic for the proleptic Gregorian calendar, as Go's
    `time` package uses it. Instants are milliseconds since 1970-01-01T00:00:00
    UTC; days are numbered from 1970-01-01 (day 0). */
module Calendar {

  const MillisPerSecond: int := 1000
  const MillisPerMinute: int := 60 * MillisPerSecond
  const MillisPerHour: int := 60 * MillisPerMinute
  const MillisPerDay: int := 24 * MillisPerHour
  const EpochYear: int := 1970

  datatype Date = Date(year: int, month: int, day: int)

  predicate IsLeap(y: int) {
    y % 4 == 0 && (y % 100 != 0 || y % 400 == 0)
  }

  function YearLength(y: int): (n: int)
    ensures n == 365 || n == 366
    ensures n == 366 <==> IsLeap(y)
  {
    if IsLeap(y) then 366 else 365
  }

  function DaysInMonth(y: int, m: int): (n: int)
    requires 1 <= m <= 12
    ensures 28 <= n <= 31
    ensures n == 29 <==> m == 2 && IsLeap(y)
  {
    if m == 2 then (if IsLeap(y) then 29 else 28)
    else if m == 4 || m == 6 || m == 9 || m == 11 then 30
    else 31
  }

  /** Days of year `y` before the first of month `m` (Go's daysBefore table
      plus one day from March on in a leap year). */
  function DaysBeforeMonth(y: int, m: int): int
    requires 1 <= m <= 12
  {
    [0, 31, 59, 90, 120, 151, 181, 212, 243, 273, 304, 334][m - 1]
      + (if m > 2 && IsLeap(y) then 1 else 0)
  }

  /** The months of a year tile it: month m starts where month m-1 ends and
      December ends where the year does. */
  lemma MonthsTileYear(y: int, m: int)
    requires 1 <= m <= 12
    ensures m < 12 ==> DaysBeforeMonth(y, m + 1) == DaysBeforeMonth(y, m) + DaysInMonth(y, m)
    ensures DaysBeforeMonth(y, m) + DaysInMonth(y, m) <= YearLength(y)
    ensures m == 12 ==> DaysBeforeMonth(y, m) + DaysInMonth(y, m) == YearLength(y)
  {
  }

  /** Day number of January 1st of year `y`. */
  function DaysBeforeYear(y: int): int
    decreases if y >= EpochYear then y - EpochYear else EpochYear - y
  {
    if y == EpochYear then 0
    else if y > EpochYear then DaysBeforeYear(y - 1) + YearLength(y - 1)
    else DaysBeforeYear(y + 1) - YearLength(y)
  }

  lemma YearStep(y: int)
    ensures DaysBeforeYear(y + 1) == DaysBeforeYear(y) + YearLength(y)
  {
  }

  /** Later years start later: at least 365 days per year in between. */
  lemma {:induction false} YearsIncrease(a: int, b: int)
    requires a < b
    ensures DaysBeforeYear(a) + 365 * (b - a) <= DaysBeforeYear(b)
    decreases b - a
  {
    YearStep(b - 1);
    if a < b - 1 {
      YearsIncrease(a, b - 1);
    }
  }

  predicate ValidDate(d: Date) {
    1 <= d.month <= 12 && 1 <= d.day <= DaysInMonth(d.year, d.month)
  }

  /** The day number of a calendar date (Go's `Date` normalisation for a valid date). */
  function DayNumber(d: Date): int
    requires 1 <= d.month <= 12
  {
    DaysBeforeYear(d.year) + DaysBeforeMonth(d.year, d.month) + d.day - 1
  }

  /** A valid date's day number lies inside its own year. */
  lemma DayNumberInYear(d: Date)
    requires ValidDate(d)
    ensures DaysBeforeYear(d.year) <= DayNumber(d) < DaysBeforeYear(d.year + 1)
  {
    MonthsTileYear(d.year, d.month);
    YearStep(d.year);
  }

  /** The day (number) an instant falls on, and the millisecond within it. */
  function DayOf(t: int): int { t / MillisPerDay }

  function MillisOfDay(t: int): (r: int)
    ensures 0 <= r < MillisPerDay
    ensures t == DayOf(t) * MillisPerDay + r
  {
    t % MillisPerDay
  }

  /** The hour of the day an instant falls in. */
  function HourOf(t: int): (h: int)
    ensures 0 <= h < 24
    ensures h * MillisPerHour <= MillisOfDay(t) < (h + 1) * MillisPerHour
  {
    MillisOfDay(t) / MillisPerHour
  }

  /** The year that contains day `n`, searching upward from year `y`. */
  function YearUp(y: int, n: int): (r: int)
    requires DaysBeforeYear(y) <= n
    ensures DaysBeforeYear(r) <= n < DaysBeforeYear(r + 1)
    decreases n - DaysBeforeYear(y)
  {
    YearStep(y);
    if n < DaysBeforeYear(y + 1) then y else YearUp(y + 1, n)
  }

  /** The year that contains day `n`, searching downward from year `y`. */
  function YearDown(y: int, n: int): (r: int)
    requires n < DaysBeforeYear(y + 1)
    ensures DaysBeforeYear(r) <= n < DaysBeforeYear(r + 1)
    decreases DaysBeforeYear(y + 1) - n
  {
    YearStep(y);
    if DaysBeforeYear(y) <= n then y else YearDown(y - 1, n)
  }

  /** The calendar year of day `n` (Go's `Time.Year` in UTC). */
  function YearOfDay(n: int): (y: int)
    ensures DaysBeforeYear(y) <= n < DaysBeforeYear(y + 1)
  {
    if n >= 0 then YearUp(EpochYear, n) else YearDown(EpochYear - 1, n)
  }

  /** Only one year contains a given day. */
  lemma YearUnique(y1: int, y2: int, n: int)
    requires DaysBeforeYear(y1) <= n < DaysBeforeYear(y1 + 1)
    requires DaysBeforeYear(y2) <= n < DaysBeforeYear(y2 + 1)
    ensures y1 == y2
  {
    if y1 < y2 {
      if y1 + 1 < y2 { YearsIncrease(y1 + 1, y2); }
    } else if y2 < y1 {
      if y2 + 1 < y1 { YearsIncrease(y2 + 1, y1); }
    }
  }

  lemma YearOfDate(d: Date)
    requires ValidDate(d)
    ensures YearOfDay(DayNumber(d)) == d.year
  {
    DayNumberInYear(d);
    YearUnique(YearOfDay(DayNumber(d)), d.year, DayNumber(d));
  }
}
