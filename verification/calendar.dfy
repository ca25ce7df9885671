/**
 * Calendar fields of a wall-clock instant, as pandas' `.dt.hour`,
 * `.dt.dayofweek`, `.dt.dayofyear`, `.dt.month` and Python's
 * `datetime.hour`, `weekday()`, `timetuple().tm_yday`, `month` compute them
 * in the proleptic Gregorian calendar.
 */
module Calendar {

  const SecondsPerHour := 3600
  const SecondsPerDay := 86400
  /** Days in a 400-year Gregorian cycle. */
  const DaysPerEra := 146097
  /** Days from 1970-01-01 to 2000-01-01, which starts a 400-year cycle. */
  const EpochTo2000 := 10957

  function Hour(t: int): (h: int)
    ensures 0 <= h < 24
  {
    (t % SecondsPerDay) / SecondsPerHour
  }

  /** Monday is 0; 1970-01-01 was a Thursday. */
  function Weekday(t: int): (d: int)
    ensures 0 <= d < 7
  {
    (t / SecondsPerDay + 3) % 7
  }

  /** Whether the year `2000 + y` (equivalently, any year congruent modulo 400) is a leap year. */
  predicate Leap(y: int) {
    y % 4 == 0 && (y % 100 != 0 || y % 400 == 0)
  }

  function DaysInYear(y: int): int {
    if Leap(y) then 366 else 365
  }

  function DaysInMonth(m: int, leap: bool): int {
    if m == 2 then (if leap then 29 else 28)
    else if m == 4 || m == 6 || m == 9 || m == 11 then 30
    else 31
  }

  /** Splits a day offset within a 400-year cycle into a year offset and a day index within that year. */
  function YearOfCycle(r: int, y: nat): (p: (int, int))
    requires 0 <= r
    ensures 0 <= p.1 < DaysInYear(p.0)
    decreases r
  {
    if r < DaysInYear(y) then (y, r) else YearOfCycle(r - DaysInYear(y), y + 1)
  }

  /** The month holding day index `k` of a year, counting from `m`. */
  function MonthOfDay(k: int, m: int, leap: bool): (month: int)
    requires 1 <= m <= 12
    ensures m <= month <= 12
    decreases 12 - m
  {
    if m == 12 || k < DaysInMonth(m, leap) then m else MonthOfDay(k - DaysInMonth(m, leap), m + 1, leap)
  }

  /** Year offset (from 2000, modulo 400) and 0-based day index within the year. */
  function YearAndDayIndex(t: int): (p: (int, int))
    ensures 0 <= p.1 < DaysInYear(p.0)
  {
    var days := t / SecondsPerDay - EpochTo2000;
    YearOfCycle(days % DaysPerEra, 0)
  }

  /** Day of the year, January 1 being 1. */
  function DayOfYear(t: int): (d: int)
    ensures 1 <= d <= 366
  {
    YearAndDayIndex(t).1 + 1
  }

  function Month(t: int): (m: int)
    ensures 1 <= m <= 12
  {
    var p := YearAndDayIndex(t);
    MonthOfDay(p.1, 1, Leap(p.0))
  }
}
