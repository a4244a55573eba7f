/**
 * The day count of a month in the proleptic Gregorian calendar, as Python's
 * `calendar.monthrange(year, month)[1]` returns it.
 */
module Calendar {
  import opened Tabular

  /** Divisible by 4, except centuries that are not divisible by 400. */
  predicate IsLeap(year: int)
  {
    year % 4 == 0 && (year % 100 != 0 || year % 400 == 0)
  }

  /** The days of each month in a common year, indexed from 1 as in Python's `calendar.mdays`. */
  const MDAYS: seq<int> := [0, 31, 28, 31, 30, 31, 30, 31, 31, 30, 31, 30, 31]

  function DaysInMonth(year: int, month: Month): (n: int)
    ensures 28 <= n <= 31
    ensures n == 31 <==> month in {1, 3, 5, 7, 8, 10, 12}
    ensures n == 30 <==> month in {4, 6, 9, 11}
    ensures month == 2 ==> (n == 29 <==> IsLeap(year))
  {
    MDAYS[month] + (if month == 2 && IsLeap(year) then 1 else 0)
  }

  /** The days of the first `n` months of `year`. */
  function DaysBefore(year: int, n: nat): int
    requires n <= 12
  {
    if n == 0 then 0 else DaysBefore(year, n - 1) + DaysInMonth(year, n)
  }

  /** The twelve month lengths add up to the length of the year. */
  lemma {:induction false} YearLength(year: int)
    ensures DaysBefore(year, 12) == if IsLeap(year) then 366 else 365
  {
    var leap := if IsLeap(year) then 1 else 0;
    assert DaysBefore(year, 1) == 31;
    assert DaysBefore(year, 2) == 59 + leap;
    assert DaysBefore(year, 3) == 90 + leap;
    assert DaysBefore(year, 4) == 120 + leap;
    assert DaysBefore(year, 5) == 151 + leap;
    assert DaysBefore(year, 6) == 181 + leap;
    assert DaysBefore(year, 7) == 212 + leap;
    assert DaysBefore(year, 8) == 243 + leap;
    assert DaysBefore(year, 9) == 273 + leap;
    assert DaysBefore(year, 10) == 304 + leap;
    assert DaysBefore(year, 11) == 334 + leap;
    assert DaysBefore(year, 12) == 365 + leap;
  }
}
