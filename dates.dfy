/**
 * Calendar dates as day numbers.  Day 0 is 1970-01-01, a Thursday; the
 * successor of a date is the date plus one.  This stands for the `datetime`
 * values and the `timedelta(days=1)` steps of the simulator.
 */
module Dates {

  type Date = int

  /** The names `strftime("%A")` gives, Monday first. */
  const EnglishDayNames: seq<string> :=
    ["Monday", "Tuesday", "Wednesday", "Thursday", "Friday", "Saturday", "Sunday"]

  /** The weekday of a date as pandas' `weekday` numbers it: Monday = 0 .. Sunday = 6. */
  function Weekday(d: Date): (w: int)
    ensures 0 <= w < 7
  {
    (d + 3) % 7
  }

  /** The English weekday name of a date (`strftime("%A")`). */
  function DayName(d: Date): (name: string)
    ensures name in EnglishDayNames
    ensures name == EnglishDayNames[Weekday(d)]
  {
    EnglishDayNames[Weekday(d)]
  }

  /** Saturday and Sunday. */
  predicate IsWeekend(d: Date) {
    DayName(d) in ["Saturday", "Sunday"]
  }

  /** A week later is the same weekday; this is what makes the heuristic's weekday filter periodic. */
  lemma {:induction false} SameWeekdayEveryWeek(d: Date, weeks: int)
    ensures DayName(d + 7 * weeks) == DayName(d)
  {
    assert (d + 7 * weeks + 3) % 7 == (d + 3) % 7;
  }

  predicate IsLeapYear(y: int) {
    y % 4 == 0 && (y % 100 != 0 || y % 400 == 0)
  }

  function YearLength(y: int): (n: int)
    ensures n == 365 || n == 366
  {
    if IsLeapYear(y) then 366 else 365
  }

  /**
   * The year and the zero-based day of that year of the date lying `days`
   * days after January 1 of `year`.
   */
  function YearDay(days: int, year: int): (r: (int, int))
    ensures 0 <= r.1 < YearLength(r.0)
    decreases if days < 0 then 366 - days else days
  {
    if days < 0 then YearDay(days + YearLength(year - 1), year - 1)
    else if days >= YearLength(year) then YearDay(days - YearLength(year), year + 1)
    else (year, days)
  }

  /** The date of January 1 of year `y`, counted in days from 1970-01-01. */
  function YearStart(y: int): int
    decreases if y < 1970 then 1970 - y else y - 1970
  {
    if y == 1970 then 0
    else if y > 1970 then YearStart(y - 1) + YearLength(y - 1)
    else YearStart(y + 1) - YearLength(y)
  }

  /** Consecutive New Year's days lie one year length apart. */
  lemma YearStartStep(y: int)
    ensures YearStart(y + 1) == YearStart(y) + YearLength(y)
  {
  }

  /** `YearDay` only re-expresses a date: its year's start plus its day of the year is the date itself. */
  lemma {:induction false} YearDayDecomposes(days: int, year: int)
    ensures YearStart(YearDay(days, year).0) + YearDay(days, year).1 == YearStart(year) + days
    decreases if days < 0 then 366 - days else days
  {
    if days < 0 {
      YearDayDecomposes(days + YearLength(year - 1), year - 1);
      YearStartStep(year - 1);
    } else if days >= YearLength(year) {
      YearDayDecomposes(days - YearLength(year), year + 1);
      YearStartStep(year);
    }
  }

  /** Zero-based day of the year on which month `m` starts; month 13 stands for the end of the year. */
  function MonthStart(leap: bool, m: int): (s: int)
    requires 1 <= m <= 13
    ensures m == 13 ==> s == (if leap then 366 else 365)
  {
    var extra := if leap then 1 else 0;
    if m == 1 then 0 else if m == 2 then 31 else if m == 3 then 59 + extra
    else if m == 4 then 90 + extra else if m == 5 then 120 + extra else if m == 6 then 151 + extra
    else if m == 7 then 181 + extra else if m == 8 then 212 + extra else if m == 9 then 243 + extra
    else if m == 10 then 273 + extra else if m == 11 then 304 + extra else if m == 12 then 334 + extra
    else 365 + extra
  }

  /** The month, counted from `m` upwards, whose days contain day `doy` of the year. */
  function MonthFrom(leap: bool, doy: int, m: int): (r: int)
    requires 1 <= m <= 12
    requires MonthStart(leap, m) <= doy < MonthStart(leap, 13)
    ensures m <= r <= 12
    ensures MonthStart(leap, r) <= doy < MonthStart(leap, r + 1)
    decreases 12 - m
  {
    if doy < MonthStart(leap, m + 1) then m else MonthFrom(leap, doy, m + 1)
  }

  /** The month, 1 to 12, of a date (`date.month`). */
  function Month(d: Date): (m: int)
    ensures 1 <= m <= 12
  {
    var (year, doy) := YearDay(d, 1970);
    MonthFrom(IsLeapYear(year), doy, 1)
  }

  /**
   * Every date is day `doy` of some year `y`, with `doy` inside that year,
   * and its month is the one whose days contain `doy` in that year.
   */
  lemma MonthOfDate(d: Date)
    ensures var (y, doy) := YearDay(d, 1970);
      && d == YearStart(y) + doy && 0 <= doy < YearLength(y)
      && MonthStart(IsLeapYear(y), Month(d)) <= doy < MonthStart(IsLeapYear(y), Month(d) + 1)
  {
    YearDayDecomposes(d, 1970);
  }

  /**
   * Fixed points of the calendar: 1970-01-01 is a Thursday in January,
   * 1970-01-05 a Monday, 1970-03-01 a Sunday in March, and 1972-02-29
   * (a leap day) lies in February.
   */
  lemma CalendarAnchors()
    ensures Weekday(0) == 3 && DayName(0) == "Thursday" && Month(0) == 1
    ensures Weekday(4) == 0 && DayName(4) == "Monday"
    ensures Weekday(59) == 6 && Month(59) == 3
    ensures Month(789) == 2 && Month(790) == 3
  {
  }
}
