/**
 * Local wall-clock time as the report code reads it from a JavaScript `Date`:
 * the calendar year, the day within the year, and the time of day down to the
 * millisecond. Days are counted from 1970-01-01 (a Thursday) so that dates can
 * be compared and shifted as integers.
 */
module Clock {
  import opened Arith

  const MsPerMinute: nat := 60000
  const MsPerHour: nat := 3600000
  const MsPerDay: nat := 86400000

  predicate IsLeapYear(year: int) {
    year % 4 == 0 && (year % 100 != 0 || year % 400 == 0)
  }

  function DaysInYear(year: int): (n: nat)
    ensures n == 365 || n == 366
  {
    if IsLeapYear(year) then 366 else 365
  }

  /** Leap years among 1..n (floor division extends it below zero). */
  function LeapsThrough(n: int): int {
    n / 4 - n / 100 + n / 400
  }

  /** Day number of January 1 of `year`, counted from 1970-01-01. */
  function DaysBeforeYear(year: int): int {
    365 * (year - 1970) + LeapsThrough(year - 1) - LeapsThrough(1969)
  }

  /** A moment of local time: `yearDay` is 0 on January 1. */
  datatype Moment = Moment(year: int, yearDay: nat, hour: nat, minute: nat, second: nat, milli: nat)
  {
    predicate Valid() {
      yearDay < DaysInYear(year) && hour < 24 && minute < 60 && second < 60 && milli < 1000
    }
  }

  /** The calendar date of a moment as a day number. */
  function EpochDay(m: Moment): int {
    DaysBeforeYear(m.year) + m.yearDay
  }

  /** Milliseconds since local midnight. */
  function MsOfDay(m: Moment): nat {
    m.hour * MsPerHour + m.minute * MsPerMinute + m.second * 1000 + m.milli
  }

  /** `getDay()` of a day number: 0 is Sunday; day 0 (1970-01-01) is a Thursday. */
  function WeekdayOf(day: int): (w: nat)
    ensures w < 7
  {
    (day + 4) % 7
  }

  function Weekday(m: Moment): (w: nat)
    ensures w < 7
  {
    WeekdayOf(EpochDay(m))
  }

  /** Strict order of moments, as `<` on `getTime()`. */
  predicate Earlier(a: Moment, b: Moment) {
    EpochDay(a) < EpochDay(b) || (EpochDay(a) == EpochDay(b) && MsOfDay(a) < MsOfDay(b))
  }

  // ---------------------------------------------------------------- lemmas

  lemma MsOfDayBound(m: Moment)
    requires m.Valid()
    ensures MsOfDay(m) < MsPerDay
  {
  }

  /** The leap-year count steps by one exactly at a leap year. */
  lemma LeapsStep(year: int)
    ensures LeapsThrough(year) - LeapsThrough(year - 1) == if IsLeapYear(year) then 1 else 0
  {
    FloorStep(year, 4);
    FloorStep(year, 100);
    FloorStep(year, 400);
    Divides(year, 25, 4);
    Divides(year, 4, 100);
  }

  /** Floor division of the predecessor drops by one exactly at a multiple. */
  lemma FloorStep(y: int, d: int)
    requires 0 < d
    ensures (y - 1) / d == if y % d == 0 then y / d - 1 else y / d
  {
    var q, r := y / d, y % d;
    assert y == d * q + r;
    if r == 0 {
      assert y - 1 == d * (q - 1) + (d - 1);
      DivBetween(y - 1, d, q - 1);
    } else {
      assert y - 1 == d * q + (r - 1);
      DivBetween(y - 1, d, q);
    }
  }

  /** A multiple of `k * d` is a multiple of `d`. */
  lemma Divides(y: int, k: int, d: int)
    requires 0 < d && 0 < k
    ensures y % (k * d) == 0 ==> y % d == 0
  {
    if y % (k * d) == 0 {
      var q := y / (k * d);
      assert y == (k * d) * q;
      assert y == d * (k * q);
      DivBetween(y, d, k * q);
    }
  }

  /** The day after the last day of a year is January 1 of the next one, so
      consecutive valid moments of adjacent years have consecutive day numbers. */
  lemma YearsAreContiguous(year: int)
    ensures DaysBeforeYear(year + 1) == DaysBeforeYear(year) + DaysInYear(year)
  {
    LeapsStep(year);
  }

  /** Moving `k` days on moves the weekday `k` places round the week. */
  lemma WeekdayShift(day: int, k: int)
    ensures WeekdayOf(day + k) == (WeekdayOf(day) + k) % 7
  {
    var j := day + 4;
    assert j == 7 * (j / 7) + j % 7;
    assert j + k == 7 * (j / 7) + (j % 7 + k);
    ModMultiplePlus(7, j / 7, j % 7 + k);
  }

  /** `getDay()` from January 1's weekday and the day within the year. */
  lemma WeekdayFromJanuaryFirst(m: Moment)
    ensures Weekday(m) == (WeekdayOf(DaysBeforeYear(m.year)) + m.yearDay) % 7
  {
    WeekdayShift(DaysBeforeYear(m.year), m.yearDay);
  }
}
