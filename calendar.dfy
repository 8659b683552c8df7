/**
 * The proleptic Gregorian calendar as Python's `datetime` uses it: which
 * (year, month, day) triples `datetime(year, month, day)` accepts, the day
 * number `toordinal()` gives them, `weekday()`, and the whole days that
 * `(value_date - now).days` reports.
 */
module Calendar {

  const MicrosPerDay: int := 86_400_000_000

  type MicrosOfDay = m: int | 0 <= m < MicrosPerDay

  /** A local instant, as `datetime.now()` returns it: the day number of its
      date (0001-01-01 is day 1) and the microseconds since that midnight. */
  datatype Instant = Instant(ordinal: int, micros: MicrosOfDay)

  predicate IsLeapYear(y: int) {
    y % 4 == 0 && (y % 100 != 0 || y % 400 == 0)
  }

  function DaysInMonth(y: int, m: int): int
    requires 1 <= m <= 12
  {
    if m == 2 then (if IsLeapYear(y) then 29 else 28)
    else if m == 4 || m == 6 || m == 9 || m == 11 then 30
    else 31
  }

  /** The dates `datetime(y, m, d)` accepts (years 1 to 9999). */
  predicate IsCivilDate(y: int, m: int, d: int) {
    1 <= y <= 9999 && 1 <= m <= 12 && 1 <= d <= DaysInMonth(y, m)
  }

  function DaysBeforeYear(y: int): int
    requires y >= 1
  {
    var p := y - 1;
    p * 365 + p / 4 - p / 100 + p / 400
  }

  /** Days in the months of year y before month m, as `datetime`'s table has them. */
  function DaysBeforeMonth(y: int, m: int): int
    requires 1 <= m <= 12
  {
    [0, 31, 59, 90, 120, 151, 181, 212, 243, 273, 304, 334][m - 1]
      + (if m > 2 && IsLeapYear(y) then 1 else 0)
  }

  /** `date(y, m, d).toordinal()`. */
  function Ordinal(y: int, m: int, d: int): int
    requires IsCivilDate(y, m, d)
  {
    DaysBeforeYear(y) + DaysBeforeMonth(y, m) + d
  }

  /** `weekday()` of the date with day number `ordinal`: Monday is 0, Sunday 6. */
  function Weekday(ordinal: int): (w: int)
    ensures 0 <= w < 7
  {
    (ordinal + 6) % 7
  }

  /** The calendar day after (y, m, d). */
  function NextDay(y: int, m: int, d: int): (int, int, int)
    requires IsCivilDate(y, m, d)
  {
    if d < DaysInMonth(y, m) then (y, m, d + 1)
    else if m < 12 then (y, m + 1, 1)
    else (y + 1, 1, 1)
  }

  /** Day numbers start at 0001-01-01, which is day 1 and a Monday. */
  lemma OrdinalEpoch()
    ensures Ordinal(1, 1, 1) == 1 && Weekday(Ordinal(1, 1, 1)) == 0
  {
  }

  /** Day numbers count days: the next calendar day has the next day number,
      so `Weekday` steps through the week in calendar order. */
  lemma OrdinalNextDay(y: int, m: int, d: int)
    requires IsCivilDate(y, m, d) && y < 9999
    ensures IsCivilDate(NextDay(y, m, d).0, NextDay(y, m, d).1, NextDay(y, m, d).2)
    ensures Ordinal(NextDay(y, m, d).0, NextDay(y, m, d).1, NextDay(y, m, d).2) == Ordinal(y, m, d) + 1
  {
    if d < DaysInMonth(y, m) {
    } else if m < 12 {
      MonthLength(y, m);
    } else {
      YearLength(y);
    }
  }

  lemma MonthLength(y: int, m: int)
    requires 1 <= m < 12
    ensures DaysBeforeMonth(y, m + 1) == DaysBeforeMonth(y, m) + DaysInMonth(y, m)
  {
  }

  lemma YearLength(y: int)
    requires y >= 1
    ensures DaysBeforeYear(y + 1) - DaysBeforeYear(y) == if IsLeapYear(y) then 366 else 365
  {
    var a, b, c := y / 4 - (y - 1) / 4, y / 100 - (y - 1) / 100, y / 400 - (y - 1) / 400;
    assert a == if y % 4 == 0 then 1 else 0 by { StepBy4(y); }
    assert b == if y % 100 == 0 then 1 else 0 by { StepBy100(y); }
    assert c == if y % 400 == 0 then 1 else 0 by { StepBy400(y); }
    assert DaysBeforeYear(y + 1) - DaysBeforeYear(y) == 365 + a - b + c;
  }

  /** Each leap-year count in `DaysBeforeYear` grows by one exactly at a multiple. */
  lemma StepBy4(y: int)
    ensures y / 4 - (y - 1) / 4 == if y % 4 == 0 then 1 else 0
  {
  }

  lemma StepBy100(y: int)
    ensures y / 100 - (y - 1) / 100 == if y % 100 == 0 then 1 else 0
  {
  }

  lemma StepBy400(y: int)
    ensures y / 400 - (y - 1) / 400 == if y % 400 == 0 then 1 else 0
  {
  }

  /** `(value_date - now).days` for a value date at midnight of day
      `valueOrdinal`: the difference in microseconds, floored to whole days. */
  function DaysDiff(valueOrdinal: int, now: Instant): int {
    ((valueOrdinal - now.ordinal) * MicrosPerDay - now.micros) / MicrosPerDay
  }

  /** Flooring loses a whole day whenever `now` is past midnight. */
  lemma DaysDiffFloor(valueOrdinal: int, now: Instant)
    ensures DaysDiff(valueOrdinal, now)
         == valueOrdinal - now.ordinal - (if now.micros > 0 then 1 else 0)
  {
    var k := valueOrdinal - now.ordinal;
    if now.micros > 0 {
      assert k * MicrosPerDay - now.micros == (k - 1) * MicrosPerDay + (MicrosPerDay - now.micros);
    }
  }
}
