/** The proleptic Gregorian calendar at the (year, month, day) level that the calendar
    screens use through java.util.Calendar: months numbered 0..11 as Calendar.MONTH, days
    from 1, weekdays 1 (Sunday) to 7 (Saturday) as Calendar.DAY_OF_WEEK. Years are
    astronomical (0 is 1 BC). */
module Gregorian {

  datatype Date = Date(year: int, month: int, day: int)

  /** A Calendar instant reduced to its date fields and the time of day in milliseconds. */
  datatype Cal = Cal(date: Date, millisOfDay: int)

  predicate IsLeap(y: int) {
    y % 4 == 0 && (y % 100 != 0 || y % 400 == 0)
  }

  /** getActualMaximum(DAY_OF_MONTH). */
  function DaysInMonth(y: int, m: int): (n: int)
    requires 0 <= m < 12
    ensures 28 <= n <= 31
    ensures n == 29 <==> m == 1 && IsLeap(y)
    ensures n == 28 <==> m == 1 && !IsLeap(y)
    ensures n == 30 <==> m == 3 || m == 5 || m == 8 || m == 10
  {
    if m == 1 then (if IsLeap(y) then 29 else 28)
    else if m == 3 || m == 5 || m == 8 || m == 10 then 30
    else 31
  }

  predicate ValidDate(d: Date) {
    0 <= d.month < 12 && 1 <= d.day <= DaysInMonth(d.year, d.month)
  }

  /** Days in the months of year y before month m. */
  function DaysBeforeMonth(y: int, m: int): (n: nat)
    requires 0 <= m <= 12
    ensures m > 0 ==> n == DaysBeforeMonth(y, m - 1) + DaysInMonth(y, m - 1)
    ensures n <= 31 * m
  {
    if m == 0 then 0 else DaysBeforeMonth(y, m - 1) + DaysInMonth(y, m - 1)
  }

  /** Days from 0001-01-01 to January 1st of year y (negative before it). */
  function DaysBeforeYear(y: int): int {
    365 * (y - 1) + (y - 1) / 4 - (y - 1) / 100 + (y - 1) / 400
  }

  /** Days from 0001-01-01, a Monday, to d. */
  function DayNumber(d: Date): int
    requires ValidDate(d)
  {
    DaysBeforeYear(d.year) + DaysBeforeMonth(d.year, d.month) + d.day - 1
  }

  /** Calendar.DAY_OF_WEEK: 1 is Sunday. */
  function DayOfWeek(d: Date): (w: int)
    requires ValidDate(d)
    ensures 1 <= w <= 7
  {
    (DayNumber(d) + 1) % 7 + 1
  }

  /** Two reference points: 1970-01-01 was a Thursday and 2024-01-01 a Monday. */
  lemma KnownWeekdays()
    ensures DayOfWeek(Date(1970, 0, 1)) == 5
    ensures DayOfWeek(Date(2024, 0, 1)) == 2
  {
  }

  /** Adding to a value after reducing it modulo 7 is reducing the sum. */
  lemma ModSevenShift(a: int, b: int)
    ensures (a % 7 + b) % 7 == (a + b) % 7
  {
    var q := a / 7;
    assert a == 7 * q + a % 7;
    assert a + b == (a % 7 + b) + 7 * q;
  }

  /** Stepping y - 1 to y crosses a multiple of 4, 100 or 400 exactly when y is one. */
  lemma FloorSteps(y: int)
    ensures y / 4 - (y - 1) / 4 == (if y % 4 == 0 then 1 else 0)
    ensures y / 100 - (y - 1) / 100 == (if y % 100 == 0 then 1 else 0)
    ensures y / 400 - (y - 1) / 400 == (if y % 400 == 0 then 1 else 0)
  {
    FloorStep4(y);
    FloorStep100(y);
    FloorStep400(y);
  }

  lemma FloorStep4(y: int)
    ensures y / 4 - (y - 1) / 4 == (if y % 4 == 0 then 1 else 0)
  {
    var q, r := (y - 1) / 4, (y - 1) % 4;
    assert y == 4 * q + r + 1;
    if r == 3 {
      assert y == 4 * (q + 1) + 0;
    } else {
      assert y == 4 * q + (r + 1) && 0 < r + 1 < 4;
    }
  }

  lemma FloorStep100(y: int)
    ensures y / 100 - (y - 1) / 100 == (if y % 100 == 0 then 1 else 0)
  {
    var q, r := (y - 1) / 100, (y - 1) % 100;
    assert y == 100 * q + r + 1;
    if r == 99 {
      assert y == 100 * (q + 1) + 0;
    } else {
      assert y == 100 * q + (r + 1) && 0 < r + 1 < 100;
    }
  }

  lemma FloorStep400(y: int)
    ensures y / 400 - (y - 1) / 400 == (if y % 400 == 0 then 1 else 0)
  {
    var q, r := (y - 1) / 400, (y - 1) % 400;
    assert y == 400 * q + r + 1;
    if r == 399 {
      assert y == 400 * (q + 1) + 0;
    } else {
      assert y == 400 * q + (r + 1) && 0 < r + 1 < 400;
    }
  }

  /** The twelve months of a year add up to its length. */
  lemma YearLength(y: int)
    ensures DaysBeforeMonth(y, 12) == DaysBeforeYear(y + 1) - DaysBeforeYear(y)
    ensures DaysBeforeMonth(y, 12) == if IsLeap(y) then 366 else 365
  {
    MonthsAddUp(y);
    FloorSteps(y);
    assert y % 400 == 0 ==> y % 100 == 0;
    assert y % 100 == 0 ==> y % 4 == 0;
  }

  lemma MonthsAddUp(y: int)
    ensures DaysBeforeMonth(y, 12) == if IsLeap(y) then 366 else 365
  {
    var leap := if IsLeap(y) then 1 else 0;
    assert DaysBeforeMonth(y, 2) == 59 + leap;
    assert DaysBeforeMonth(y, 12) == 365 + leap;
  }

  /** Within a month, the next day is the next weekday. */
  lemma DayOfWeekInMonth(y: int, m: int, k: int)
    requires 0 <= m < 12 && 1 <= k <= DaysInMonth(y, m)
    ensures DayNumber(Date(y, m, k)) == DayNumber(Date(y, m, 1)) + k - 1
    ensures DayOfWeek(Date(y, m, k)) == (DayOfWeek(Date(y, m, 1)) - 1 + k - 1) % 7 + 1
  {
    var first := DayNumber(Date(y, m, 1));
    ModSevenShift(first + 1, k - 1);
  }

  /** Calendar.add(MONTH, 1) on the first of a month. */
  function NextMonth(d: Date): (r: Date)
    requires ValidDate(d) && d.day == 1
    ensures ValidDate(r) && r.day == 1
    ensures d.month < 11 ==> r.year == d.year && r.month == d.month + 1
    ensures d.month == 11 ==> r.year == d.year + 1 && r.month == 0
  {
    if d.month == 11 then Date(d.year + 1, 0, 1) else Date(d.year, d.month + 1, 1)
  }

  /** Calendar.add(MONTH, -1) on the first of a month. */
  function PrevMonth(d: Date): (r: Date)
    requires ValidDate(d) && d.day == 1
    ensures ValidDate(r) && r.day == 1
    ensures d.month > 0 ==> r.year == d.year && r.month == d.month - 1
    ensures d.month == 0 ==> r.year == d.year - 1 && r.month == 11
  {
    if d.month == 0 then Date(d.year - 1, 11, 1) else Date(d.year, d.month - 1, 1)
  }

  /** The next month starts right after the last day of this one, and going back undoes it. */
  lemma NextMonthIsOneMonthLater(d: Date)
    requires ValidDate(d) && d.day == 1
    ensures DayNumber(NextMonth(d)) == DayNumber(d) + DaysInMonth(d.year, d.month)
    ensures PrevMonth(NextMonth(d)) == d && NextMonth(PrevMonth(d)) == d
  {
    var y, m := d.year, d.month;
    assert d == Date(y, m, 1);
    if m == 11 {
      YearLength(y);
      assert NextMonth(d) == Date(y + 1, 0, 1);
      assert DayNumber(NextMonth(d)) == DaysBeforeYear(y + 1);
    } else {
      assert NextMonth(d) == Date(y, m + 1, 1);
      assert DaysBeforeMonth(y, m + 1) == DaysBeforeMonth(y, m) + DaysInMonth(y, m);
    }
  }
}
