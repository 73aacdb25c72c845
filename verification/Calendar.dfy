/** The proleptic Gregorian calendar, written down independently of the conversion that has to meet it. */
module Calendar {
  predicate IsLeap(year: int) {
    year % 4 == 0 && (year % 100 != 0 || year % 400 == 0)
  }

  function LeapDay(year: int): int {
    if IsLeap(year) then 1 else 0
  }

  function YearLength(year: int): int {
    365 + LeapDay(year)
  }

  /** Months count from 0, as tm_mon does. */
  function MonthLength(year: int, month: int): int
    requires 0 <= month < 12
  {
    if month == 1 then 28 + LeapDay(year)
    else if month in {3, 5, 8, 10} then 30
    else 31
  }

  /** Days of the year that precede the first of `month`. */
  function DaysBeforeMonth(year: int, month: int): int
    requires 0 <= month <= 12
  {
    [0, 31, 59, 90, 120, 151, 181, 212, 243, 273, 304, 334, 365][month]
    + if month >= 2 then LeapDay(year) else 0
  }

  /** Days from 1 January of year 1 to 1 January of `year`. */
  function DaysBeforeYear(year: int): int {
    365 * (year - 1) + (year - 1) / 4 - (year - 1) / 100 + (year - 1) / 400
  }

  /** Days from 1 January 1970 to the given date. */
  function DayNumber(year: int, month: int, day: int): int
    requires 0 <= month < 12
  {
    DaysBeforeYear(year) - DaysBeforeYear(1970) + DaysBeforeMonth(year, month) + day - 1
  }

  predicate ValidDate(year: int, month: int, day: int) {
    0 <= month < 12 && 1 <= day <= MonthLength(year, month)
  }

  /** The closed forms are the running sums of the month and year lengths. */
  lemma MonthsAddUp(year: int, month: int)
    requires 0 <= month < 12
    ensures DaysBeforeMonth(year, 0) == 0 && DaysBeforeMonth(year, 12) == YearLength(year)
    ensures DaysBeforeMonth(year, month + 1) - DaysBeforeMonth(year, month) == MonthLength(year, month)
  {
  }

  lemma YearsAddUp(year: int)
    ensures DaysBeforeYear(1) == 0
    ensures DaysBeforeYear(year + 1) - DaysBeforeYear(year) == YearLength(year)
  {
    LeapRule(year);
    DivStep(year, 4);
    DivStep(year, 100);
    DivStep(year, 400);
  }

  lemma LeapRule(year: int)
    ensures LeapDay(year) == (if year % 4 == 0 then 1 else 0) - (if year % 100 == 0 then 1 else 0)
                             + (if year % 400 == 0 then 1 else 0)
  {
    assert year % 100 == 0 ==> year % 4 == 0 by {
      if year % 100 == 0 { assert year == 4 * (25 * (year / 100)); }
    }
    assert year % 400 == 0 ==> year % 100 == 0 by {
      if year % 400 == 0 { assert year == 100 * (4 * (year / 400)); }
    }
  }

  lemma DivStep(n: int, d: int)
    requires d in {4, 100, 400}
    ensures n / d - (n - 1) / d == if n % d == 0 then 1 else 0
  {
  }

  lemma {:induction false} YearsAreOrdered(y: int, z: int)
    requires y < z
    ensures DaysBeforeYear(y) + YearLength(y) <= DaysBeforeYear(z)
    decreases z - y
  {
    YearsAddUp(y);
    if y + 1 < z {
      YearsAreOrdered(y + 1, z);
    }
  }

  lemma DayWithinYear(year: int, month: int, day: int)
    requires ValidDate(year, month, day)
    ensures 0 <= DaysBeforeMonth(year, month) + day - 1 < YearLength(year)
  {
  }

  /** A day has one date. */
  lemma DateIsUnique(y: int, m: int, d: int, y': int, m': int, d': int)
    requires ValidDate(y, m, d) && ValidDate(y', m', d')
    requires DayNumber(y, m, d) == DayNumber(y', m', d')
    ensures y == y' && m == m' && d == d'
  {
    DayWithinYear(y, m, d);
    DayWithinYear(y', m', d');
    if y < y' {
      YearsAreOrdered(y, y');
      assert false;
    } else if y' < y {
      YearsAreOrdered(y', y);
      assert false;
    }
  }

  /** The date after a date. */
  function NextDate(year: int, month: int, day: int): (int, int, int)
    requires ValidDate(year, month, day)
  {
    if day < MonthLength(year, month) then (year, month, day + 1)
    else if month < 11 then (year, month + 1, 1)
    else (year + 1, 0, 1)
  }

  /** Day numbers count days one by one, through the ends of months and years, from 1 January 1970. */
  lemma NextDay(year: int, month: int, day: int)
    requires ValidDate(year, month, day)
    ensures var (y, m, d) := NextDate(year, month, day);
      ValidDate(y, m, d) && DayNumber(y, m, d) == DayNumber(year, month, day) + 1
    ensures DayNumber(1970, 0, 1) == 0
  {
    hide DaysBeforeYear;
    MonthsAddUp(year, month);
    YearsAddUp(year);
    assert ValidDate(year + 1, 0, 1);
  }
}
