/** src/helpers/time.c: seconds since the epoch to broken-down time, and its rendering. */
module Time {
  import opened Bytes
  import opened Calendar
  import opened Decimal
  import opened Status

  newtype int32 = x: int | -0x8000_0000 <= x < 0x8000_0000

  const INT_MAX := 0x7FFF_FFFF
  const INT_MIN := -0x8000_0000

  datatype Tm = Tm(sec: int, min: int, hour: int, mday: int, mon: int, year: int, wday: int, yday: int)

  /** C division: the quotient is truncated toward zero. */
  function TruncDiv(a: int, b: int): int
    requires b > 0
  {
    if a >= 0 then a / b else -((-a) / b)
  }

  function TruncRem(a: int, b: int): int
    requires b > 0
  {
    a - b * TruncDiv(a, b)
  }

  const LEAPOCH := 946684800 + 86400 * (31 + 29)
  const DAYS_PER_400Y := 365 * 400 + 97
  const DAYS_PER_100Y := 365 * 100 + 24
  const DAYS_PER_4Y := 365 * 4 + 1

  /** The range test of time.c line 36. */
  predicate InRange(t: int) {
    INT_MIN * 31622400 <= t <= INT_MAX * 31622400
  }

  /** Every field of `tm` is the true one for the second `t`. */
  predicate Represents(tm: Tm, t: int) {
    && ValidDate(tm.year + 1900, tm.mon, tm.mday)
    && 0 <= tm.hour < 24 && 0 <= tm.min < 60 && 0 <= tm.sec < 60
    && t == 86400 * DayNumber(tm.year + 1900, tm.mon, tm.mday) + 3600 * tm.hour + 60 * tm.min + tm.sec
    && tm.wday == (DayNumber(tm.year + 1900, tm.mon, tm.mday) + 4) % 7  // 1 January 1970 was a Thursday
    && tm.yday == DaysBeforeMonth(tm.year + 1900, tm.mon) + tm.mday - 1
  }

  /** A second has one broken-down form. */
  lemma RepresentationIsUnique(a: Tm, b: Tm, t: int)
    requires Represents(a, t) && Represents(b, t)
    ensures a == b
  {
    DateIsUnique(a.year + 1900, a.mon, a.mday, b.year + 1900, b.mon, b.mday);
  }

  lemma Quotient(a: int, b: int, k: int, r: int)
    requires b in {4, 100, 400} && a == b * k + r && 0 <= r < b
    ensures a / b == k && a % b == r
  {
  }

  /** The year `2000 + years` of the four cycle counts: its leap rule, and the days before it. */
  lemma CyclesAddUp(qc: int, c: int, q: int, r: int)
    requires 0 <= c < 4 && 0 <= q < 25 && 0 <= r < 4
    ensures var years := r + 4 * q + 100 * c + 400 * qc;
      && DaysBeforeYear(2000 + years) + LeapDay(2000 + years) - DaysBeforeYear(2000) - 1
         == qc * DAYS_PER_400Y + c * DAYS_PER_100Y + q * DAYS_PER_4Y + r * 365
      && (IsLeap(2000 + years) <==> r == 0 && (q != 0 || c == 0))
      && (IsLeap(2001 + years) <==> r == 3 && (q != 24 || c == 3))
  {
    LeapRule(qc, c, q, r);
    var y := 1999 + r + 4 * q + 100 * c + 400 * qc;
    var k4 := 500 + 100 * qc + 25 * c + q;
    if r == 0 { Quotient(y, 4, k4 - 1, 3); } else { Quotient(y, 4, k4, r - 1); }
    var k100, r100 := 20 + 4 * qc + c, r + 4 * q;
    if r100 == 0 { Quotient(y, 100, k100 - 1, 99); } else { Quotient(y, 100, k100, r100 - 1); }
    var k400, r400 := 5 + qc, r + 4 * q + 100 * c;
    if r400 == 0 { Quotient(y, 400, k400 - 1, 399); } else { Quotient(y, 400, k400, r400 - 1); }
    assert DaysBeforeYear(2000) == 365 * 1999 + 499 - 19 + 4;
  }

  lemma LeapRule(qc: int, c: int, q: int, r: int)
    requires 0 <= c < 4 && 0 <= q < 25 && 0 <= r < 4
    ensures var years := r + 4 * q + 100 * c + 400 * qc;
      && (IsLeap(2000 + years) <==> r == 0 && (q != 0 || c == 0))
      && (IsLeap(2001 + years) <==> r == 3 && (q != 24 || c == 3))
  {
    var y := 2000 + r + 4 * q + 100 * c + 400 * qc;
    Quotient(y, 4, 500 + 100 * qc + 25 * c + q, r);
    Quotient(y, 100, 20 + 4 * qc + c, r + 4 * q);
    Quotient(y, 400, 5 + qc, r + 4 * q + 100 * c);
    if r == 3 {
      Quotient(y + 1, 4, 501 + 100 * qc + 25 * c + q, 0);
      if q == 24 {
        Quotient(y + 1, 100, 21 + 4 * qc + c, 0);
        if c == 3 {
          Quotient(y + 1, 400, 6 + qc, 0);
        } else {
          Quotient(y + 1, 400, 5 + qc, 100 * (c + 1));
        }
      } else {
        Quotient(y + 1, 100, 20 + 4 * qc + c, 4 * (q + 1));
      }
    } else {
      Quotient(y + 1, 4, 500 + 100 * qc + 25 * c + q, r + 1);
    }
  }

  const DAYS_IN_MONTH: seq<int32> := [31, 30, 31, 30, 31, 31, 30, 31, 30, 31, 31, 29]

  /** Days of the March-based year that precede month `m` of it. */
  function MarchDaysBefore(m: int): int
    requires 0 <= m <= 12
  {
    [0, 31, 61, 92, 122, 153, 184, 214, 245, 275, 306, 337, 366][m]
  }

  /** The day `marchDay` of the March-based year that starts in `year`, which lies in its month `m`. */
  ghost predicate MarchDate(years: int, marchDay: int, m: int) {
    && 0 <= m < 12
    && 0 <= marchDay < 365 + LeapDay(2001 + years)
    && MarchDaysBefore(m) <= marchDay < MarchDaysBefore(m + 1)
  }

  /** Where the March-based year folds back into the civil one. */
  lemma CivilDate(years: int, marchDay: int, m: int)
    requires MarchDate(years, marchDay, m)
    ensures var mon := if m < 10 then m + 2 else m - 10;
            var year := if m < 10 then 2000 + years else 2001 + years;
            var mday := marchDay - MarchDaysBefore(m) + 1;
      && ValidDate(year, mon, mday)
      && DayNumber(year, mon, mday)
         == DaysBeforeYear(2000 + years) + LeapDay(2000 + years) - DaysBeforeYear(1970) + 59 + marchDay
      && DaysBeforeMonth(year, mon) + mday - 1
         == if m < 10 then marchDay + 59 + LeapDay(2000 + years) else marchDay - 306
  {
    YearsAddUp(2000 + years);
  }

  /** Truncated division, corrected when the remainder is negative, is floor division. */
  lemma TruncToFloor(a: int, b: int)
    requires b > 0
    ensures a == b * TruncDiv(a, b) + TruncRem(a, b) && -b < TruncRem(a, b) < b
    ensures (if TruncRem(a, b) < 0 then TruncDiv(a, b) - 1 else TruncDiv(a, b)) == a / b
    ensures (if TruncRem(a, b) < 0 then TruncRem(a, b) + b else TruncRem(a, b)) == a % b
  {
    if a < 0 {
      var q, r := (-a) / b, (-a) % b;
      assert -a == b * q + r;
      if r != 0 {
        assert a == b * (-q - 1) + (b - r);
        FloorIsUnique(a, b, -q - 1, b - r);
      } else {
        assert a == b * (-q);
        FloorIsUnique(a, b, -q, 0);
      }
    }
  }

  lemma Monotone(b: int, x: int, y: int)
    requires b > 0 && x <= y
    ensures b * x <= b * y
  {
  }

  lemma FloorIsUnique(a: int, b: int, q: int, r: int)
    requires b > 0 && a == b * q + r && 0 <= r < b
    ensures a / b == q && a % b == r
  {
    var d := a / b - q;
    assert b * d + a % b == r;
    if d > 0 {
      Monotone(b, 1, d);
      assert false;
    } else if d < 0 {
      Monotone(b, d, -1);
      assert false;
    }
  }

  /** The four cycle counts of a day counted from 1 March 2000, and what is left of its year. */
  ghost predicate Cycles(day: int, qc: int, c: int, q: int, r: int, marchDay: int) {
    && day == qc * DAYS_PER_400Y + c * DAYS_PER_100Y + q * DAYS_PER_4Y + r * 365 + marchDay
    && 0 <= c < 4 && 0 <= q < 25 && 0 <= r < 4
    && 0 <= marchDay <= if r == 3 && (q != 24 || c == 3) then 365 else 364
  }

  ghost function Year(qc: int, c: int, q: int, r: int): int {
    r + 4 * q + 100 * c + 400 * qc
  }

  /** The civil date of a day given by its cycle counts and its March-based month. */
  lemma DateOfCycles(day: int, qc: int, c: int, q: int, r: int, marchDay: int, m: int)
    requires Cycles(day, qc, c, q, r, marchDay)
    requires 0 <= m < 12 && MarchDaysBefore(m) <= marchDay < MarchDaysBefore(m + 1)
    ensures var years := Year(qc, c, q, r);
            var mon := if m < 10 then m + 2 else m - 10;
            var year := if m < 10 then 2000 + years else 2001 + years;
            var mday := marchDay - MarchDaysBefore(m) + 1;
      && ValidDate(year, mon, mday)
      && DayNumber(year, mon, mday) == day + 11017
      && DaysBeforeMonth(year, mon) + mday - 1
         == if m < 10 then marchDay + 59 + (if r == 0 && (q != 0 || c == 0) then 1 else 0) else marchDay - 306
  {
    CyclesAddUp(qc, c, q, r);
    CivilDate(Year(qc, c, q, r), marchDay, m);
    assert DaysBeforeYear(2000) - DaysBeforeYear(1970) == 10957;
  }

  lemma Assemble(t: int, day: int, sec: int, year: int, mon: int, mday: int, wday: int, yday: int)
    requires t == LEAPOCH + 86400 * day + sec && 0 <= sec < 86400
    requires ValidDate(year + 1900, mon, mday) && DayNumber(year + 1900, mon, mday) == day + 11017
    requires wday == (3 + day) % 7 && yday == DaysBeforeMonth(year + 1900, mon) + mday - 1
    ensures Represents(Tm(sec % 60, sec / 60 % 60, sec / 3600, mday, mon, year, wday, yday), t)
  {
    hide DayNumber, ValidDate, DaysBeforeMonth;
    ClockFields(sec);
    Weekday(day);
  }

  lemma ClockFields(sec: int)
    requires 0 <= sec < 86400
    ensures sec == 3600 * (sec / 3600) + 60 * (sec / 60 % 60) + sec % 60 && sec / 3600 < 24
  {
    assert sec / 60 / 60 == sec / 3600;
  }

  lemma Weekday(day: int)
    ensures (day + 11017 + 4) % 7 == (3 + day) % 7
  {
    assert day + 11017 + 4 == 3 + day + 7 * 1574;
  }

  lemma YearBound(day: int, qc: int, c: int, q: int, r: int, marchDay: int)
    requires Cycles(day, qc, c, q, r, marchDay)
    ensures -11017 <= day <= 220_000_000_000 ==> -1000 <= Year(qc, c, q, r) <= 1_000_000_000
  {
  }

  /** The month loop of time.c line 74: it stops before it runs off the table. */
  method MarchMonth(marchDay: int32) returns (months: int32, remdays: int32)
    requires 0 <= marchDay <= 365
    ensures 0 <= months < 12
    ensures MarchDaysBefore(months as int) <= marchDay as int < MarchDaysBefore(months as int + 1)
    ensures remdays as int == marchDay as int - MarchDaysBefore(months as int)
  {
    months, remdays := 0, marchDay;
    while DAYS_IN_MONTH[months] <= remdays
      invariant 0 <= months < 12 && 0 <= remdays
      invariant remdays as int == marchDay as int - MarchDaysBefore(months as int)
    {
      remdays := remdays - DAYS_IN_MONTH[months];
      months := months + 1;
    }
  }

  /** Truncating division, then the correction of time.c lines 41-44, 47 and 51-54. */
  method FloorDivRem(a: int, b: int) returns (quotient: int, remainder: int)
    requires b > 0
    ensures a == b * quotient + remainder && 0 <= remainder < b
    ensures remainder == a % b
  {
    TruncToFloor(a, b);
    quotient, remainder := TruncDiv(a, b), TruncRem(a, b);
    if remainder < 0 {
      remainder := remainder + b;
      quotient := quotient - 1;
    }
  }

  /** time.c lines 49 to 66; `day` is bounded as in its caller, so every count fits an int. */
  method SplitDays(day: int) returns (qcCycles: int32, cCycles: int32, qCycles: int32, remyears: int32, remdays: int32)
    requires -0x100_0000_0000 <= day <= 0x100_0000_0000
    ensures Cycles(day, qcCycles as int, cCycles as int, qCycles as int, remyears as int, remdays as int)
  {
    var quotient, remainder := FloorDivRem(day, DAYS_PER_400Y);
    qcCycles, remdays := quotient as int32, remainder as int32;

    cCycles := remdays / DAYS_PER_100Y as int32;
    if cCycles == 4 {
      cCycles := cCycles - 1;
    }
    remdays := remdays - cCycles * DAYS_PER_100Y as int32;
    assert 0 <= cCycles < 4 && 0 <= remdays <= if cCycles == 3 then 36524 else 36523;

    qCycles := remdays / DAYS_PER_4Y as int32;
    if qCycles == 25 {
      qCycles := qCycles - 1;
    }
    remdays := remdays - qCycles * DAYS_PER_4Y as int32;
    assert 0 <= qCycles < 25 && 0 <= remdays <= if qCycles == 24 && cCycles != 3 then 1459 else 1460;

    remyears := remdays / 365;
    if remyears == 4 {
      remyears := remyears - 1;
    }
    remdays := remdays - remyears * 365;
  }

  /** `years` of time.c: years since 2000, counted from March. */
  function MarchYears(tm: Tm): int {
    tm.year - 100 - (if tm.mon < 2 then 1 else 0)
  }

  /** The range test of time.c line 76. */
  predicate YearsFit(tm: Tm) {
    INT_MIN + 100 <= MarchYears(tm) <= INT_MAX - 100
  }

  /** The sum of time.c line 72 in C's `int`: no term and no partial sum leaves it for five million cycles. */
  function YearSum(remyears: int32, qCycles: int32, cCycles: int32, qcCycles: int32): (years: int32)
    requires 0 <= remyears < 4 && 0 <= qCycles < 25 && 0 <= cCycles < 4 && -5_000_000 <= qcCycles <= 5_000_000
    ensures years as int == Year(qcCycles as int, cCycles as int, qCycles as int, remyears as int)
  {
    remyears + 4 * qCycles + 100 * cCycles + 400 * qcCycles
  }

  /** A time succeeds exactly if both range tests pass; for a scheduled transfer they do, and the year sum fits an int. */
  method SecondsToTm(t: int) returns (ok: bool, out: Tm)
    requires -0x8000_0000_0000_0000 <= t < 0x8000_0000_0000_0000
    ensures ok ==> InRange(t) && Represents(out, t) && YearsFit(out)
    ensures !ok && InRange(t) ==> exists tm :: Represents(tm, t) && !YearsFit(tm)
    ensures 0 <= t <= UINT64_MAX / 1000 ==> ok && -1000 <= MarchYears(out) <= 1_000_000_000
  {
    hide Represents, DayNumber, ValidDate, DaysBeforeMonth, DaysBeforeYear;
    out := Tm(0, 0, 0, 0, 0, 0, 0, 0);
    if t < INT_MIN * 31622400 || t > INT_MAX * 31622400 {
      return false, out;
    }
    var secs := t - LEAPOCH;
    var days, remsecs := FloorDivRem(secs, 86400);
    var _, wday := FloorDivRem(3 + days, 7);

    var qcCycles, cCycles, qCycles, remyears, marchDay := SplitDays(days);
    var leap: int32 := if remyears == 0 && (qCycles != 0 || cCycles == 0) then 1 else 0;
    var yday := marchDay + 31 + 28 + leap;
    if yday >= 365 + leap {
      yday := yday - (365 + leap);
    }

    // The sum is an `int` in C; at the two ends of the accepted range it would leave that type.
    var years := remyears as int + 4 * qCycles as int + 100 * cCycles as int + 400 * qcCycles as int;
    var months, remdays := MarchMonth(marchDay);
    YearBound(days, qcCycles as int, cCycles as int, qCycles as int, remyears as int, marchDay as int);
    assert 0 <= t <= UINT64_MAX / 1000 ==> years == YearSum(remyears, qCycles, cCycles, qcCycles) as int;
    ghost var tm := Tm(remsecs % 60, remsecs / 60 % 60, remsecs / 3600, remdays as int + 1,
                       if months < 10 then months as int + 2 else months as int - 10,
                       if months < 10 then years + 100 else years + 101, wday, yday as int);
    assert Represents(tm, t) by {
      DateOfCycles(days, qcCycles as int, cCycles as int, qCycles as int, remyears as int, marchDay as int, months as int);
      Assemble(t, days, remsecs, tm.year, tm.mon, remdays as int + 1, wday, yday as int);
    }
    assert MarchYears(tm) == years;
    if years > INT_MAX - 100 || years < INT_MIN + 100 {
      assert !YearsFit(tm);
      return false, out;
    }

    var year, mon := years + 100, months as int + 2;
    if mon >= 12 {
      mon := mon - 12;
      year := year + 1;
    }
    out := Tm(remsecs % 60, remsecs / 60 % 60, remsecs / 3600, remdays as int + 1, mon, year, wday, yday as int);
    ok := true;
  }
}
