/**
 `Date.UTC` and the calendar fields a formatter shows, as in sections 21.4.1.3 to 21.4.1.28
 of ECMA-262: days are numbered from 1970-01-01, in the Gregorian calendar carried back before
 its introduction.
 */
module Calendar {
  import opened Bits

  predicate IsLeap(y: int) {
    y % 4 == 0 && (y % 100 != 0 || y % 400 == 0)
  }

  function DaysInYear(y: int): int {
    if IsLeap(y) then 366 else 365
  }

  /** The number of the first day of a year. */
  function DayFromYear(y: int): int {
    365 * (y - 1970) + (y - 1969) / 4 - (y - 1901) / 100 + (y - 1601) / 400
  }

  /** Months count from 0, as in `Date.UTC`. */
  function DaysInMonth(y: int, month: int): int {
    if month == 1 then (if IsLeap(y) then 29 else 28)
    else if month in {3, 5, 8, 10} then 30
    else 31
  }

  function DaysBeforeMonth(y: int, month: nat): int {
    if month == 0 then 0 else DaysBeforeMonth(y, month - 1) + DaysInMonth(y, month - 1)
  }

  /** Year, month and day as a day number; a month outside 0 to 11 moves the year. */
  function MakeDay(y: int, month: int, date: int): int {
    DayInMonth(y + month / 12, month % 12, date)
  }

  function DayInMonth(y: int, month: nat, date: int): int {
    DayFromYear(y) + DaysBeforeMonth(y, month) + date - 1
  }

  function MakeTime(hour: int, minute: int, second: int): int {
    hour * 3600000 + minute * 60000 + second * 1000
  }

  function MakeDate(day: int, time: int): int {
    day * 86400000 + time
  }

  /** A year from 0 to 99 means one of the twentieth century. */
  function FullYear(y: int): int {
    if 0 <= y <= 99 then 1900 + y else y
  }

  function DateUTC(y: int, month: int, date: int, hour: int, minute: int, second: int): int {
    MakeDate(MakeDay(FullYear(y), month, date), MakeTime(hour, minute, second))
  }

  // ----- Calendar fields -----

  datatype Civil = Civil(year: int, month: int, date: int, hour: int, minute: int, second: int)

  predicate Valid(c: Civil) {
    && 0 <= c.month < 12 && 1 <= c.date <= DaysInMonth(c.year, c.month)
    && 0 <= c.hour < 24 && 0 <= c.minute < 60 && 0 <= c.second < 60
  }

  /** The time of the fields, with the year as it is. */
  function TimeOf(c: Civil): int {
    MakeDate(MakeDay(c.year, c.month, c.date), MakeTime(c.hour, c.minute, c.second))
  }

  /** Dividing carries exactly where `n` divides the year. */
  lemma Carry(y: int, q: int, n: int)
    requires n > 0
    ensures (y - q * n) / n == (y - q * n - 1) / n + if y % n == 0 then 1 else 0
  {
    var d, r := y / n - q, y % n;
    Distributes(n, y / n, -q);
    DivModUnique(y - q * n, n, d, r);
    if r == 0 {
      Distributes(n, d, -1);
      DivModUnique(y - q * n - 1, n, d - 1, n - 1);
    } else {
      DivModUnique(y - q * n - 1, n, d, r - 1);
    }
  }

  lemma Divides(y: int, n: int, m: int)
    requires n > 0 && m > 0 && n * m > 0 && y % (n * m) == 0
    ensures y % n == 0
  {
    var d := y / (n * m);
    assert y == n * m * d == n * (m * d) + 0;
    DivModUnique(y, n, m * d, 0);
  }

  lemma LeapRule(y: int)
    ensures y % 100 == 0 ==> y % 4 == 0
    ensures y % 400 == 0 ==> y % 100 == 0
  {
    if y % 100 == 0 {
      Divides(y, 4, 25);
    }
    if y % 400 == 0 {
      Divides(y, 100, 4);
    }
  }

  lemma YearLength(y: int)
    ensures DayFromYear(y + 1) == DayFromYear(y) + DaysInYear(y)
  {
    Carry(y, 492, 4);
    Carry(y, 19, 100);
    Carry(y, 4, 400);
    LeapRule(y);
  }

  lemma {:induction false} YearsAreOrdered(y: int, later: int)
    requires y <= later
    ensures DayFromYear(y) + 365 * (later - y) <= DayFromYear(later)
    decreases later - y
  {
    if y < later {
      YearsAreOrdered(y, later - 1);
      YearLength(later - 1);
    }
  }

  lemma MonthsFillYear(y: int)
    ensures DaysBeforeMonth(y, 12) == DaysInYear(y)
  {
    assert DaysBeforeMonth(y, 1) == 31;
    assert DaysBeforeMonth(y, 2) == DaysInYear(y) - 306;
    assert DaysBeforeMonth(y, 4) == DaysInYear(y) - 245;
    assert DaysBeforeMonth(y, 6) == DaysInYear(y) - 184;
    assert DaysBeforeMonth(y, 8) == DaysInYear(y) - 122;
    assert DaysBeforeMonth(y, 10) == DaysInYear(y) - 61;
  }

  lemma MonthLengths(y: int, month: int)
    requires 0 <= month < 12
    ensures var february := if y % 400 == 0 || (y % 4 == 0 && y % 100 != 0) then 29 else 28;
      DaysInMonth(y, month) == [31, february, 31, 30, 31, 30, 31, 31, 30, 31, 30, 31][month]
  {
  }

  /** The days are counted from the epoch. */
  lemma KnownYears()
    ensures DayFromYear(1970) == 0 && DayFromYear(2000) == 10957 && DayFromYear(2024) == 19723
  {
  }

  lemma {:induction false} MonthsAreOrdered(y: int, month: nat, later: nat)
    requires month < later <= 12
    ensures DaysBeforeMonth(y, month) + DaysInMonth(y, month) <= DaysBeforeMonth(y, later)
    decreases later
  {
    if month + 1 < later {
      MonthsAreOrdered(y, month, later - 1);
    }
  }

  function YearUp(day: int, y: int): (r: int)
    requires DayFromYear(y) <= day
    ensures DayFromYear(r) <= day < DayFromYear(r + 1)
    decreases day - DayFromYear(y)
  {
    YearLength(y);
    if day < DayFromYear(y + 1) then y else YearUp(day, y + 1)
  }

  function YearDown(day: int, y: int): (r: int)
    requires day < DayFromYear(y)
    ensures DayFromYear(r) <= day < DayFromYear(r + 1)
    decreases DayFromYear(y) - day
  {
    YearLength(y - 1);
    if DayFromYear(y - 1) <= day then y - 1 else YearDown(day, y - 1)
  }

  /** The year of a day. */
  function YearOf(day: int): (r: int)
    ensures DayFromYear(r) <= day < DayFromYear(r + 1)
  {
    if DayFromYear(1970) <= day then YearUp(day, 1970) else YearDown(day, 1970)
  }

  /** The month of a day of the year, up to month `last`. */
  function MonthOf(y: int, day: int, last: nat): (m: nat)
    requires 0 <= day < DaysBeforeMonth(y, last + 1) && last < 12
    ensures m <= last && DaysBeforeMonth(y, m) <= day < DaysBeforeMonth(y, m) + DaysInMonth(y, m)
  {
    if DaysBeforeMonth(y, last) <= day then last else MonthOf(y, day, last - 1)
  }

  function DayInYear(day: int): (r: int)
    ensures 0 <= r < DaysBeforeMonth(YearOf(day), 12)
  {
    YearLength(YearOf(day));
    MonthsFillYear(YearOf(day));
    day - DayFromYear(YearOf(day))
  }

  function MonthOfDay(day: int): (m: nat)
    ensures m < 12 && 0 <= DayInYear(day) - DaysBeforeMonth(YearOf(day), m) < DaysInMonth(YearOf(day), m)
  {
    MonthOf(YearOf(day), DayInYear(day), 11)
  }

  function DateOf(day: int): (d: int)
    ensures 1 <= d <= DaysInMonth(YearOf(day), MonthOfDay(day))
  {
    DayInYear(day) - DaysBeforeMonth(YearOf(day), MonthOfDay(day)) + 1
  }

  function Day(t: int): int {
    t / 1000 / 60 / 60 / 24
  }

  /** The fields of a time, to the second. */
  function CivilOf(t: int): Civil {
    Civil(YearOf(Day(t)), MonthOfDay(Day(t)), DateOf(Day(t)),
          t / 1000 / 60 / 60 % 24, t / 1000 / 60 % 60, t / 1000 % 60)
  }

  lemma ClockParts(t: int)
    ensures MakeDate(Day(t), MakeTime(t / 1000 / 60 / 60 % 24, t / 1000 / 60 % 60, t / 1000 % 60)) == t / 1000 * 1000
  {
    var s := t / 1000;
    var m := s / 60;
    var h := m / 60;
    assert s == m * 60 + s % 60;
    assert m == h * 60 + m % 60;
    assert h == Day(t) * 24 + h % 24;
  }

  lemma MonthInYear(y: int, month: int, date: int)
    requires 0 <= month < 12
    ensures MakeDay(y, month, date) == DayInMonth(y, month, date)
  {
    assert y + month / 12 == y && month % 12 == month;
  }

  /** Every time has valid fields, and the fields give it back, to the second. */
  lemma FieldsGiveTime(t: int)
    ensures Valid(CivilOf(t)) && TimeOf(CivilOf(t)) == t / 1000 * 1000
  {
    ClockParts(t);
    MonthInYear(YearOf(Day(t)), MonthOfDay(Day(t)), DateOf(Day(t)));
  }

  lemma MonthIsUnique(y: int, m: nat, n: nat, day: int)
    requires m < 12 && n < 12
    requires DaysBeforeMonth(y, m) <= day < DaysBeforeMonth(y, m) + DaysInMonth(y, m)
    requires DaysBeforeMonth(y, n) <= day < DaysBeforeMonth(y, n) + DaysInMonth(y, n)
    ensures m == n
  {
    if m < n {
      MonthsAreOrdered(y, m, n);
    } else if n < m {
      MonthsAreOrdered(y, n, m);
    }
  }

  lemma YearIsUnique(y: int, z: int, day: int)
    requires DayFromYear(y) <= day < DayFromYear(y + 1) && DayFromYear(z) <= day < DayFromYear(z + 1)
    ensures y == z
  {
    if y < z {
      YearsAreOrdered(y + 1, z);
    } else if z < y {
      YearsAreOrdered(z + 1, y);
    }
  }

  lemma DivMod(q: int, r: int, n: int)
    requires n in {24, 60, 1000} && 0 <= r < n
    ensures (q * n + r) / n == q && (q * n + r) % n == r
  {
    if n == 24 {
      assert (q * 24 + r) / 24 == q;
    } else if n == 60 {
      assert (q * 60 + r) / 60 == q;
    } else {
      assert (q * 1000 + r) / 1000 == q;
    }
  }

  lemma YearIsAtLeast(y: int, day: int)
    requires DayFromYear(y) <= day
    ensures y <= YearOf(day)
  {
    if YearOf(day) < y {
      YearsAreOrdered(YearOf(day) + 1, y);
    }
  }

  lemma ClockOfTime(day: int, hour: int, minute: int, second: int)
    requires 0 <= hour < 24 && 0 <= minute < 60 && 0 <= second < 60
    ensures var t := MakeDate(day, MakeTime(hour, minute, second));
      && t % 1000 == 0 && Day(t) == day
      && t / 1000 / 60 / 60 % 24 == hour && t / 1000 / 60 % 60 == minute && t / 1000 % 60 == second
  {
    var h := day * 24 + hour;
    var m := h * 60 + minute;
    var s := m * 60 + second;
    assert MakeDate(day, MakeTime(hour, minute, second)) == s * 1000 + 0;
    DivMod(s, 0, 1000);
    DivMod(m, second, 60);
    DivMod(h, minute, 60);
    DivMod(day, hour, 24);
  }

  lemma DayGivesDate(y: int, month: nat, date: int)
    requires month < 12 && 1 <= date <= DaysInMonth(y, month)
    ensures var day := MakeDay(y, month, date); YearOf(day) == y && MonthOfDay(day) == month && DateOf(day) == date
  {
    var day := MakeDay(y, month, date);
    MonthInYear(y, month, date);
    MonthsAreOrdered(y, month, 12);
    MonthsStart(y, month);
    MonthsFillYear(y);
    YearLength(y);
    YearIsUnique(y, YearOf(day), day);
    MonthIsUnique(y, month, MonthOfDay(day), day - DayFromYear(y));
  }

  /** Valid fields are those of their own time: no two valid dates are the same time. */
  lemma TimeGivesFields(c: Civil)
    requires Valid(c)
    ensures CivilOf(TimeOf(c)) == c && TimeOf(c) % 1000 == 0
  {
    ClockOfTime(MakeDay(c.year, c.month, c.date), c.hour, c.minute, c.second);
    DayGivesDate(c.year, c.month, c.date);
  }

  lemma {:induction false} MonthsStart(y: int, month: nat)
    ensures DaysBeforeMonth(y, month) >= 0
  {
    if month > 0 {
      MonthsStart(y, month - 1);
    }
  }

  /** `Date.UTC` of valid fields is their time, except in the first century. */
  lemma DateUTCIsTime(c: Civil)
    requires Valid(c)
    ensures DateUTC(c.year, c.month, c.date, c.hour, c.minute, c.second) == TimeOf(c) <==> !(0 <= c.year <= 99)
  {
    if 0 <= c.year <= 99 {
      var d := c.(year := 1900 + c.year);
      MonthInYear(c.year, c.month, c.date);
      MonthInYear(d.year, c.month, c.date);
      DaysAreClose(c.year, d.year, c.month);
      YearsAreOrdered(c.year, d.year);
      assert DayFromYear(c.year) + 365 * 1900 <= DayFromYear(d.year);
    }
  }

  lemma {:induction false} DaysAreClose(y: int, z: int, month: nat)
    requires month <= 12
    ensures DaysBeforeMonth(y, month) - DaysBeforeMonth(z, month) <= month
  {
    if month > 0 {
      DaysAreClose(y, z, month - 1);
    }
  }
}
