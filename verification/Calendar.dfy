/** The proleptic Gregorian calendar of ECMAScript dates, on days and milliseconds since 1 January 1970 UTC. */
module Calendar {
  const MS_PER_MINUTE := 60_000
  const MS_PER_HOUR := 3_600_000
  const MS_PER_DAY := 86_400_000

  function Day(t: int): int { t / MS_PER_DAY }
  function Hour(t: int): int { t / MS_PER_HOUR % 24 }
  function Minute(t: int): int { t / MS_PER_MINUTE % 60 }
  function Weekday(day: int): int { (day + 4) % 7 }

  predicate Leap(y: int) { y % 4 == 0 && (y % 100 != 0 || y % 400 == 0) }

  function DayFromYear(y: int): int {
    365 * (y - 1970) + (y - 1969) / 4 - (y - 1901) / 100 + (y - 1601) / 400
  }

  /** Division with remainder, stated for a quotient and a remainder that are known. */
  lemma Divides(t: int, k: int, q: int, r: int)
    requires 0 <= r < k && t == k * q + r
    ensures t / k == q && t % k == r
  {
    var d := t / k - q;
    assert k * d == r - t % k;
    if d >= 1 {
      TimesAtLeast(k, d);
    } else if d <= -1 {
      TimesAtLeast(k, -d);
    }
  }

  lemma TimesAtLeast(k: int, d: int)
    requires k >= 0 && d >= 1
    ensures k * d >= k
  {
  }

  /** A quotient grows by one at the multiples of the divisor. */
  lemma QuotientStep(n: int, k: int)
    requires k >= 1
    ensures (n + 1) / k == n / k + (if (n + 1) % k == 0 then 1 else 0)
  {
    var q, r := n / k, n % k;
    if r + 1 == k {
      assert n + 1 == k * (q + 1) + 0 by {
        assert k * (q + 1) == k * q + k;
      }
      Divides(n + 1, k, q + 1, 0);
    } else {
      Divides(n + 1, k, q, r + 1);
    }
  }

  /** Leap years are counted by adding and taking away the multiples of 4, 100 and 400. */
  lemma LeapCount(y: int)
    ensures (if y % 4 == 0 then 1 else 0) - (if y % 100 == 0 then 1 else 0) + (if y % 400 == 0 then 1 else 0)
      == if Leap(y) then 1 else 0
  {
    if y % 400 == 0 {
      Divides(y, 100, 4 * (y / 400), 0);
    }
    if y % 100 == 0 {
      Divides(y, 4, 25 * (y / 100), 0);
    }
  }

  lemma YearLength(y: int)
    ensures DayFromYear(y + 1) == DayFromYear(y) + (if Leap(y) then 366 else 365)
  {
    hide Leap;
    QuotientStep(y - 1969, 4);
    QuotientStep(y - 1901, 100);
    QuotientStep(y - 1601, 400);
    Divides(y - 1968, 4, y / 4 - 492, y % 4);
    Divides(y - 1900, 100, y / 100 - 19, y % 100);
    Divides(y - 1600, 400, y / 400 - 4, y % 400);
    LeapCount(y);
  }

  /** The year of a day that is not before year y. */
  function YearFrom(y: int, day: int): (r: int)
    requires DayFromYear(y) <= day
    ensures DayFromYear(r) <= day < DayFromYear(r + 1)
    decreases day - DayFromYear(y)
  {
    YearLength(y);
    if day < DayFromYear(y + 1) then y else YearFrom(y + 1, day)
  }

  /** The year of a day that is before the end of year y. */
  function YearUpTo(y: int, day: int): (r: int)
    requires day < DayFromYear(y + 1)
    ensures DayFromYear(r) <= day < DayFromYear(r + 1)
    decreases DayFromYear(y + 1) - day
  {
    YearLength(y);
    if DayFromYear(y) <= day then y else YearUpTo(y - 1, day)
  }

  function Year(day: int): (r: int)
    ensures DayFromYear(r) <= day < DayFromYear(r + 1)
  {
    if DayFromYear(1970) <= day then YearFrom(1970, day) else YearUpTo(1969, day)
  }

  /** The days of a year before its month m; month 13 stands for the year after. */
  function DaysBefore(leap: bool, m: int): int
    requires 1 <= m <= 13
  {
    [0, 31, 59, 90, 120, 151, 181, 212, 243, 273, 304, 334, 365][m - 1] + (if leap && m > 2 then 1 else 0)
  }

  function DaysInMonth(leap: bool, m: int): int
    requires 1 <= m <= 12
  {
    DaysBefore(leap, m + 1) - DaysBefore(leap, m)
  }

  /** The month of the k-th day of a year, given that it is not before month m. */
  function MonthFrom(leap: bool, m: int, k: int): (r: int)
    requires 1 <= m <= 12 && DaysBefore(leap, m) <= k < DaysBefore(leap, 13)
    ensures m <= r <= 12 && DaysBefore(leap, r) <= k < DaysBefore(leap, r + 1)
    decreases 12 - m
  {
    if k < DaysBefore(leap, m + 1) then m else MonthFrom(leap, m + 1, k)
  }

  function Month(day: int): (r: int)
    ensures 1 <= r <= 12
  {
    hide DayFromYear;
    YearLength(Year(day));
    MonthFrom(Leap(Year(day)), 1, day - DayFromYear(Year(day)))
  }

  function DayOfMonth(day: int): (r: int)
    ensures 1 <= r <= DaysInMonth(Leap(Year(day)), Month(day))
  {
    YearLength(Year(day));
    day - DayFromYear(Year(day)) - DaysBefore(Leap(Year(day)), Month(day)) + 1
  }

  function DayOf(y: int, m: int, d: int): int
    requires 1 <= m <= 12
  {
    DayFromYear(y) + DaysBefore(Leap(y), m) + d - 1
  }

  lemma {:induction false} YearsInOrder(y: int, z: int)
    requires y <= z
    ensures DayFromYear(y) + 365 * (z - y) <= DayFromYear(z)
    decreases z - y
  {
    if y < z {
      YearLength(y);
      YearsInOrder(y + 1, z);
    }
  }

  lemma YearIs(day: int, y: int)
    requires DayFromYear(y) <= day < DayFromYear(y + 1)
    ensures Year(day) == y
  {
    hide DayFromYear;
    if Year(day) < y {
      YearsInOrder(Year(day) + 1, y);
    } else if y < Year(day) {
      YearsInOrder(y + 1, Year(day));
    }
  }

  lemma MonthsInOrder(leap: bool, m: int, n: int)
    requires 1 <= m < n <= 13
    ensures DaysBefore(leap, m) < DaysBefore(leap, n)
  {
  }

  /** A date has one day, and a day one date. */
  lemma DateOfDay(y: int, m: int, d: int)
    requires 1 <= m <= 12 && 1 <= d <= DaysInMonth(Leap(y), m)
    ensures var day := DayOf(y, m, d); Year(day) == y && Month(day) == m && DayOfMonth(day) == d
  {
    var day := DayOf(y, m, d);
    YearLength(y);
    if m < 12 {
      MonthsInOrder(Leap(y), m + 1, 13);
    }
    if 1 < m {
      MonthsInOrder(Leap(y), 1, m);
    }
    YearIs(day, y);
    if Month(day) < m {
      if Month(day) + 1 < m {
        MonthsInOrder(Leap(y), Month(day) + 1, m);
      }
    } else if m < Month(day) && m + 1 < Month(day) {
      MonthsInOrder(Leap(y), m + 1, Month(day));
    }
  }

  lemma DayOfDate(day: int)
    ensures day == DayOf(Year(day), Month(day), DayOfMonth(day))
  {
  }

  /** A date that every year has falls within the year, and at most 366 days after the year before. */
  lemma DateSpacing(y: int, m: int, d: int)
    requires 1 <= m <= 12 && 1 <= d <= DaysInMonth(false, m)
    ensures DayFromYear(y) <= DayOf(y, m, d) < DayFromYear(y + 1)
    ensures DayOf(y + 1, m, d) <= DayOf(y, m, d) + 366
    ensures d <= DaysInMonth(Leap(y), m)
  {
    hide DayFromYear;
    YearLength(y);
    if 1 < m {
      MonthsInOrder(Leap(y), 1, m);
    }
    if m < 12 {
      MonthsInOrder(Leap(y), m + 1, 13);
    }
  }

  /** A date that every year has comes again within 366 days. */
  lemma DateRecurs(after: int, m: int, d: int) returns (day: int)
    requires 1 <= m <= 12 && 1 <= d <= DaysInMonth(false, m)
    ensures after < day <= after + 366 && Month(day) == m && DayOfMonth(day) == d
  {
    hide DayFromYear, DayOf, Month, DayOfMonth, DaysBefore;
    var y := Year(after);
    DateSpacing(y, m, d);
    DateSpacing(y + 1, m, d);
    YearLength(y);
    if after < DayOf(y, m, d) {
      day := DayOf(y, m, d);
      DateOfDay(y, m, d);
    } else {
      day := DayOf(y + 1, m, d);
      DateOfDay(y + 1, m, d);
    }
  }

  /** 1 January 1970 was a Thursday, which is day four of a week that starts with Sunday. */
  lemma EpochIsThursday()
    ensures Year(0) == 1970 && Month(0) == 1 && DayOfMonth(0) == 1 && Weekday(0) == 4
  {
    hide Year, Month, DayOfMonth;
    assert DayOf(1970, 1, 1) == 0;
    DateOfDay(1970, 1, 1);
  }

  /** The weekday goes on by one each day, and from Saturday to Sunday. */
  lemma WeekdayGoesOn(day: int)
    ensures 0 <= Weekday(day) <= 6 && Weekday(day + 1) == if Weekday(day) == 6 then 0 else Weekday(day) + 1
  {
  }
}
