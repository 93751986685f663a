/** The proleptic Gregorian calendar, with the leap rule of RFC 3339, Appendix C; day 0 is 0001-01-01, a Monday. */
module Calendar {
  import opened Arithmetic

  predicate IsLeap(y: int) {
    y % 4 == 0 && (y % 100 != 0 || y % 400 == 0)
  }

  function DaysIn(y: int, m: int): int {
    if m == 2 then (if IsLeap(y) then 29 else 28)
    else if m == 4 || m == 6 || m == 9 || m == 11 then 30
    else 31
  }

  function YearStart(y: int): int {
    365 * (y - 1) + (y - 1) / 4 - (y - 1) / 100 + (y - 1) / 400
  }

  /** Days of year `y` before month `m`. */
  function MonthStart(y: int, m: int): int
    requires 1 <= m <= 13
    decreases m
  {
    if m == 1 then 0 else MonthStart(y, m - 1) + DaysIn(y, m - 1)
  }

  datatype Date = Date(year: int, month: int, day: int)

  predicate IsDate(x: Date) {
    1 <= x.month <= 12 && 1 <= x.day <= DaysIn(x.year, x.month)
  }

  function DayNumber(x: Date): int
    requires IsDate(x)
  {
    YearStart(x.year) + MonthStart(x.year, x.month) + x.day - 1
  }

  const CYCLE := 146097

  lemma DivideNext(a: int, k: int)
    requires k > 0
    ensures (a + 1) / k == a / k + if (a + 1) % k == 0 then 1 else 0
  {
    var q, r := a / k, a % k;
    assert a == q * k + r;
    if r + 1 == k {
      QuotientIs(a + 1, k, q + 1, 0);
    } else {
      QuotientIs(a + 1, k, q, r + 1);
    }
  }

  lemma Nested(y: int)
    ensures y % 400 == 0 ==> y % 100 == 0
    ensures y % 100 == 0 ==> y % 4 == 0
  {
  }

  lemma YearLength(y: int)
    ensures YearStart(y + 1) - YearStart(y) == (if IsLeap(y) then 366 else 365) == MonthStart(y, 13)
  {
    DivideNext(y - 1, 4);
    DivideNext(y - 1, 100);
    DivideNext(y - 1, 400);
    Nested(y);
    MonthsSum(y);
  }

  lemma MonthsSum(y: int)
    ensures MonthStart(y, 13) == 337 + DaysIn(y, 2)
  {
    assert MonthStart(y, 3) == 31 + DaysIn(y, 2);
    assert MonthStart(y, 5) == MonthStart(y, 3) + 61;
    assert MonthStart(y, 7) == MonthStart(y, 5) + 61;
    assert MonthStart(y, 9) == MonthStart(y, 7) + 62;
    assert MonthStart(y, 11) == MonthStart(y, 9) + 61;
    assert MonthStart(y, 13) == MonthStart(y, 11) + 61;
  }

  lemma CycleStart(c: int)
    ensures YearStart(400 * c + 1) == CYCLE * c
  {
    QuotientIs(400 * c, 4, 100 * c, 0);
    QuotientIs(400 * c, 100, 4 * c, 0);
    QuotientIs(400 * c, 400, c, 0);
  }

  /** The year of a day, searched upwards from year `y`. */
  function YearFrom(y: int, day: int): (r: int)
    requires YearStart(y) <= day
    ensures YearStart(r) <= day < YearStart(r + 1)
    decreases day - YearStart(y)
  {
    YearLength(y);
    if day < YearStart(y + 1) then y else YearFrom(y + 1, day)
  }

  function YearOf(day: int): (r: int)
    ensures YearStart(r) <= day < YearStart(r + 1)
  {
    CycleStart(day / CYCLE);
    YearFrom(400 * (day / CYCLE) + 1, day)
  }

  function MonthFrom(y: int, m: int, yday: int): (r: int)
    requires 1 <= m <= 12 && MonthStart(y, m) <= yday < MonthStart(y, 13)
    ensures m <= r <= 12 && MonthStart(y, r) <= yday < MonthStart(y, r + 1)
    decreases 13 - m
  {
    if yday < MonthStart(y, m + 1) then m else MonthFrom(y, m + 1, yday)
  }

  function DateOf(day: int): (r: Date)
    ensures IsDate(r)
  {
    var y := YearOf(day);
    YearLength(y);
    var m := MonthFrom(y, 1, day - YearStart(y));
    Date(y, m, day - YearStart(y) - MonthStart(y, m) + 1)
  }

  function Weekday(day: int): int { (day + 1) % 7 }

  lemma {:induction false} YearsRise(a: int, b: int)
    requires a <= b
    ensures YearStart(a) + 365 * (b - a) <= YearStart(b) <= YearStart(a) + 366 * (b - a)
    decreases b - a
  {
    if a < b {
      YearLength(b - 1);
      YearsRise(a, b - 1);
    }
  }

  lemma {:induction false} MonthsRise(y: int, a: int, b: int)
    requires 1 <= a < b <= 13
    ensures MonthStart(y, a) + DaysIn(y, a) <= MonthStart(y, b)
    decreases b - a
  {
    if a + 1 < b { MonthsRise(y, a, b - 1); }
  }

  lemma SameYear(y: int, x: int, day: int)
    requires YearStart(y) <= day < YearStart(y + 1) && YearStart(x) <= day < YearStart(x + 1)
    ensures y == x
  {
    hide YearStart;
    if y < x { YearsRise(y + 1, x); }
    if y > x { YearsRise(x + 1, y); }
  }

  lemma SameMonth(y: int, m: int, x: int, yday: int)
    requires 1 <= m <= 12 && 1 <= x <= 12
    requires MonthStart(y, m) <= yday < MonthStart(y, m + 1) && MonthStart(y, x) <= yday < MonthStart(y, x + 1)
    ensures m == x
  {
    if m < x { MonthsRise(y, m, x); }
    if m > x { MonthsRise(y, x, m); }
  }

  /** Day numbers and dates are the same thing told twice. */
  lemma DateOfDayNumber(x: Date)
    requires IsDate(x)
    ensures DateOf(DayNumber(x)) == x
  {
    hide YearStart, DaysIn;
    var day := DayNumber(x);
    YearLength(x.year);
    MonthsInYear(x);
    SameYear(YearOf(day), x.year, day);
    SameMonth(x.year, DateOf(day).month, x.month, day - YearStart(x.year));
  }

  lemma MonthsInYear(x: Date)
    requires IsDate(x)
    ensures 0 <= MonthStart(x.year, x.month) && MonthStart(x.year, x.month) + x.day <= MonthStart(x.year, 13)
  {
    MonthsRise(x.year, x.month, 13);
    if x.month > 1 { MonthsRise(x.year, 1, x.month); }
  }

  lemma DayNumberOfDate(day: int)
    ensures DayNumber(DateOf(day)) == day
  {
  }

  /**
    The day after is the next of the month, or the first of the next month: months have 31 days but for April, June,
    September and November with 30, and February with 29 in years divisible by 4 and, of the centuries, by 400.
  */
  lemma NextDay(day: int)
    ensures var x := DateOf(day);
            var last := if x.month in {4, 6, 9, 11} then 30
                        else if x.month != 2 then 31
                        else if x.year % 400 == 0 || (x.year % 4 == 0 && x.year % 100 != 0) then 29 else 28;
            && 1 <= x.month <= 12 && 1 <= x.day <= last
            && DateOf(day + 1) == if x.day < last then Date(x.year, x.month, x.day + 1)
                                  else if x.month < 12 then Date(x.year, x.month + 1, 1)
                                  else Date(x.year + 1, 1, 1)
    ensures Weekday(day + 1) == (Weekday(day) + 1) % 7
  {
    hide *;
    var x := DateOf(day);
    DayNumberOfDate(day);
    MonthLength(x);
    var next := if x.day < DaysIn(x.year, x.month) then Date(x.year, x.month, x.day + 1)
                else if x.month < 12 then Date(x.year, x.month + 1, 1)
                else Date(x.year + 1, 1, 1);
    NextNumber(x, next);
    DateOfDayNumber(next);
    NextWeekday(day);
  }

  lemma MonthLength(x: Date)
    requires IsDate(x)
    ensures 1 <= x.month <= 12 && 1 <= x.day <= DaysIn(x.year, x.month)
    ensures DaysIn(x.year, x.month) ==
      if x.month in {4, 6, 9, 11} then 30
      else if x.month != 2 then 31
      else if x.year % 400 == 0 || (x.year % 4 == 0 && x.year % 100 != 0) then 29 else 28
  {
    Nested(x.year);
  }

  lemma NextNumber(x: Date, next: Date)
    requires IsDate(x)
    requires next == if x.day < DaysIn(x.year, x.month) then Date(x.year, x.month, x.day + 1)
                     else if x.month < 12 then Date(x.year, x.month + 1, 1)
                     else Date(x.year + 1, 1, 1)
    ensures IsDate(next) && DayNumber(next) == DayNumber(x) + 1
  {
    hide YearStart;
    YearLength(x.year);
    if x.month == 12 { assert MonthStart(x.year, 13) == MonthStart(x.year, 12) + DaysIn(x.year, 12); }
  }

  lemma NextWeekday(day: int)
    ensures Weekday(day + 1) == (Weekday(day) + 1) % 7
  {
    var q, r := (day + 1) / 7, (day + 1) % 7;
    assert day + 1 == q * 7 + r;
    if r == 6 { QuotientIs(day + 2, 7, q + 1, 0); } else { QuotientIs(day + 2, 7, q, r + 1); }
  }

  const EPOCH_DAY := 719162

  /** 1970-01-01 was a Thursday, day 4 of a week that begins on Sunday. */
  lemma EpochIsThursday()
    ensures DateOf(EPOCH_DAY) == Date(1970, 1, 1) && Weekday(EPOCH_DAY) == 4
  {
    hide DateOf;
    assert MonthStart(1970, 1) == 0;
    DateOfDayNumber(Date(1970, 1, 1));
  }

  /** Two leap years are never more than eight years apart, even across a century that is none. */
  lemma LeapWithinEight(y: int) returns (leap: int)
    ensures y < leap <= y + 8 && IsLeap(leap)
  {
    leap := y + 4 - y % 4;
    if !IsLeap(leap) {
      leap := leap + 4;
    }
  }
}
