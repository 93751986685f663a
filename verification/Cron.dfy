/** Five-field cron schedules: the least matching minute after a time, and why the bounded search always finds it. */
module Cron {
  import opened Wrappers
  import opened Arithmetic
  import opened Calendar

  /** The allowed values of a field, and whether the field was anything narrower than `*`. */
  datatype FieldSpec = FieldSpec(values: set<int>, restricted: bool)

  datatype Schedule = Schedule(minute: FieldSpec, hour: FieldSpec, dom: FieldSpec, month: FieldSpec, dow: FieldSpec)

  const MINUTES_PER_DAY := 1440

  /** Minutes in about nine years. */
  const MAX_CRON_HORIZON := 9 * 366 * 24 * 60

  /**
    The union rule of crontab: two restricted day fields match when either does; otherwise only a restricted one gates.
  */
  predicate DayMatches(s: Schedule, day: int) {
    var domOk := DateOf(day).day in s.dom.values;
    var dowOk := Weekday(day) in s.dow.values;
    if s.dom.restricted && s.dow.restricted then domOk || dowOk
    else if s.dom.restricted then domOk
    else if s.dow.restricted then dowOk
    else true
  }

  predicate DateMatches(s: Schedule, day: int) {
    DateOf(day).month in s.month.values && DayMatches(s, day)
  }

  /** The schedule fires in minute `t`, counted from the start of day 0. */
  predicate Matches(s: Schedule, t: int) {
    && t % MINUTES_PER_DAY % 60 in s.minute.values
    && t % MINUTES_PER_DAY / 60 in s.hour.values
    && DateMatches(s, t / MINUTES_PER_DAY)
  }

  /**
    A schedule fires in the minutes whose minute, hour and month it allows, on the days that its day fields allow: both
    restricted, either will do; one restricted, that one decides; neither, every day.
  */
  lemma MatchesByFields(s: Schedule, t: int)
    ensures Matches(s, t) <==>
      && t % 60 in s.minute.values && t / 60 % 24 in s.hour.values && DateOf(t / 1440).month in s.month.values
      && (s.dom.restricted && s.dow.restricted ==>
            DateOf(t / 1440).day in s.dom.values || Weekday(t / 1440) in s.dow.values)
      && (s.dom.restricted && !s.dow.restricted ==> DateOf(t / 1440).day in s.dom.values)
      && (!s.dom.restricted && s.dow.restricted ==> Weekday(t / 1440) in s.dow.values)
  {
    hide DateOf, Weekday;
    var q, r := t / 1440, t % 1440;
    var h, m := r / 60, r % 60;
    assert t == (24 * q + h) * 60 + m;
    QuotientIs(t, 60, 24 * q + h, m);
    QuotientIs(24 * q + h, 24, q, h);
  }

  const NANOS_PER_MINUTE := 60_000_000_000

  /** The first whole minute strictly after an instant given in nanoseconds. */
  function FirstMinuteAfter(after: int): int {
    after / NANOS_PER_MINUTE + 1
  }

  // ---- Where the next matching day is ----

  lemma SameDate(year: int, month: int, day: int) returns (n: int)
    requires IsDate(Date(year, month, day))
    ensures DateOf(n) == Date(year, month, day)
    ensures n == YearStart(year) + MonthStart(year, month) + day - 1
    ensures YearStart(year) <= n < YearStart(year + 1)
  {
    n := DayNumber(Date(year, month, day));
    DateOfDayNumber(Date(year, month, day));
    MonthsInYear(Date(year, month, day));
    YearLength(year);
  }

  /** Any month has a day of any weekday. */
  lemma WeekdayInMonth(year: int, month: int, weekday: int) returns (n: int)
    requires 1 <= month <= 12 && 0 <= weekday <= 6
    ensures Weekday(n) == weekday && DateOf(n).month == month
    ensures YearStart(year) <= n < YearStart(year + 1)
  {
    hide YearStart, MonthStart, DateOf, Weekday;
    var first := SameDate(year, month, 1);
    var offset := ShiftWeekday(first, weekday);
    n := SameDate(year, month, 1 + offset);
  }

  lemma ShiftWeekday(first: int, weekday: int) returns (offset: int)
    requires 0 <= weekday <= 6
    ensures 0 <= offset <= 6 && Weekday(first + offset) == weekday
  {
    var d := weekday - Weekday(first);
    offset := if d >= 0 then d else d + 7;
    var q := (first + 1) / 7;
    QuotientIs(first + offset + 1, 7, if d >= 0 then q else q + 1, weekday);
  }

  /** A calendar date other than Feb 29 exists in every year; Feb 29 within eight years of any year. */
  lemma DateAgain(year: int, x: Date) returns (n: int)
    requires IsDate(x)
    ensures DateOf(n).month == x.month && DateOf(n).day == x.day
    ensures YearStart(year + 1) <= n < YearStart(year + 9)
  {
    var y := year + 1;
    if x.month == 2 && x.day == 29 {
      y := LeapWithinEight(year);
    }
    n := SameDate(y, x.month, x.day);
    YearsRise(year + 1, y);
    YearsRise(y + 1, year + 9);
  }

  /** If a schedule matches any day of the calendar, it matches one within nine years after any given day. */
  lemma MatchingDayAhead(s: Schedule, some: int, from: int) returns (n: int)
    requires DateMatches(s, some)
    ensures DateMatches(s, n) && from < n < from + 9 * 366
  {
    hide YearStart;
    var year := YearOf(from);
    if s.dow.restricted && Weekday(some) in s.dow.values {
      n := WeekdayInMonth(year + 1, DateOf(some).month, Weekday(some));
      YearsRise(year + 2, year + 9);
    } else {
      n := DateAgain(year, DateOf(some));
    }
    YearsRise(year, year + 9);
  }

  // ---- The search ----

  lemma SplitMinute(day: int, minuteOfDay: int)
    requires 0 <= minuteOfDay < MINUTES_PER_DAY
    ensures var t := day * MINUTES_PER_DAY + minuteOfDay;
            t / MINUTES_PER_DAY == day && t % MINUTES_PER_DAY == minuteOfDay
  {
    QuotientIs(day * MINUTES_PER_DAY + minuteOfDay, MINUTES_PER_DAY, day, minuteOfDay);
  }

  /** The horizon is wide enough: a schedule some real minute satisfies fires within it, wherever the search starts. */
  lemma FiresWithinHorizon(s: Schedule, some: int, from: int) returns (t: int)
    requires Matches(s, some)
    ensures Matches(s, t) && from <= t < from + MAX_CRON_HORIZON
  {
    hide DateMatches;
    var n := MatchingDayAhead(s, some / MINUTES_PER_DAY, from / MINUTES_PER_DAY);
    t := n * MINUTES_PER_DAY + some % MINUTES_PER_DAY;
    SplitMinute(n, some % MINUTES_PER_DAY);
    assert from == from / MINUTES_PER_DAY * MINUTES_PER_DAY + from % MINUTES_PER_DAY;
  }

  /** The first matching minute among `n` from `t` on. */
  function FirstMatch(s: Schedule, t: int, n: nat): Option<int>
    decreases n
  {
    if n == 0 then None else if Matches(s, t) then Some(t) else FirstMatch(s, t + 1, n - 1)
  }

  function NextFire(s: Schedule, after: int): Option<int> {
    match FirstMatch(s, FirstMinuteAfter(after), MAX_CRON_HORIZON)
    case Some(t) => Some(t * NANOS_PER_MINUTE)
    case None => None
  }

  /**
    The next fire is the least matching minute strictly after `after`; there is none only if no minute ever matches.
  */
  lemma NextFireIsLeast(s: Schedule, after: int)
    ensures var r := NextFire(s, after);
            && (r == None <==> forall t :: !Matches(s, t))
            && (r.Some? ==>
                  r.value % NANOS_PER_MINUTE == 0 && r.value > after && Matches(s, r.value / NANOS_PER_MINUTE))
            && (r.Some? ==>
                  forall t :: t * NANOS_PER_MINUTE > after && Matches(s, t) ==> t * NANOS_PER_MINUTE >= r.value)
  {
    hide Matches;
    var from := FirstMinuteAfter(after);
    FirstMatchIsLeast(s, from, MAX_CRON_HORIZON);
    match FirstMatch(s, from, MAX_CRON_HORIZON)
    case Some(t) =>
      SplitNanos(t);
      WholeMinutes(after, t);
      forall u | u * NANOS_PER_MINUTE > after && Matches(s, u) ensures u * NANOS_PER_MINUTE >= t * NANOS_PER_MINUTE {
        WholeMinutes(after, u);
      }
    case None =>
      forall u ensures !Matches(s, u) {
        if Matches(s, u) {
          var v := FiresWithinHorizon(s, u, from);
        }
      }
  }

  lemma {:induction false} FirstMatchIsLeast(s: Schedule, t: int, n: nat)
    ensures var r := FirstMatch(s, t, n);
            if r.Some?
            then t <= r.value < t + n && Matches(s, r.value) && forall u :: t <= u < r.value ==> !Matches(s, u)
            else forall u :: t <= u < t + n ==> !Matches(s, u)
    decreases n
  {
    hide Matches;
    if n > 0 && !Matches(s, t) { FirstMatchIsLeast(s, t + 1, n - 1); }
  }

  /**
    The least matching minute strictly after `after`, in nanoseconds; no fire is reported only of a schedule that no
    minute of the calendar satisfies.
  */
  method Next(s: Schedule, after: int) returns (r: Option<int>)
    ensures r.Some? ==> r.value % NANOS_PER_MINUTE == 0 && r.value > after && Matches(s, r.value / NANOS_PER_MINUTE)
    ensures r.Some? ==> forall t :: t * NANOS_PER_MINUTE > after && Matches(s, t) ==> t * NANOS_PER_MINUTE >= r.value
    ensures r == None <==> forall t :: !Matches(s, t)
    ensures r == NextFire(s, after)
    ensures r.Some? ==>
      var t := r.value / NANOS_PER_MINUTE;
      && t % 60 in s.minute.values && t / 60 % 24 in s.hour.values && DateOf(t / 1440).month in s.month.values
      && (s.dom.restricted && s.dow.restricted ==>
            DateOf(t / 1440).day in s.dom.values || Weekday(t / 1440) in s.dow.values)
      && (s.dom.restricted && !s.dow.restricted ==> DateOf(t / 1440).day in s.dom.values)
      && (!s.dom.restricted && s.dow.restricted ==> Weekday(t / 1440) in s.dow.values)
  {
    hide Matches, DateOf, Weekday;
    NextFireIsLeast(s, after);
    if NextFire(s, after).Some? { MatchesByFields(s, NextFire(s, after).value / NANOS_PER_MINUTE); }
    var t := FirstMinuteAfter(after);
    for i := 0 to MAX_CRON_HORIZON
      invariant t == FirstMinuteAfter(after) + i
      invariant FirstMatch(s, FirstMinuteAfter(after), MAX_CRON_HORIZON) == FirstMatch(s, t, MAX_CRON_HORIZON - i)
    {
      if MatchesAt(s, t) {
        return Some(t * NANOS_PER_MINUTE);
      }
      t := t + 1;
    }
    return None;
  }

  predicate MatchesAt(s: Schedule, t: int)
    ensures MatchesAt(s, t) <==> Matches(s, t)
  {
    var minuteOfDay := t % MINUTES_PER_DAY;
    var date := DateOf(t / MINUTES_PER_DAY);
    && minuteOfDay % 60 in s.minute.values && minuteOfDay / 60 in s.hour.values && date.month in s.month.values
    && DayMatches(s, t / MINUTES_PER_DAY)
  }

  lemma SplitNanos(t: int)
    ensures t * NANOS_PER_MINUTE % NANOS_PER_MINUTE == 0 && t * NANOS_PER_MINUTE / NANOS_PER_MINUTE == t
  {
    QuotientIs(t * NANOS_PER_MINUTE, NANOS_PER_MINUTE, t, 0);
  }

  lemma WholeMinutes(after: int, u: int)
    ensures u * NANOS_PER_MINUTE > after <==> u >= FirstMinuteAfter(after)
  {
    var q := after / NANOS_PER_MINUTE;
    assert after == q * NANOS_PER_MINUTE + after % NANOS_PER_MINUTE;
  }
}
