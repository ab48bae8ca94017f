/** The cron search of agent/internal/collector/snapshot.go: `dayMatches` and the loop of
`nextCronRun`, proved equal to a minute-by-minute search, and the exact condition under which
a parsed schedule runs within the one-year window.
*/
module CronSchedule {
  import opened Calendar
  import opened Options

  datatype Schedule = Schedule(
    minutes: set<int>, hours: set<int>, daysOfMonth: set<int>, months: set<int>, daysOfWeek: set<int>,
    dayOfMonthWildcard: bool, dayOfWeekWildcard: bool)
  {
    predicate DayMatches(at: int) {
      var dayOfMonthMatches := Day(at) in daysOfMonth;
      var dayOfWeekMatches := Weekday(at) in daysOfWeek;
      if !dayOfMonthWildcard && !dayOfWeekWildcard then dayOfMonthMatches || dayOfWeekMatches
      else dayOfMonthMatches && dayOfWeekMatches
    }

    /** The schedule names the minute `at`. */
    predicate Matches(at: int) {
      Month(at) in months && DayMatches(at) && Hour(at) in hours && Minute(at) in minutes
    }

    function Test(): int -> bool { at => Matches(at) }
  }

  /** What parsing a schedule guarantees of the sets it builds. */
  ghost predicate Parsed(s: Schedule) {
    && (exists x :: 0 <= x < 60 && x in s.minutes)
    && (exists x :: 0 <= x < 24 && x in s.hours)
    && (exists x :: 1 <= x <= 12 && x in s.months)
    && (exists x :: 0 <= x < 7 && x in s.daysOfWeek)
    && (s.dayOfMonthWildcard ==> forall x :: 1 <= x <= 31 ==> x in s.daysOfMonth)
    && (s.dayOfWeekWildcard ==> forall x :: 0 <= x < 7 ==> x in s.daysOfWeek)
  }

  /** The first minute strictly after an instant given in nanoseconds. */
  function MinuteAfter(nanoseconds: int): int { nanoseconds / 60_000_000_000 + 1 }

  // ----- weekdays -----

  /** Sunday may be written 7. */
  function Weekdays(numbers: set<int>): set<int> {
    (numbers - {7}) + (if 7 in numbers then {0} else {})
  }

  method SundayFromSeven(numbers: set<int>) returns (daysOfWeek: set<int>)
    ensures daysOfWeek == Weekdays(numbers)
  {
    daysOfWeek := {};
    var left := numbers;
    while left != {}
      invariant left <= numbers
      invariant daysOfWeek == Weekdays(numbers - left)
    {
      assert (forall d :: d !in left) ==> left == {};
      var day :| day in left;
      daysOfWeek := daysOfWeek + {if day == 7 then 0 else day};
      left := left - {day};
    }
    assert numbers - left == numbers;
  }

  /** 7 and 0 are the same weekday. */
  lemma SundayIsZeroOrSeven(others: set<int>)
    ensures Weekdays(others + {7}) == Weekdays(others + {0}) == Weekdays(others + {0, 7})
  {
  }

  // ----- the search -----

  /** The reference: try every minute in turn. */
  function EveryMinute(matches: int -> bool, from: int, limit: int): (r: Option<int>)
    decreases limit - from
  {
    if from > limit then None
    else if matches(from) then Some(from)
    else EveryMinute(matches, from + 1, limit)
  }

  lemma {:induction false} EveryMinuteIsEarliest(matches: int -> bool, from: int, limit: int)
    ensures var r := EveryMinute(matches, from, limit);
            && (r.Some? ==> from <= r.value <= limit && matches(r.value))
            && (forall u :: from <= u <= limit && (r.Some? ==> u < r.value) ==> !matches(u))
    decreases limit - from
  {
    if from <= limit && !matches(from) {
      EveryMinuteIsEarliest(matches, from + 1, limit);
    }
  }

  /** Skipping minutes that do not match does not change the answer. */
  lemma {:induction false} SkipUnmatched(matches: int -> bool, from: int, next: int, limit: int)
    requires from <= next
    requires forall u :: from <= u < next && u <= limit ==> !matches(u)
    ensures EveryMinute(matches, from, limit) == EveryMinute(matches, next, limit)
    decreases next - from
  {
    if from < next && from <= limit {
      SkipUnmatched(matches, from + 1, next, limit);
    }
  }

  method Search(s: Schedule, after: int) returns (r: Option<int>)
    ensures r == EveryMinute(s.Test(), MinuteAfter(after), AddYear(MinuteAfter(after)))
  {
    hide MinuteAfter, AddYear, Date, Year, Month, Day, Hour, Minute, Weekday, Schedule.DayMatches;
    var cursor := MinuteAfter(after);
    var limit := AddYear(cursor);
    while cursor <= limit
      invariant EveryMinute(s.Test(), cursor, limit) == EveryMinute(s.Test(), MinuteAfter(after), limit)
      decreases limit - cursor
    {
      ghost var from := cursor;
      if Month(cursor) !in s.months {
        cursor := Date(Year(cursor), Month(cursor) + 1, 1, 0, 0);
        MonthSkip(s, from);
      } else if !s.DayMatches(cursor) {
        cursor := Date(Year(cursor), Month(cursor), Day(cursor) + 1, 0, 0);
        DaySkip(s, from);
      } else if Hour(cursor) !in s.hours {
        cursor := (cursor + 60) / 60 * 60;
        HourSkip(s, from);
      } else if Minute(cursor) in s.minutes {
        return Some(cursor);
      } else {
        cursor := cursor + 1;
      }
      SkipUnmatched(s.Test(), from, cursor, limit);
    }
    return None;
  }

  lemma MonthSkip(s: Schedule, t: int)
    requires Month(t) !in s.months
    ensures var next := Date(Year(t), Month(t) + 1, 1, 0, 0);
            t < next && forall u :: t <= u < next ==> !s.Test()(u)
  {
    hide Date, Year, Month, Day, Hour, Minute, Weekday;
    MonthJump(t);
  }

  lemma DaySkip(s: Schedule, t: int)
    requires !s.DayMatches(t)
    ensures var next := Date(Year(t), Month(t), Day(t) + 1, 0, 0);
            t < next && forall u :: t <= u < next ==> !s.Test()(u)
  {
    hide Date, Year, Month, Day, Hour, Minute, Weekday;
    DayJump(t);
  }

  lemma HourSkip(s: Schedule, t: int)
    requires Hour(t) !in s.hours
    ensures var next := (t + 60) / 60 * 60;
            t < next && forall u :: t <= u < next ==> !s.Test()(u)
  {
    hide Date, Year, Month, Day, Hour, Minute, Weekday;
    HourJump(t);
  }

  /** Everything before the first of the next month lies in the cursor's month. */
  lemma MonthJump(t: int)
    ensures var next := Date(Year(t), Month(t) + 1, 1, 0, 0);
            t < next && forall u :: t <= u < next ==> Month(u) == Month(t)
  {
    hide Date, Year, Month, DaysBeforeYear, DaysBeforeMonth, DaysInMonth, DayNumber, Instant, Hour, Minute;
    var y, m := Year(t), Month(t);
    FieldRanges(t);
    MonthStart(y, m);
    MonthWithinYear(y, m);
    var n := DaysBeforeYear(y) + DaysBeforeMonth(y, m + 1);
    Before(t, n);
    forall u | t <= u < Instant(n, 0, 0) ensures Month(u) == m {
      Before(u, n);
      DaysInOrder(t, u);
      MonthUnique(u, y, m);
    }
  }

  lemma Before(t: int, n: int)
    ensures t < Instant(n, 0, 0) <==> DayNumber(t) < n
  {
  }

  lemma DaysInOrder(t: int, u: int)
    requires t <= u
    ensures DayNumber(t) <= DayNumber(u)
  {
  }

  /** Everything before the next midnight lies on the cursor's day. */
  lemma DayJump(t: int)
    ensures var next := Date(Year(t), Month(t), Day(t) + 1, 0, 0);
            t < next && forall u :: t <= u < next ==>
                                      Month(u) == Month(t) && Day(u) == Day(t) && Weekday(u) == Weekday(t)
  {
    hide Date, Year, Month, Weekday, DaysBeforeYear, DaysBeforeMonth, DayNumber, Instant, Hour, Minute;
    var n := DayNumber(t) + 1;
    DateUnnormalised(Year(t), Month(t), Day(t) + 1, 0, 0);
    assert Date(Year(t), Month(t), Day(t) + 1, 0, 0) == Instant(n, 0, 0);
    hide Day;
    Before(t, n);
    forall u | t <= u < Instant(n, 0, 0)
      ensures Month(u) == Month(t) && Day(u) == Day(t) && Weekday(u) == Weekday(t)
    {
      Before(u, n);
      DaysInOrder(t, u);
      SameDay(t, u);
    }
  }

  lemma SameDay(t: int, u: int)
    requires DayNumber(t) == DayNumber(u)
    ensures Month(u) == Month(t) && Day(u) == Day(t) && Weekday(u) == Weekday(t)
  {
    hide DaysBeforeYear, DaysBeforeMonth, DayNumber;
  }

  /** Everything before the next full hour lies in the cursor's hour. */
  lemma HourJump(t: int)
    ensures var next := (t + 60) / 60 * 60;
            t < next && forall u :: t <= u < next ==> Hour(u) == Hour(t)
  {
    HourOfCount(t);
    forall u | t <= u < (t + 60) / 60 * 60 ensures Hour(u) == Hour(t) {
      HourOfCount(u);
      assert u / 60 == t / 60;
    }
  }

  lemma HourOfCount(t: int)
    ensures Hour(t) == t / 60 % 24
  {
    assert t == MINUTES_PER_DAY * DayNumber(t) + 60 * Hour(t) + t % MINUTES_PER_DAY % 60;
    assert t / 60 == 24 * DayNumber(t) + Hour(t);
  }

  // ----- when a run exists -----

  /** Some pair of an allowed month and day exists in every year, or the weekday decides. */
  ghost predicate RunsEveryYear(s: Schedule) {
    !s.dayOfWeekWildcard
    || exists m, d :: m in s.months && d in s.daysOfMonth && 1 <= m <= 12 && 1 <= d <= DaysInMonth(1, m)
  }

  /** 29 February is allowed and one of its minutes lies in the window that starts at `from`. */
  ghost predicate RunsOnLeapDay(s: Schedule, from: int) {
    && 2 in s.months && 29 in s.daysOfMonth
    && exists h, mi :: h in s.hours && mi in s.minutes && 0 <= h < 24 && 0 <= mi < 60
         && ((IsLeap(Year(from)) && from <= Date(Year(from), 2, 29, h, mi))
             || (IsLeap(Year(from) + 1) && Date(Year(from) + 1, 2, 29, h, mi) <= AddYear(from)))
  }

  ghost predicate Within(from: int, t: int) { from <= t <= AddYear(from) }

  lemma EarlierDate(y: int, m: int, d: int, h: int, mi: int, z: int, k: int, e: int, g: int, mj: int)
    requires ValidDate(y, m, d) && 1 <= k <= 12 && 1 <= e
    requires y < z || (y == z && (m < k || (m == k && d < e)))
    requires 0 <= h < 24 && 0 <= mi < 60 && 0 <= g < 24 && 0 <= mj < 60
    ensures Date(y, m, d, h, mi) < Date(z, k, e, g, mj)
  {
    hide DaysBeforeMonth, DaysBeforeYear, DaysInMonth, Date;
    DateOrder(y, m, d, z, k, e);
    DateUnnormalised(y, m, d, h, mi);
    DateUnnormalised(z, k, e, g, mj);
  }

  /** A date later in the starting year, or earlier in the next one, lies in the window. */
  lemma InWindow(from: int, z: int, m: int, d: int, h: int, mi: int)
    requires ValidDate(z, m, d) && 0 <= h < 24 && 0 <= mi < 60
    requires var y, k, e := Year(from), Month(from), Day(from);
             || (z == y && (m > k || (m == k && d > e)))
             || (z == y + 1 && (m < k || (m == k && d < e)))
    ensures Within(from, Date(z, m, d, h, mi))
  {
    hide Date, Year, Month, Day, Hour, Minute, Weekday, DaysBeforeMonth, DaysBeforeYear, DaysInMonth;
    var y, k, e, g, mj := Year(from), Month(from), Day(from), Hour(from), Minute(from);
    FieldRanges(from);
    DateOfFields(from);
    EarlierDate(z, m, d, h, mi, y + 1, k, e, g, mj);
    EarlierDate(y, k, e, g, mj, z, m, d, h, mi);
  }

  /** Seven consecutive days of one month, inside the window. */
  lemma WeekInWindow(from: int, m: int) returns (z: int, e: int)
    requires 1 <= m <= 12
    ensures 1 <= e <= 8
    ensures forall d, h, mi :: e <= d < e + 7 && 0 <= h < 24 && 0 <= mi < 60 ==>
                                 Within(from, Date(z, m, d, h, mi))
  {
    hide Date, Year, Month, Day, Hour, Minute, Weekday, AddYear, DaysBeforeMonth, DaysBeforeYear;
    FieldRanges(from);
    var laterThisYear := m > Month(from) || (m == Month(from) && Day(from) <= 7);
    z := if laterThisYear then Year(from) else Year(from) + 1;
    e := if m == Month(from) && laterThisYear then Day(from) + 1 else 1;
    forall d, h, mi | e <= d < e + 7 && 0 <= h < 24 && 0 <= mi < 60
      ensures Within(from, Date(z, m, d, h, mi))
    {
      InWindow(from, z, m, d, h, mi);
    }
  }

  lemma WeekdayRun(s: Schedule, from: int) returns (t: int)
    requires Parsed(s) && !s.dayOfWeekWildcard
    ensures Within(from, t) && s.Matches(t)
  {
    hide Date, Year, Month, Day, Hour, Minute, DaysBeforeMonth, DaysBeforeYear;
    var mi :| 0 <= mi < 60 && mi in s.minutes;
    var h :| 0 <= h < 24 && h in s.hours;
    var m :| 1 <= m <= 12 && m in s.months;
    var w :| 0 <= w < 7 && w in s.daysOfWeek;
    var z, e := WeekInWindow(from, m);
    FieldsOfDate(z, m, e, h, mi);
    var j := (w - DayNumber(Date(z, m, e, h, mi)) - 1) % 7;
    t := Date(z, m, e + j, h, mi);
    FieldsOfDate(z, m, e + j, h, mi);
    assert Weekday(t) == w;
  }

  lemma DateRun(s: Schedule, from: int, m: int, d: int) returns (t: int)
    requires Parsed(s) && s.dayOfWeekWildcard
    requires m in s.months && d in s.daysOfMonth && 1 <= m <= 12 && 1 <= d <= DaysInMonth(1, m)
    ensures Within(from, t) && s.Matches(t)
  {
    hide Date, Year, Month, Day, Hour, Minute, DaysBeforeMonth, DaysBeforeYear;
    var mi :| 0 <= mi < 60 && mi in s.minutes;
    var h :| 0 <= h < 24 && h in s.hours;
    FieldRanges(from);
    DateOfFields(from);
    var y, k, e := Year(from), Month(from), Day(from);
    var sameDay := m == k && d == e;
    var laterThisYear := m > k || (m == k && d > e)
                         || (sameDay && Instant(0, Hour(from), Minute(from)) <= Instant(0, h, mi));
    var z := if laterThisYear then y else y + 1;
    assert ValidDate(z, m, d);
    t := Date(z, m, d, h, mi);
    FieldsOfDate(z, m, d, h, mi);
    if sameDay {
      DateUnnormalised(z, m, d, h, mi);
      SameDayRun(from, z, h, mi);
    } else {
      InWindow(from, z, m, d, h, mi);
    }
  }

  lemma SameDayRun(from: int, z: int, h: int, mi: int)
    requires 0 <= h < 24 && 0 <= mi < 60
    requires z == if Instant(0, Hour(from), Minute(from)) <= Instant(0, h, mi) then Year(from) else Year(from) + 1
    requires ValidDate(z, Month(from), Day(from))
    ensures Within(from, Date(z, Month(from), Day(from), h, mi))
  {
    hide Date, Year, Month, Day, Hour, Minute, Weekday, DaysBeforeMonth, DaysBeforeYear, DaysInMonth;
    FieldRanges(from);
    var y, k, e, g, mj := Year(from), Month(from), Day(from), Hour(from), Minute(from);
    DateOfFields(from);
    DateUnnormalised(z, k, e, h, mi);
    DateUnnormalised(z, k, e, g, mj);
    if z == y {
      EarlierDate(z, k, e, h, mi, y + 1, k, e, g, mj);
    } else {
      EarlierDate(y, k, e, g, mj, z, k, e, h, mi);
    }
  }

  lemma LeapDayRun(s: Schedule, from: int) returns (t: int)
    requires Parsed(s) && s.dayOfWeekWildcard && RunsOnLeapDay(s, from)
    ensures Within(from, t) && s.Matches(t)
  {
    hide Date, Year, Month, Day, Hour, Minute, DaysBeforeMonth, DaysBeforeYear;
    var h, mi :| h in s.hours && mi in s.minutes && 0 <= h < 24 && 0 <= mi < 60
      && ((IsLeap(Year(from)) && from <= Date(Year(from), 2, 29, h, mi))
          || (IsLeap(Year(from) + 1) && Date(Year(from) + 1, 2, 29, h, mi) <= AddYear(from)));
    FieldRanges(from);
    DateOfFields(from);
    var y, k, e, g, mj := Year(from), Month(from), Day(from), Hour(from), Minute(from);
    var z := if IsLeap(y) && from <= Date(y, 2, 29, h, mi) then y else y + 1;
    assert ValidDate(z, 2, 29);
    t := Date(z, 2, 29, h, mi);
    FieldsOfDate(z, 2, 29, h, mi);
    if z == y {
      EarlierDate(z, 2, 29, h, mi, y + 1, k, e, g, mj);
    } else {
      EarlierDate(y, k, e, g, mj, z, 2, 29, h, mi);
    }
  }

  lemma YearOfWindow(from: int, t: int)
    requires Within(from, t)
    ensures Year(t) == Year(from) || Year(t) == Year(from) + 1
  {
    hide Date, Year, Month, Day, Hour, Minute, Weekday, DaysBeforeMonth, DaysBeforeYear;
    FieldRanges(from);
    DateOfFields(from);
    FieldRanges(t);
    DateOfFields(t);
    if Year(t) < Year(from) {
      EarlierDate(Year(t), Month(t), Day(t), Hour(t), Minute(t), Year(from), Month(from), Day(from), Hour(from),
          Minute(from));
    } else if Year(t) > Year(from) + 1 {
      EarlierDate(Year(from) + 1, Month(from), 1, 0, 0, Year(t), Month(t), Day(t), Hour(t), Minute(t));
      LimitBefore(from, t);
    }
  }

  lemma LimitBefore(from: int, t: int)
    requires Year(t) > Year(from) + 1
    ensures AddYear(from) < t
  {
    hide Year, Month, Day, Hour, Minute, Weekday, DaysBeforeMonth, DaysBeforeYear;
    FieldRanges(from);
    FieldRanges(t);
    DateOfFields(t);
    var y, k, e, g, mj := Year(from) + 1, Month(from), Day(from), Hour(from), Minute(from);
    if ValidDate(y, k, e) {
      EarlierDate(y, k, e, g, mj, Year(t), Month(t), Day(t), Hour(t), Minute(t));
    } else {
      MonthWithinYear(y, 2);
      DateUnnormalised(y, 2, 29, g, mj);
      DateUnnormalised(y, 3, 1, g, mj);
      EarlierDate(y, 3, 1, g, mj, Year(t), Month(t), Day(t), Hour(t), Minute(t));
    }
  }

  lemma LeapDayMatch(s: Schedule, from: int, t: int)
    requires Within(from, t) && s.Matches(t) && !RunsEveryYear(s)
    ensures RunsOnLeapDay(s, from)
  {
    hide Date, Year, Month, Day, Hour, Minute, Weekday, DaysBeforeMonth, DaysBeforeYear;
    FieldRanges(t);
    DateOfFields(t);
    YearOfWindow(from, t);
    assert Day(t) in s.daysOfMonth && Month(t) in s.months;
    assert Month(t) == 2 && Day(t) == 29 && IsLeap(Year(t));
    assert Hour(t) in s.hours && Minute(t) in s.minutes;
  }

  /** A parsed schedule runs within the window exactly when it can run in every year, or a
      permitted minute of a leap day falls inside the window. */
  lemma RunExistsExactly(s: Schedule, from: int)
    requires Parsed(s)
    ensures EveryMinute(s.Test(), from, AddYear(from)).Some? <==> RunsEveryYear(s) || RunsOnLeapDay(s, from)
  {
    hide Date, Year, Month, Day, Hour, Minute, Weekday, DaysBeforeMonth, DaysBeforeYear, DaysInMonth;
    EveryMinuteIsEarliest(s.Test(), from, AddYear(from));
    var r := EveryMinute(s.Test(), from, AddYear(from));
    if r.Some? && !RunsEveryYear(s) {
      LeapDayMatch(s, from, r.value);
    }
    if RunsEveryYear(s) || RunsOnLeapDay(s, from) {
      var t: int;
      if !s.dayOfWeekWildcard {
        t := WeekdayRun(s, from);
      } else if RunsEveryYear(s) {
        var m, d :| m in s.months && d in s.daysOfMonth && 1 <= m <= 12 && 1 <= d <= DaysInMonth(1, m);
        t := DateRun(s, from, m, d);
      } else {
        t := LeapDayRun(s, from);
      }
      assert s.Test()(t);
    }
  }
}
