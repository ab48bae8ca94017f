/** The proleptic Gregorian calendar as Go's `time` package presents it in UTC.

An instant is a number of whole minutes since 1 January of year 1, 00:00.  `Date` is
Go's `time.Date` (it normalises an out-of-range month or day); `Year`, `Month`, `Day`,
`Hour`, `Minute` and `Weekday` are the accessors of `time.Time`.
*/
module Calendar {
  const MINUTES_PER_DAY := 1440

  predicate IsLeap(y: int) {
    y % 4 == 0 && (y % 100 != 0 || y % 400 == 0)
  }

  function DaysInYear(y: int): int {
    if IsLeap(y) then 366 else 365
  }

  function DaysInMonth(y: int, m: int): (days: int)
    requires 1 <= m <= 12
    ensures 28 <= days <= 31
  {
    if m == 2 then (if IsLeap(y) then 29 else 28)
    else if m == 4 || m == 6 || m == 9 || m == 11 then 30
    else 31
  }

  /** Days from 1 January of year 1 to 1 January of year `y`. */
  function DaysBeforeYear(y: int): int {
    365 * (y - 1) + (y - 1) / 4 - (y - 1) / 100 + (y - 1) / 400
  }

  /** Days from 1 January of `y` to the first of month `m`; month 13 is the next January. */
  function DaysBeforeMonth(y: int, m: int): int
    requires 1 <= m <= 13
    decreases m
  {
    if m == 1 then 0 else DaysBeforeMonth(y, m - 1) + DaysInMonth(y, m - 1)
  }

  /** Go's `time.Date(y, m, d, h, mi, 0, 0, time.UTC)`. */
  function Date(y: int, m: int, d: int, h: int, mi: int): int {
    Instant(DaysBeforeYear(CarriedYear(y, m)) + DaysBeforeMonth(CarriedYear(y, m), CarriedMonth(m)) + d - 1, h, mi)
  }

  function CarriedYear(y: int, m: int): int { y + (m - 1) / 12 }

  function CarriedMonth(m: int): (r: int)
    ensures 1 <= r <= 12
  { (m - 1) % 12 + 1 }

  /** Minute `mi` of hour `h` of day number `n`. */
  function Instant(n: int, h: int, mi: int): int { (n * 24 + h) * 60 + mi }

  // ----- accessors -----

  function DayNumber(t: int): int { t / MINUTES_PER_DAY }
  function Hour(t: int): int { (t % MINUTES_PER_DAY) / 60 }
  function Minute(t: int): int { t % 60 }

  /** 0 is Sunday; 1 January of year 1 is a Monday. */
  function Weekday(t: int): int { (DayNumber(t) + 1) % 7 }

  function Year(t: int): int {
    var n := DayNumber(t);
    YearFrom(FirstGuess(n), n)
  }

  function Month(t: int): (m: int)
    ensures 1 <= m <= 12
  {
    YearBounds(DayNumber(t));
    var y := Year(t);
    MonthFrom(y, 1, DayNumber(t) - DaysBeforeYear(y))
  }

  function Day(t: int): int {
    DayNumber(t) - DaysBeforeYear(Year(t)) - DaysBeforeMonth(Year(t), Month(t)) + 1
  }

  /** Go's `t.AddDate(1, 0, 0)`: the same date fields one year on, normalised. */
  function AddYear(t: int): int {
    Date(Year(t) + 1, Month(t), Day(t), Hour(t), Minute(t))
  }

  function FirstGuess(n: int): (y: int)
    ensures DaysBeforeYear(y) <= n
  {
    if n >= 0 then n / 366 + 1 else n / 365 + 1
  }

  function YearFrom(y: int, n: int): (r: int)
    requires DaysBeforeYear(y) <= n
    ensures DaysBeforeYear(r) <= n < DaysBeforeYear(r + 1)
    decreases n - DaysBeforeYear(y)
  {
    YearLength(y);
    if n < DaysBeforeYear(y + 1) then y else YearFrom(y + 1, n)
  }

  function MonthFrom(y: int, m: int, n: int): (r: int)
    requires 1 <= m <= 12
    requires DaysBeforeMonth(y, m) <= n < DaysInYear(y)
    ensures 1 <= r <= 12
    ensures DaysBeforeMonth(y, r) <= n < DaysBeforeMonth(y, r + 1)
    decreases 12 - m
  {
    MonthTable(y);
    if m == 12 || n < DaysBeforeMonth(y, m + 1) then m else MonthFrom(y, m + 1, n)
  }

  // ----- day-count lemmas -----

  lemma YearLength(y: int)
    ensures DaysBeforeYear(y + 1) == DaysBeforeYear(y) + DaysInYear(y)
  {
    Fourth(y);
    Hundredth(y);
    FourHundredth(y);
    assert y % 400 == 0 ==> y % 100 == 0;
    assert y % 100 == 0 ==> y % 4 == 0;
  }

  lemma Fourth(y: int)
    ensures y / 4 - (y - 1) / 4 == if y % 4 == 0 then 1 else 0
  {
  }

  lemma Hundredth(y: int)
    ensures y / 100 - (y - 1) / 100 == if y % 100 == 0 then 1 else 0
  {
  }

  lemma FourHundredth(y: int)
    ensures y / 400 - (y - 1) / 400 == if y % 400 == 0 then 1 else 0
  {
  }

  lemma YearsIncrease(y: int, z: int)
    requires y <= z
    ensures DaysBeforeYear(y) <= DaysBeforeYear(z)
    decreases z - y
  {
    if y < z {
      YearLength(y);
      YearsIncrease(y + 1, z);
    }
  }

  lemma MonthTable(y: int)
    ensures DaysBeforeMonth(y, 2) == 31
    ensures DaysBeforeMonth(y, 13) == DaysInYear(y)
  {
    assert DaysBeforeMonth(y, 4) == DaysBeforeMonth(y, 2) + DaysInMonth(y, 2) + 31;
    assert DaysBeforeMonth(y, 6) == DaysBeforeMonth(y, 4) + 61;
    assert DaysBeforeMonth(y, 8) == DaysBeforeMonth(y, 6) + 61;
    assert DaysBeforeMonth(y, 10) == DaysBeforeMonth(y, 8) + 61;
    assert DaysBeforeMonth(y, 12) == DaysBeforeMonth(y, 10) + 61;
    assert DaysBeforeMonth(y, 13) == DaysBeforeMonth(y, 12) + 31;
  }

  lemma MonthsIncrease(y: int, m: int, k: int)
    requires 1 <= m <= k <= 13
    ensures DaysBeforeMonth(y, m) <= DaysBeforeMonth(y, k)
    decreases k - m
  {
    if m < k { MonthsIncrease(y, m, k - 1); }
  }

  lemma YearBounds(n: int)
    ensures var y := YearFrom(FirstGuess(n), n);
            DaysBeforeYear(y) <= n < DaysBeforeYear(y) + DaysInYear(y)
  {
    YearLength(YearFrom(FirstGuess(n), n));
  }

  ghost predicate ValidDate(y: int, m: int, d: int) {
    1 <= m <= 12 && 1 <= d <= DaysInMonth(y, m)
  }

  lemma YearUnique(n: int, y: int, z: int)
    requires DaysBeforeYear(y) <= n < DaysBeforeYear(y + 1)
    requires DaysBeforeYear(z) <= n < DaysBeforeYear(z + 1)
    ensures y == z
  {
    if z < y { YearsIncrease(z + 1, y); }
    if z > y { YearsIncrease(y + 1, z); }
  }

  lemma MonthOffsetUnique(y: int, n: int, m: int, k: int)
    requires 1 <= m <= 12 && 1 <= k <= 12
    requires DaysBeforeMonth(y, m) <= n < DaysBeforeMonth(y, m + 1)
    requires DaysBeforeMonth(y, k) <= n < DaysBeforeMonth(y, k + 1)
    ensures m == k
  {
    if k < m { MonthsIncrease(y, k + 1, m); }
    if k > m { MonthsIncrease(y, m + 1, k); }
  }

  lemma MonthWithinYear(y: int, m: int)
    requires 1 <= m <= 12
    ensures 0 <= DaysBeforeMonth(y, m)
    ensures DaysBeforeMonth(y, m + 1) <= DaysInYear(y)
    ensures DaysBeforeMonth(y, m + 1) == DaysBeforeMonth(y, m) + DaysInMonth(y, m)
  {
    MonthTable(y);
    MonthsIncrease(y, 1, m);
    MonthsIncrease(y, m + 1, 13);
  }

  /** A day number lies in only one month of only one year. */
  lemma MonthUnique(t: int, y: int, m: int)
    requires 1 <= m <= 12
    requires DaysBeforeMonth(y, m) <= DayNumber(t) - DaysBeforeYear(y) < DaysBeforeMonth(y, m + 1)
    ensures Year(t) == y && Month(t) == m
  {
    MonthWithinYear(y, m);
    YearLength(y);
    YearUnique(DayNumber(t), y, Year(t));
    MonthOffsetUnique(y, DayNumber(t) - DaysBeforeYear(y), m, Month(t));
  }

  lemma ClockOfDay(n: int, h: int, mi: int)
    requires 0 <= h < 24 && 0 <= mi < 60
    ensures var t := Instant(n, h, mi); DayNumber(t) == n && Hour(t) == h && Minute(t) == mi
  {
  }

  /** The accessors invert `Date` on every valid civil time. */
  lemma {:induction false} FieldsOfDate(y: int, m: int, d: int, h: int, mi: int)
    requires ValidDate(y, m, d) && 0 <= h < 24 && 0 <= mi < 60
    ensures var t := Date(y, m, d, h, mi);
            && Year(t) == y && Month(t) == m && Day(t) == d && Hour(t) == h && Minute(t) == mi
            && DayNumber(t) == DaysBeforeYear(y) + DaysBeforeMonth(y, m) + d - 1
  {
    DateUnnormalised(y, m, d, h, mi);
    ClockOfDay(DaysBeforeYear(y) + DaysBeforeMonth(y, m) + d - 1, h, mi);
    hide Date, Instant, DaysBeforeMonth, DaysBeforeYear, Hour, Minute, DayNumber;
    MonthWithinYear(y, m);
    MonthUnique(Date(y, m, d, h, mi), y, m);
  }

  lemma FieldRanges(t: int)
    ensures ValidDate(Year(t), Month(t), Day(t))
    ensures 0 <= Hour(t) < 24 && 0 <= Minute(t) < 60
  {
    MonthWithinYear(Year(t), Month(t));
    YearBounds(DayNumber(t));
  }

  lemma ClockRecomposes(t: int)
    ensures t == Instant(DayNumber(t), Hour(t), Minute(t))
  {
    var d, r := t / 1440, t % 1440;
    SixtyApart(24 * d + r / 60, r % 60);
  }

  lemma SixtyApart(q: int, m: int)
    requires 0 <= m < 60
    ensures (60 * q + m) % 60 == m
  {
  }

  /** With a month in range nothing is carried into the year. */
  lemma DateUnnormalised(y: int, m: int, d: int, h: int, mi: int)
    requires 1 <= m <= 12
    ensures Date(y, m, d, h, mi) == Instant(DaysBeforeYear(y) + DaysBeforeMonth(y, m) + d - 1, h, mi)
  {
    hide DaysBeforeMonth, DaysBeforeYear;
    Carry(y, m);
    var year, month := CarriedYear(y, m), CarriedMonth(m);
    assert year == y && month == m;
  }

  lemma Carry(y: int, m: int)
    ensures 1 <= m <= 12 ==> CarriedYear(y, m) == y && CarriedMonth(m) == m
    ensures CarriedYear(y, 13) == y + 1 && CarriedMonth(13) == 1
  {
  }

  lemma MonthStart(y: int, m: int)
    requires 1 <= m <= 12
    ensures Date(y, m + 1, 1, 0, 0) == Instant(DaysBeforeYear(y) + DaysBeforeMonth(y, m + 1), 0, 0)
  {
    hide DaysBeforeYear, DaysBeforeMonth, Date, IsLeap;
    if m == 12 {
      JanuaryStart(y);
      MonthTable(y);
      YearLength(y);
    } else {
      DateUnnormalised(y, m + 1, 1, 0, 0);
    }
  }

  lemma JanuaryStart(y: int)
    ensures Date(y, 13, 1, 0, 0) == Instant(DaysBeforeYear(y + 1), 0, 0)
  {
    hide DaysBeforeYear;
    Carry(y, 13);
    var year, month := CarriedYear(y, 13), CarriedMonth(13);
    assert year == y + 1 && month == 1 && DaysBeforeMonth(year, month) == 0;
  }

  /** Thirty days hath September, April, June and November; February has 28, or 29 in a year that is
      divisible by 4 but not by 100 unless by 400; the others have 31. */
  lemma MonthLengths(y: int, m: int)
    requires 1 <= m <= 12
    ensures Date(y, m + 1, 1, 0, 0) - Date(y, m, 1, 0, 0)
            == 24 * 60 * if m == 4 || m == 6 || m == 9 || m == 11 then 30
                         else if m != 2 then 31
                         else if y % 4 == 0 && (y % 100 != 0 || y % 400 == 0) then 29 else 28
  {
    hide Date, DaysBeforeYear, DaysBeforeMonth;
    MonthStart(y, m);
    DateUnnormalised(y, m, 1, 0, 0);
    MonthWithinYear(y, m);
  }

  /** The Unix epoch was a Thursday. */
  lemma Epoch()
    ensures Date(1970, 1, 1, 0, 0) == 719_162 * 24 * 60 && Weekday(Date(1970, 1, 1, 0, 0)) == 4
  {
    hide Date, DayNumber, DaysBeforeMonth;
    var y := 1970;
    DateUnnormalised(y, 1, 1, 0, 0);
    FirstMonth(y);
    ClockOfDay(719_162, 0, 0);
  }

  lemma FirstMonth(y: int)
    ensures DaysBeforeMonth(y, 1) == 0
  {
  }

  /** The next day is the next weekday. */
  lemma WeekdaysInOrder(t: int)
    ensures 0 <= Weekday(t) <= 6 && Weekday(t + 24 * 60) == (if Weekday(t) == 6 then 0 else Weekday(t) + 1)
  {
    NextDay(t);
    NextOfSeven(DayNumber(t));
    hide DayNumber;
  }

  lemma NextDay(t: int)
    ensures DayNumber(t + 24 * 60) == DayNumber(t) + 1
  {
  }

  lemma NextOfSeven(n: int)
    ensures 0 <= (n + 1) % 7 <= 6 && (n + 1 + 1) % 7 == if (n + 1) % 7 == 6 then 0 else (n + 1) % 7 + 1
  {
  }

  /** `Date` inverts the accessors on every instant. */
  lemma DateOfFields(t: int)
    ensures Date(Year(t), Month(t), Day(t), Hour(t), Minute(t)) == t
  {
    hide Date, Instant, DaysBeforeMonth, DaysBeforeYear, Hour, Minute, DayNumber, Year, Month;
    FieldRanges(t);
    DateUnnormalised(Year(t), Month(t), Day(t), Hour(t), Minute(t));
    ClockRecomposes(t);
  }

  /** A later civil date has a larger day number. */
  lemma DateOrder(y: int, m: int, d: int, z: int, k: int, e: int)
    requires ValidDate(y, m, d) && 1 <= k <= 12 && 1 <= e
    requires y < z || (y == z && (m < k || (m == k && d < e)))
    ensures DaysBeforeYear(y) + DaysBeforeMonth(y, m) + d < DaysBeforeYear(z) + DaysBeforeMonth(z, k) + e
  {
    hide DaysBeforeYear, DaysBeforeMonth, DaysInYear, DaysInMonth;
    MonthWithinYear(y, m);
    MonthWithinYear(z, k);
    if y < z {
      YearLength(y);
      YearsIncrease(y + 1, z);
    } else if m < k {
      MonthsIncrease(y, m + 1, k);
    }
  }
}
