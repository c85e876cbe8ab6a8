/**
 * Proleptic Gregorian calendar arithmetic standing in for the date library the activity
 * store uses: days in a month, the day before a date, the days of a month and the weekday.
 */
module Calendar {

  /** A year, month (1-12) and day of month, not yet checked. */
  datatype Ymd = Ymd(year: int, month: int, day: int)

  predicate IsLeapYear(y: int) {
    y % 4 == 0 && (y % 100 != 0 || y % 400 == 0)
  }

  function DaysInMonth(y: int, m: int): (n: int)
    requires 1 <= m <= 12
    ensures 28 <= n <= 31
    ensures m == 2 ==> (n == 29 <==> IsLeapYear(y))
  {
    if m == 2 then (if IsLeapYear(y) then 29 else 28)
    else if m == 4 || m == 6 || m == 9 || m == 11 then 30
    else 31
  }

  predicate IsValid(d: Ymd) {
    1 <= d.month <= 12 && 1 <= d.day <= DaysInMonth(d.year, d.month)
  }

  /** A calendar date that exists; the activity cache is keyed by these. */
  type Date = d: Ymd | IsValid(d) witness Ymd(1970, 1, 1)

  /** Strict chronological order, compared field by field. */
  predicate Precedes(a: Ymd, b: Ymd) {
    a.year < b.year
    || (a.year == b.year && (a.month < b.month || (a.month == b.month && a.day < b.day)))
  }

  /** The day before `d`, crossing month and year boundaries. */
  function PrevDay(d: Date): (p: Date)
    ensures Precedes(p, d)
    ensures d.day > 1 ==> p == Ymd(d.year, d.month, d.day - 1)
    ensures d.day == 1 ==> p.day == DaysInMonth(p.year, p.month)
  {
    if d.day > 1 then Ymd(d.year, d.month, d.day - 1)
    else if d.month > 1 then Ymd(d.year, d.month - 1, DaysInMonth(d.year, d.month - 1))
    else Ymd(d.year - 1, 12, 31)
  }

  /** Every day of month `m` of year `y`, first to last. */
  function MonthDays(y: int, m: int): (days: seq<Date>)
    requires 1 <= m <= 12
    ensures |days| == DaysInMonth(y, m)
    ensures forall i :: 0 <= i < |days| ==> days[i] == Ymd(y, m, i + 1)
    ensures forall i, j :: 0 <= i < j < |days| ==> Precedes(days[i], days[j])
  {
    seq(DaysInMonth(y, m), i requires 0 <= i < DaysInMonth(y, m) => Ymd(y, m, i + 1))
  }

  /** Number of leap years among the years 1..n (for n >= 0; a consistent offset otherwise). */
  function LeapsThrough(n: int): int {
    n / 4 - n / 100 + n / 400
  }

  /** Days in the whole months of year `y` before month `m`. */
  function DaysBeforeMonth(y: int, m: int): int
    requires 1 <= m <= 12
  {
    var common :=
      if m == 1 then 0 else if m == 2 then 31 else if m == 3 then 59
      else if m == 4 then 90 else if m == 5 then 120 else if m == 6 then 151
      else if m == 7 then 181 else if m == 8 then 212 else if m == 9 then 243
      else if m == 10 then 273 else if m == 11 then 304 else 334;
    common + (if m > 2 && IsLeapYear(y) then 1 else 0)
  }

  /** Days from 1970-01-01 to the first day of year `y` (negative before 1970). */
  function DaysBeforeYear(y: int): int {
    365 * (y - 1970) + LeapsThrough(y - 1) - LeapsThrough(1969)
  }

  /** Days from 1970-01-01 to `d`. */
  function DayNumber(d: Date): int {
    DaysBeforeYear(d.year) + DaysBeforeMonth(d.year, d.month) + d.day - 1
  }

  /** Day of the week as JavaScript's `getDay` numbers it: 0 is Sunday, 6 is Saturday. */
  function DayOfWeek(d: Date): (w: int)
    ensures 0 <= w < 7
  {
    // 1970-01-01, day number 0, was a Thursday
    (DayNumber(d) + 4) % 7
  }

  /** `getDay()` is Sunday (0) or Saturday (6). */
  function IsWeekend(d: Date): (r: bool)
    ensures r <==> DayOfWeek(d) == 0 || DayOfWeek(d) == 6
  {
    DayOfWeek(d) == 0 || DayOfWeek(d) == 6
  }

  lemma DivStep(n: int, k: int)
    requires k == 4 || k == 100 || k == 400
    ensures n / k - (n - 1) / k == if n % k == 0 then 1 else 0
  {
    var q, r := (n - 1) / k, (n - 1) % k;
    assert n - 1 == k * q + r && 0 <= r < k;
    if r == k - 1 {
      assert n == k * (q + 1) + 0;
      assert n / k == q + 1 && n % k == 0;
    } else {
      assert n == k * q + (r + 1) && 0 <= r + 1 < k;
      assert n / k == q && n % k == r + 1;
    }
  }

  lemma MultipleOf(n: int, k: int, j: int)
    requires (k == 400 && j == 4) || (k == 100 && j == 25)
    requires n % k == 0
    ensures n % (k / j) == 0
  {
    var q := n / k;
    assert n == k * q;
    assert n == (k / j) * (j * q);
  }

  lemma LeapStep(n: int)
    ensures LeapsThrough(n) - LeapsThrough(n - 1) == if IsLeapYear(n) then 1 else 0
  {
    DivStep(n, 4);
    DivStep(n, 100);
    DivStep(n, 400);
    if n % 400 == 0 {
      MultipleOf(n, 400, 4);
      MultipleOf(n, 100, 25);
    } else if n % 100 == 0 {
      MultipleOf(n, 100, 25);
    }
  }

  /** A year is 366 days long exactly when it is a leap year, 365 otherwise. */
  lemma YearLength(y: int)
    ensures DaysBeforeYear(y + 1) - DaysBeforeYear(y) == if IsLeapYear(y) then 366 else 365
  {
    LeapStep(y);
  }

  /** The day before `d` is numbered one less than `d`: PrevDay steps back exactly one day. */
  lemma PrevDayNumber(d: Date)
    ensures DayNumber(PrevDay(d)) == DayNumber(d) - 1
  {
    if d.day > 1 {
    } else if d.month > 1 {
      MonthStep(d.year, d.month - 1);
    } else {
      YearLength(d.year - 1);
      assert DaysBeforeMonth(d.year - 1, 12) == 334 + if IsLeapYear(d.year - 1) then 1 else 0;
    }
  }

  /** The weekday of the day before `d` is the weekday of `d`, minus one modulo 7. */
  lemma PrevDayWeekday(d: Date)
    ensures DayOfWeek(PrevDay(d)) == (DayOfWeek(d) + 6) % 7
  {
    PrevDayNumber(d);
    WeekStep(DayNumber(d) + 4);
  }

  /** The weekend is two consecutive days: Saturday then Sunday; a Monday follows it. */
  lemma WeekendIsTwoDays(d: Date)
    ensures DayOfWeek(d) == 0 ==> IsWeekend(PrevDay(d)) && DayOfWeek(PrevDay(d)) == 6
    ensures DayOfWeek(d) == 6 ==> !IsWeekend(PrevDay(d))
    ensures DayOfWeek(d) == 1 ==> IsWeekend(PrevDay(d)) && !IsWeekend(d)
  {
    PrevDayWeekday(d);
  }

  lemma WeekStep(n: int)
    ensures (n - 1) % 7 == (n % 7 + 6) % 7
  {
    var q, r := n / 7, n % 7;
    assert n == 7 * q + r && 0 <= r < 7;
    if r == 0 {
      assert n - 1 == 7 * (q - 1) + 6;
    } else {
      assert n - 1 == 7 * q + (r - 1);
    }
  }

  /** The year a date falls in starts on or before it and ends after it. */
  lemma WithinYear(d: Date)
    ensures DaysBeforeYear(d.year) <= DayNumber(d) < DaysBeforeYear(d.year + 1)
  {
    YearLength(d.year);
  }

  lemma {:induction false} DaysBeforeYearIncreasing(a: int, b: int)
    requires a < b
    ensures DaysBeforeYear(a) < DaysBeforeYear(b)
    decreases b - a
  {
    YearLength(a);
    if a + 1 < b {
      DaysBeforeYearIncreasing(a + 1, b);
    }
  }

  /** Consecutive months: the days before month m+1 are those before m plus the length of m. */
  lemma MonthStep(y: int, m: int)
    requires 1 <= m < 12
    ensures DaysBeforeMonth(y, m + 1) == DaysBeforeMonth(y, m) + DaysInMonth(y, m)
  {
  }

  lemma {:induction false} MonthsIncreasing(y: int, a: int, b: int)
    requires 1 <= a < b <= 12
    ensures DaysBeforeMonth(y, a) + DaysInMonth(y, a) <= DaysBeforeMonth(y, b)
    decreases b - a
  {
    MonthStep(y, a);
    if a + 1 < b {
      MonthsIncreasing(y, a + 1, b);
    }
  }

  /** DayNumber is strictly increasing in chronological order, so no two dates share a number. */
  lemma DayNumberIncreasing(a: Date, b: Date)
    requires Precedes(a, b)
    ensures DayNumber(a) < DayNumber(b)
  {
    if a.year < b.year {
      WithinYear(a);
      WithinYear(b);
      if a.year + 1 < b.year {
        DaysBeforeYearIncreasing(a.year + 1, b.year);
      }
    } else if a.month < b.month {
      MonthsIncreasing(a.year, a.month, b.month);
    }
  }

  /** Fixed points that tie DayOfWeek to the real calendar. */
  lemma KnownWeekdays()
    ensures DayOfWeek(Ymd(1970, 1, 1)) == 4
    ensures DayOfWeek(Ymd(2000, 2, 29)) == 2
    ensures DayOfWeek(Ymd(2024, 1, 1)) == 1
    ensures DayOfWeek(Ymd(2026, 10, 14)) == 3
    ensures DayOfWeek(Ymd(1900, 3, 1)) == 4
  {
  }
}
