/**
 * Calendar dates as JavaScript's Date constructor builds them from a year,
 * a zero-based month and a day of the month: components outside their range
 * roll over into the neighbouring months and years instead of being
 * rejected or clamped. All dates and instants are read in one time zone.
 */
module CivilDate {

  /** A calendar day: month is zero-based as in Date.prototype.getMonth. */
  datatype Date = Date(year: int, month: int, day: int)

  /** A point in time: a calendar day and the milliseconds elapsed since its midnight. */
  datatype Instant = Instant(date: Date, msOfDay: int)

  const MsPerDay: int := 86400000

  predicate IsLeap(y: int)
  {
    (y % 4 == 0 && y % 100 != 0) || y % 400 == 0
  }

  function DaysIn(y: int, m: int): (n: int)
    requires 0 <= m < 12
    ensures 28 <= n <= 31
  {
    if m == 1 then (if IsLeap(y) then 29 else 28)
    else if m == 3 || m == 5 || m == 8 || m == 10 then 30
    else 31
  }

  predicate ValidDate(d: Date)
  {
    0 <= d.month < 12 && 1 <= d.day <= DaysIn(d.year, d.month)
  }

  predicate ValidInstant(t: Instant)
  {
    ValidDate(t.date) && 0 <= t.msOfDay < MsPerDay
  }

  /** Day d of month m of year y, for a month in range and a day of any size. */
  function Compose(y: int, m: int, d: int): (r: Date)
    ensures ValidDate(r)
  {
    var y0 := y + m / 12;
    var m0 := m % 12;
    if d >= 1 then Forward(y0, m0, d) else Backward(y0, m0, d)
  }

  /** Days past the end of month m carry into the following months. */
  function Forward(y: int, m: int, d: int): (r: Date)
    requires 0 <= m < 12 && d >= 1
    ensures ValidDate(r)
    decreases d
  {
    if d <= DaysIn(y, m) then Date(y, m, d)
    else if m == 11 then Forward(y + 1, 0, d - DaysIn(y, m))
    else Forward(y, m + 1, d - DaysIn(y, m))
  }

  /** Day 0 and the days before it borrow from the preceding months. */
  function Backward(y: int, m: int, d: int): (r: Date)
    requires 0 <= m < 12 && d <= 0
    ensures ValidDate(r)
    decreases -d
  {
    var py := if m == 0 then y - 1 else y;
    var pm := if m == 0 then 11 else m - 1;
    var d1 := d + DaysIn(py, pm);
    if d1 >= 1 then Date(py, pm, d1) else Backward(py, pm, d1)
  }

  /** The year the Date constructor uses: a year between 0 and 99 means 1900 + y. */
  function FullYear(y: int): int
  {
    if 0 <= y <= 99 then 1900 + y else y
  }

  /** new Date(y, m, d). */
  function Make(y: int, m: int, d: int): (r: Date)
    ensures ValidDate(r)
  {
    Compose(FullYear(y), m, d)
  }

  /** date.setMonth(m): the same day of the month in month m, rolling over as the constructor does. */
  function SetMonth(date: Date, m: int): (r: Date)
    ensures ValidDate(r)
  {
    Compose(date.year, m, date.day)
  }

  /** Midnight of a is earlier than midnight of b. */
  predicate Before(a: Date, b: Date)
  {
    a.year < b.year
    || (a.year == b.year && a.month < b.month)
    || (a.year == b.year && a.month == b.month && a.day < b.day)
  }

  /** now > midnight of d. */
  predicate After(now: Instant, d: Date)
  {
    Before(d, now.date) || (d == now.date && now.msOfDay > 0)
  }

  /** Leap years among 1..x for x >= 0, extended to all x by the same formula. */
  function LeapsUpTo(x: int): int
  {
    x / 4 - x / 100 + x / 400
  }

  /** Days from the start of year 0 to the start of year y. */
  function YearStart(y: int): int
  {
    365 * y + LeapsUpTo(y - 1) + 1
  }

  /** Days from the start of year y to the start of month m. */
  function MonthStart(y: int, m: int): (n: int)
    requires 0 <= m <= 12
    ensures n >= 0
  {
    if m == 0 then 0 else MonthStart(y, m - 1) + DaysIn(y, m - 1)
  }

  /** A serial day number: consecutive calendar days get consecutive numbers. */
  function DayNumber(d: Date): int
    requires 0 <= d.month < 12
  {
    YearStart(d.year) + MonthStart(d.year, d.month) + d.day - 1
  }

  lemma StepDiv(x: int)
    ensures x / 4 - (x - 1) / 4 == (if x % 4 == 0 then 1 else 0)
    ensures x / 100 - (x - 1) / 100 == (if x % 100 == 0 then 1 else 0)
    ensures x / 400 - (x - 1) / 400 == (if x % 400 == 0 then 1 else 0)
  {
  }

  /** The twelve months of a year add up to 365 days, or 366 in a leap year. */
  lemma YearDays(y: int)
    ensures MonthStart(y, 12) == if IsLeap(y) then 366 else 365
  {
    var feb := DaysIn(y, 1);
    assert MonthStart(y, 1) == 31;
    assert MonthStart(y, 2) == 31 + feb;
    assert MonthStart(y, 3) == 62 + feb;
    assert MonthStart(y, 4) == 92 + feb;
    assert MonthStart(y, 5) == 123 + feb;
    assert MonthStart(y, 6) == 153 + feb;
    assert MonthStart(y, 7) == 184 + feb;
    assert MonthStart(y, 8) == 215 + feb;
    assert MonthStart(y, 9) == 245 + feb;
    assert MonthStart(y, 10) == 276 + feb;
    assert MonthStart(y, 11) == 306 + feb;
  }

  /** A year has as many days as its twelve months together. */
  lemma {:induction false} YearLength(y: int)
    ensures YearStart(y + 1) == YearStart(y) + MonthStart(y, 12)
    ensures YearStart(y + 1) == YearStart(y) + (if IsLeap(y) then 366 else 365)
  {
    StepDiv(y);
    YearDays(y);
  }

  /** The day after the last day of a month is the first day of the next. */
  lemma {:induction false} NextMonth(y: int, m: int)
    requires 0 <= m < 12
    ensures var n := if m == 11 then Date(y + 1, 0, 1) else Date(y, m + 1, 1);
            DayNumber(n) == DayNumber(Date(y, m, 1)) + DaysIn(y, m)
  {
    if m == 11 {
      YearLength(y);
    }
  }

  lemma {:induction false} ForwardDayNumber(y: int, m: int, d: int)
    requires 0 <= m < 12 && d >= 1
    ensures DayNumber(Forward(y, m, d)) == DayNumber(Date(y, m, 1)) + d - 1
    decreases d
  {
    var len := DaysIn(y, m);
    if d > len {
      var ny := if m == 11 then y + 1 else y;
      var nm := if m == 11 then 0 else m + 1;
      assert Forward(y, m, d) == Forward(ny, nm, d - len);
      NextMonth(y, m);
      assert DayNumber(Date(ny, nm, 1)) == DayNumber(Date(y, m, 1)) + len;
      ForwardDayNumber(ny, nm, d - len);
    }
  }

  lemma {:induction false} BackwardDayNumber(y: int, m: int, d: int)
    requires 0 <= m < 12 && d <= 0
    ensures DayNumber(Backward(y, m, d)) == DayNumber(Date(y, m, 1)) + d - 1
    decreases -d
  {
    var py := if m == 0 then y - 1 else y;
    var pm := if m == 0 then 11 else m - 1;
    NextMonth(py, pm);
    assert (if pm == 11 then py + 1 else py) == y;
    var d1 := d + DaysIn(py, pm);
    if d1 < 1 {
      BackwardDayNumber(py, pm, d1);
    }
  }

  /**
   * Day d of month m is d - 1 days after the first of that month, whatever
   * the size of d and m: the constructor's rollover is plain day arithmetic.
   */
  lemma ComposeDayNumber(y: int, m: int, d: int)
    ensures DayNumber(Compose(y, m, d)) == DayNumber(Date(y + m / 12, m % 12, 1)) + d - 1
  {
    var y0 := y + m / 12;
    var m0 := m % 12;
    if d >= 1 {
      assert Compose(y, m, d) == Forward(y0, m0, d);
      ForwardDayNumber(y0, m0, d);
    } else {
      assert Compose(y, m, d) == Backward(y0, m0, d);
      BackwardDayNumber(y0, m0, d);
    }
  }

  /** Day d of the month before (y, m) comes before day d of month m. */
  lemma {:induction false} PrevMonthEarlier(y: int, m: int, d: int)
    requires 0 <= m < 12
    ensures DayNumber(Compose(y, m - 1, d)) < DayNumber(Date(y, m, d))
  {
    var py := if m == 0 then y - 1 else y;
    var pm := if m == 0 then 11 else m - 1;
    assert y + (m - 1) / 12 == py && (m - 1) % 12 == pm;
    ComposeDayNumber(y, m - 1, d);
    assert DayNumber(Compose(y, m - 1, d)) == DayNumber(Date(py, pm, 1)) + d - 1;
    NextMonth(py, pm);
  }

  /** Any day d >= 1 of the month after (y, m) comes after every day of month m. */
  lemma {:induction false} NextMonthLater(y: int, m: int, d: int)
    requires 0 <= m < 12 && d >= 1
    ensures DayNumber(Compose(y, m + 1, d)) >= DayNumber(Date(y, m, 1)) + DaysIn(y, m)
  {
    ComposeNextMonth(y, m, d);
  }

  /**
   * Day d of the month after m is the length of month m later than day d of
   * month m, for a day of any size; in particular the two are never the same date.
   */
  lemma {:induction false} NextMonthSameDay(y: int, m: int, d: int)
    requires 0 <= m < 12
    ensures DayNumber(Make(y, m + 1, d)) == DayNumber(Make(y, m, d)) + DaysIn(FullYear(y), m)
    ensures Make(y, m + 1, d) != Make(y, m, d)
  {
    var fy := FullYear(y);
    ComposeInMonth(fy, m, d);
    ComposeNextMonth(fy, m, d);
    assert Make(y, m + 1, d) == Compose(fy, m + 1, d) && Make(y, m, d) == Compose(fy, m, d);
  }

  lemma ComposeInMonth(y: int, m: int, d: int)
    requires 0 <= m < 12
    ensures DayNumber(Compose(y, m, d)) == DayNumber(Date(y, m, 1)) + d - 1
  {
    assert y + m / 12 == y && m % 12 == m;
    ComposeDayNumber(y, m, d);
  }

  lemma ComposeNextMonth(y: int, m: int, d: int)
    requires 0 <= m < 12
    ensures DayNumber(Compose(y, m + 1, d)) == DayNumber(Date(y, m, 1)) + DaysIn(y, m) + d - 1
  {
    var ny := if m == 11 then y + 1 else y;
    var nm := if m == 11 then 0 else m + 1;
    assert y + (m + 1) / 12 == ny && (m + 1) % 12 == nm;
    ComposeDayNumber(y, m + 1, d);
    assert DayNumber(Compose(y, m + 1, d)) == DayNumber(Date(ny, nm, 1)) + d - 1;
    NextMonth(y, m);
  }

  /** A valid date is the day it names. */
  lemma ComposeValid(d: Date)
    requires ValidDate(d)
    ensures Compose(d.year, d.month, d.day) == d
  {
  }

  lemma {:induction false} YearStartIncreasing(a: int, b: int)
    requires a < b
    ensures YearStart(a) + 365 <= YearStart(b)
    decreases b - a
  {
    YearLength(a);
    if a + 1 < b {
      YearStartIncreasing(a + 1, b);
    }
  }

  lemma {:induction false} MonthStartIncreasing(y: int, a: int, b: int)
    requires 0 <= a < b <= 12
    ensures MonthStart(y, a) + DaysIn(y, a) <= MonthStart(y, b)
    decreases b - a
  {
    if a + 1 < b {
      MonthStartIncreasing(y, a, b - 1);
    }
  }

  lemma DayNumberBounds(d: Date)
    requires ValidDate(d)
    ensures YearStart(d.year) <= DayNumber(d) < YearStart(d.year + 1)
  {
    YearLength(d.year);
    MonthStartIncreasing(d.year, d.month, 12);
  }

  /** For valid dates, "earlier midnight" is "smaller day number". */
  lemma {:induction false} BeforeDayNumber(a: Date, b: Date)
    requires ValidDate(a) && ValidDate(b)
    ensures Before(a, b) <==> DayNumber(a) < DayNumber(b)
    ensures a == b <==> DayNumber(a) == DayNumber(b)
  {
    DayNumberBounds(a);
    DayNumberBounds(b);
    if a.year < b.year {
      YearStartIncreasing(a.year, b.year);
      if a.year + 1 < b.year {
        YearStartIncreasing(a.year + 1, b.year);
      }
    } else if b.year < a.year {
      YearStartIncreasing(b.year, a.year);
      if b.year + 1 < a.year {
        YearStartIncreasing(b.year + 1, a.year);
      }
    } else if a.month < b.month {
      MonthStartIncreasing(a.year, a.month, b.month);
    } else if b.month < a.month {
      MonthStartIncreasing(a.year, b.month, a.month);
    }
  }

  /** Before is a strict order on dates. */
  lemma BeforeOrder(a: Date, b: Date, c: Date)
    ensures !Before(a, a)
    ensures Before(a, b) ==> !Before(b, a)
    ensures Before(a, b) && Before(b, c) ==> Before(a, c)
    ensures a == b || Before(a, b) || Before(b, a)
  {
  }

  /**
   * Math.ceil((midnight of d - now) / MsPerDay): the fraction of today that
   * has passed is rounded away, leaving the difference of day numbers.
   */
  function DaysUntil(d: Date, now: Instant): (n: int)
    requires 0 <= d.month < 12 && ValidInstant(now)
    ensures (n - 1) * MsPerDay < (DayNumber(d) - DayNumber(now.date)) * MsPerDay - now.msOfDay <= n * MsPerDay
  {
    DayNumber(d) - DayNumber(now.date)
  }
}
