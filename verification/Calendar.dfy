/** Proleptic Gregorian day arithmetic with out-of-range normalisation, and the quota periods built
    on it. Instants are nanoseconds and days are counted from the Unix epoch, in UTC. */
module Calendar {
  import opened Common

  const DAY: int := 86_400_000_000_000

  datatype Date = Date(year: int, month: int, day: int)

  predicate Leap(y: int) {
    y % 4 == 0 && (y % 100 != 0 || y % 400 == 0)
  }

  /** The day number of 1 January. */
  function YearStart(y: int): int {
    365 * (y - 1970) + (y - 1) / 4 - (y - 1) / 100 + (y - 1) / 400 - 477
  }

  function YearLength(y: int): int {
    if Leap(y) then 366 else 365
  }

  const DAYS_BEFORE: seq<int> := [0, 31, 59, 90, 120, 151, 181, 212, 243, 273, 304, 334, 365]

  function DaysBeforeMonth(y: int, m: int): int
    requires 1 <= m <= 13
  {
    DAYS_BEFORE[m - 1] + if Leap(y) && m >= 3 then 1 else 0
  }

  function MonthLength(y: int, m: int): int
    requires 1 <= m <= 12
  {
    DaysBeforeMonth(y, m + 1) - DaysBeforeMonth(y, m)
  }

  /** The day named by a date whose month and day may lie out of range. */
  function DayNumber(year: int, month: int, day: int): int {
    var y := year + (month - 1) / 12;
    var m := (month - 1) % 12 + 1;
    YearStart(y) + DaysBeforeMonth(y, m) + day - 1
  }

  /** Cuts a day of a 400-year cycle into 100-, 4- and 1-year cycles and a day of the year; the last
      100-year and the last 1-year cycle of each larger cycle absorb the leap day. */
  function Cuts(r: int): (int, int, int, int) {
    var c := r / 36_524 - r / 36_524 / 4;
    var r1 := r - 36_524 * c;
    var q := r1 / 1_461;
    var r2 := r1 - 1_461 * q;
    var e := r2 / 365 - r2 / 365 / 4;
    (c, q, e, r2 - 365 * e)
  }

  /** Year and day of the year. */
  function YearAndDay(d: int): (int, int) {
    var a := d + 719_162;
    var (c, q, e, yday) := Cuts(a % 146_097);
    (1 + 400 * (a / 146_097) + 100 * c + 4 * q + e, yday)
  }

  /** Month and day from the day of the year: a guess by 31-day months, corrected upwards. */
  function MonthAndDay(y: int, yday: int): (int, int)
    requires 0 <= yday < YearLength(y)
  {
    if Leap(y) && yday == 59 then (2, 29)
    else
      var day := if Leap(y) && yday > 59 then yday - 1 else yday;
      var guess := day / 31;
      var end := DAYS_BEFORE[guess + 1];
      if day >= end then (guess + 2, day - end + 1) else (guess + 1, day - DAYS_BEFORE[guess] + 1)
  }

  function Civil(d: int): Date {
    YearAndDayInRange(d);
    var (y, yday) := YearAndDay(d);
    var (m, day) := MonthAndDay(y, yday);
    Date(y, m, day)
  }

  predicate ValidDate(t: Date) {
    1 <= t.month <= 12 && 1 <= t.day <= MonthLength(t.year, t.month)
  }

  // ---------------------------------------------------------------- the calendar is a bijection

  lemma By4(x: int, q: int, r: int)
    requires x == 4 * q + r && 0 <= r < 4
    ensures x / 4 == q && x % 4 == r
  {}

  lemma By100(x: int, q: int, r: int)
    requires x == 100 * q + r && 0 <= r < 100
    ensures x / 100 == q && x % 100 == r
  {}

  lemma By400(x: int, q: int, r: int)
    requires x == 400 * q + r && 0 <= r < 400
    ensures x / 400 == q && x % 400 == r
  {}

  lemma CycleDivisions(a: int, c: int, q: int, e: int)
    requires 0 <= c <= 3 && 0 <= q <= 24 && 0 <= e <= 3
    ensures var y := 400 * a + 100 * c + 4 * q + e;
            y / 4 == 100 * a + 25 * c + q && y / 100 == 4 * a + c && y / 400 == a
  {
    var y := 400 * a + 100 * c + 4 * q + e;
    By4(y, 100 * a + 25 * c + q, e);
    By100(y, 4 * a + c, 4 * q + e);
    By400(y, a, 100 * c + 4 * q + e);
  }

  lemma CycleLeap(a: int, c: int, q: int, e: int)
    requires 0 <= c <= 3 && 0 <= q <= 24 && 0 <= e <= 3
    ensures Leap(1 + 400 * a + 100 * c + 4 * q + e) <==> e == 3 && (q < 24 || c == 3)
  {
    var y := 1 + 400 * a + 100 * c + 4 * q + e;
    if e < 3 {
      By4(y, 100 * a + 25 * c + q, e + 1);
    } else {
      By4(y, 100 * a + 25 * c + q + 1, 0);
      if q < 24 {
        By100(y, 4 * a + c, 4 * q + 4);
      } else {
        By100(y, 4 * a + c + 1, 0);
        if c < 3 {
          By400(y, a, 100 * c + 100);
        } else {
          By400(y, a + 1, 0);
        }
      }
    }
  }

  /** The cycle form of a year's first day. */
  lemma YearStartCycles(a: int, c: int, q: int, e: int)
    requires 0 <= c <= 3 && 0 <= q <= 24 && 0 <= e <= 3
    ensures YearStart(1 + 400 * a + 100 * c + 4 * q + e) == 146_097 * a + 36_524 * c + 1_461 * q + 365 * e - 719_162
    ensures Leap(1 + 400 * a + 100 * c + 4 * q + e) <==> e == 3 && (q < 24 || c == 3)
  {
    hide Leap;
    CycleLeap(a, c, q, e);
    CycleDivisions(a, c, q, e);
  }

  /** The cuts add up, and day 365 is left only in a leap year. */
  lemma CutsInRange(r: int)
    requires 0 <= r < 146_097
    ensures var (c, q, e, yday) := Cuts(r);
            && 0 <= c <= 3 && 0 <= q <= 24 && 0 <= e <= 3 && 0 <= yday <= 365
            && r == 36_524 * c + 1_461 * q + 365 * e + yday
            && (yday == 365 ==> e == 3 && (q < 24 || c == 3))
  {
    Quarter(r / 36_524);
    var c := r / 36_524 - r / 36_524 / 4;
    var r1 := r - 36_524 * c;
    assert 0 <= r1 <= 36_524 && (r1 == 36_524 ==> c == 3);
    FourYears(r1);
  }

  lemma Quarter(n: int)
    requires 0 <= n <= 4
    ensures n - n / 4 == if n == 4 then 3 else n
  {}

  lemma FourYears(r1: int)
    requires 0 <= r1 <= 36_524
    ensures var q := r1 / 1_461;
            var r2 := r1 - 1_461 * q;
            var e := r2 / 365 - r2 / 365 / 4;
            && 0 <= q <= 24 && 0 <= e <= 3 && 0 <= r2 - 365 * e <= 365
            && (r2 - 365 * e == 365 ==> e == 3 && (q < 24 || r1 == 36_524))
  {
    var q := r1 / 1_461;
    var r2 := r1 - 1_461 * q;
    assert 0 <= r2 <= 1_460;
    Quarter(r2 / 365);
  }

  lemma YearAndDayInRange(d: int)
    ensures var (y, yday) := YearAndDay(d); YearStart(y) + yday == d && 0 <= yday < YearLength(y)
  {
    hide YearStart, Leap, Cuts;
    var a := d + 719_162;
    CutsInRange(a % 146_097);
    var (c, q, e, yday) := Cuts(a % 146_097);
    YearStartCycles(a / 146_097, c, q, e);
  }

  lemma MonthAndDayInRange(y: int, yday: int)
    requires 0 <= yday < YearLength(y)
    ensures var (m, day) := MonthAndDay(y, yday);
            ValidDate(Date(y, m, day)) && DaysBeforeMonth(y, m) + day - 1 == yday
  {
    hide YearStart, Leap;
  }

  /** Every day number has a valid date, and that date names the day. */
  lemma CivilRoundTrip(d: int)
    ensures ValidDate(Civil(d))
    ensures var t := Civil(d); DayNumber(t.year, t.month, t.day) == d
  {
    hide YearStart, YearAndDay, MonthAndDay, Leap, DaysBeforeMonth;
    YearAndDayInRange(d);
    var (y, yday) := YearAndDay(d);
    MonthAndDayInRange(y, yday);
    WithinYear(Civil(d));
  }

  lemma YearStartStep(y: int)
    ensures YearStart(y + 1) == YearStart(y) + YearLength(y)
  {
    assert y / 4 == (y - 1) / 4 + if y % 4 == 0 then 1 else 0;
    assert y / 100 == (y - 1) / 100 + if y % 100 == 0 then 1 else 0;
    assert y / 400 == (y - 1) / 400 + if y % 400 == 0 then 1 else 0;
    LeapRule(y);
  }

  lemma LeapRule(y: int)
    ensures (y % 400 == 0 ==> y % 100 == 0) && (y % 100 == 0 ==> y % 4 == 0)
  {
    if y % 400 == 0 {
      Hundreds(y / 400);
    }
    if y % 100 == 0 {
      Fours(y / 100);
    }
  }

  lemma Hundreds(k: int)
    ensures 400 * k % 100 == 0
  {
    assert 400 * k == 100 * (4 * k);
  }

  lemma Fours(k: int)
    ensures 100 * k % 4 == 0
  {
    assert 100 * k == 4 * (25 * k);
  }

  lemma {:induction false} YearStartMonotone(y: int, z: int)
    requires y <= z
    ensures YearStart(y) <= YearStart(z)
    decreases z - y
  {
    if y < z {
      YearStartStep(y);
      YearStartMonotone(y + 1, z);
    }
  }

  lemma YearUnique(y: int, z: int, d: int)
    requires YearStart(y) <= d < YearStart(y) + YearLength(y)
    requires YearStart(z) <= d < YearStart(z) + YearLength(z)
    ensures y == z
  {
    hide YearStart, Leap;
    YearStartStep(y);
    YearStartStep(z);
    if y < z {
      YearStartMonotone(y + 1, z);
    } else if z < y {
      YearStartMonotone(z + 1, y);
    }
  }

  lemma MonthUnique(y: int, m: int, n: int, yday: int)
    requires 1 <= m <= 12 && 1 <= n <= 12
    requires DaysBeforeMonth(y, m) <= yday < DaysBeforeMonth(y, m + 1)
    requires DaysBeforeMonth(y, n) <= yday < DaysBeforeMonth(y, n + 1)
    ensures m == n
  {
    hide YearStart, Leap;
  }

  /** Every valid date is the date of the day it names, so dates and days match one to one. */
  lemma DateRoundTrip(t: Date)
    requires ValidDate(t)
    ensures Civil(DayNumber(t.year, t.month, t.day)) == t
  {
    hide YearStart, Leap, Civil, DayNumber;
    var d := DayNumber(t.year, t.month, t.day);
    var c := Civil(d);
    CivilRoundTrip(d);
    WithinYear(t);
    WithinYear(c);
    YearUnique(t.year, c.year, d);
    MonthUnique(t.year, t.month, c.month, d - YearStart(t.year));
  }

  lemma WithinYear(t: Date)
    requires ValidDate(t)
    ensures DayNumber(t.year, t.month, t.day) == YearStart(t.year) + DaysBeforeMonth(t.year, t.month) + t.day - 1
    ensures 0 <= DaysBeforeMonth(t.year, t.month) + t.day - 1 < YearLength(t.year)
  {
    hide YearStart, Leap;
  }

  /** 0 is Sunday. */
  function Weekday(d: int): int {
    (d + 4) % 7
  }

  // ---------------------------------------------------------------- quota periods

  const DAILY: string := "daily"
  const WEEKLY: string := "weekly"
  const MONTHLY: string := "monthly"

  function AddDate(t: int, years: int, months: int, days: int): int {
    var c := Civil(t / DAY);
    DayNumber(c.year + years, c.month + months, c.day + days) * DAY + t % DAY
  }

  /** Start and end of the period containing `now`; an unknown period name counts as daily. */
  function PeriodBounds(p: string, now: int): (int, int) {
    var c := Civil(now / DAY);
    if p == WEEKLY then
      var weekday := if Weekday(now / DAY) == 0 then 7 else Weekday(now / DAY);
      var start := DayNumber(c.year, c.month, c.day - weekday + 1) * DAY;
      (start, AddDate(start, 0, 0, 7))
    else if p == MONTHLY then
      var start := DayNumber(c.year, c.month, 1) * DAY;
      (start, AddDate(start, 0, 1, 0))
    else
      var start := DayNumber(c.year, c.month, c.day) * DAY;
      (start, AddDate(start, 0, 0, 1))
  }

  function TimeUntilReset(p: string, now: int): int {
    PeriodBounds(p, now).1 - now
  }

  /** Moving the day of the month moves the day number, however far out of range it goes. */
  lemma DayShifts(year: int, month: int, day: int, k: int)
    ensures DayNumber(year, month, day + k) == DayNumber(year, month, day) + k
  {}

  /** Periods as plain day ranges. */
  function FirstDay(p: string, d: int): int {
    if p == WEEKLY then d - (d + 3) % 7
    else if p == MONTHLY then d - (Civil(d).day - 1)
    else d
  }

  function PeriodDays(p: string, d: int): int {
    if p == WEEKLY then 7
    else if p == MONTHLY then CivilRoundTrip(d); MonthLength(Civil(d).year, Civil(d).month)
    else 1
  }

  /** December rolls over into January: one month on is always the length of the month away. */
  lemma NextMonth(y: int, m: int)
    requires 1 <= m <= 12
    ensures DayNumber(y, m + 1, 1) == DayNumber(y, m, 1) + MonthLength(y, m)
  {
    hide YearStart, Leap;
    if m == 12 {
      YearStartStep(y);
    }
  }

  lemma NextMonthDate(y: int, m: int)
    requires 1 <= m <= 12
    ensures Civil(DayNumber(y, m + 1, 1)) == if m == 12 then Date(y + 1, 1, 1) else Date(y, m + 1, 1)
  {
    hide Civil, YearStart, Leap;
    var first := if m == 12 then Date(y + 1, 1, 1) else Date(y, m + 1, 1);
    assert DayNumber(first.year, first.month, 1) == DayNumber(y, m + 1, 1);
    DateRoundTrip(first);
  }

  lemma BoundsAreDays(p: string, now: int)
    ensures var d := now / DAY;
            PeriodBounds(p, now) == (FirstDay(p, d) * DAY, (FirstDay(p, d) + PeriodDays(p, d)) * DAY)
  {
    hide Civil, DayNumber, MonthLength;
    var d := now / DAY;
    var c := Civil(d);
    CivilRoundTrip(d);
    var first := FirstDay(p, d);
    var s := Civil(first);
    CivilRoundTrip(first);
    assert first * DAY / DAY == first && first * DAY % DAY == 0;
    if p == WEEKLY {
      var weekday := if Weekday(d) == 0 then 7 else Weekday(d);
      assert weekday - 1 == (d + 3) % 7;
      DayShifts(c.year, c.month, c.day, 1 - weekday);
      DayShifts(s.year, s.month, s.day, 7);
    } else if p == MONTHLY {
      DayShifts(c.year, c.month, c.day, 1 - c.day);
      DateRoundTrip(Date(c.year, c.month, 1));
      NextMonth(c.year, c.month);
    } else {
      DayShifts(s.year, s.month, s.day, 1);
    }
  }

  /** The days of one period share their first day and length. */
  lemma DaysOfOnePeriod(p: string, d: int, e: int)
    requires FirstDay(p, d) <= e < FirstDay(p, d) + PeriodDays(p, d)
    ensures FirstDay(p, e) == FirstDay(p, d) && PeriodDays(p, e) == PeriodDays(p, d)
  {
    hide Civil, DayNumber, MonthLength;
    if p == MONTHLY {
      var c := Civil(d);
      CivilRoundTrip(d);
      var t := Date(c.year, c.month, e - FirstDay(p, d) + 1);
      assert ValidDate(t);
      DayShifts(c.year, c.month, c.day, t.day - c.day);
      DateRoundTrip(t);
    }
  }

  lemma DayInPeriod(p: string, d: int)
    ensures FirstDay(p, d) <= d < FirstDay(p, d) + PeriodDays(p, d)
  {
    CivilRoundTrip(d);
  }

  /** Every instant lies in its own period, so the time until reset is positive. */
  lemma PeriodContainsNow(p: string, now: int)
    ensures var (start, end) := PeriodBounds(p, now); start <= now < end
    ensures TimeUntilReset(p, now) > 0
  {
    BoundsAreDays(p, now);
    DayInPeriod(p, now / DAY);
  }

  /** Every instant of a period has the bounds of that period. */
  lemma PeriodStable(p: string, now: int, t: int)
    requires PeriodBounds(p, now).0 <= t < PeriodBounds(p, now).1
    ensures PeriodBounds(p, t) == PeriodBounds(p, now)
  {
    BoundsAreDays(p, now);
    BoundsAreDays(p, t);
    DaysOfOnePeriod(p, now / DAY, t / DAY);
  }

  /** Periods follow one another without gap: the end of one is the start of the next. */
  lemma PeriodsAdjacent(p: string, now: int)
    ensures PeriodBounds(p, PeriodBounds(p, now).1).0 == PeriodBounds(p, now).1
  {
    hide Civil, DayNumber, MonthLength;
    var d := now / DAY;
    var next := FirstDay(p, d) + PeriodDays(p, d);
    BoundsAreDays(p, now);
    BoundsAreDays(p, next * DAY);
    assert next * DAY / DAY == next;
    if p == MONTHLY {
      var c := Civil(d);
      CivilRoundTrip(d);
      DayShifts(c.year, c.month, c.day, 1 - c.day);
      NextMonth(c.year, c.month);
      NextMonthDate(c.year, c.month);
    }
  }

  /** Weekly periods start on Mondays and monthly ones on the first of a month. */
  lemma PeriodStartDay(p: string, now: int)
    ensures var first := PeriodBounds(p, now).0 / DAY;
            && PeriodBounds(p, now).0 == first * DAY
            && (p == "weekly" ==> Weekday(first) == 1)
            && (p == "monthly" ==> Civil(first) == Date(Civil(now / DAY).year, Civil(now / DAY).month, 1))
  {
    hide Civil, DayNumber, MonthLength, PeriodBounds;
    var d := now / DAY;
    BoundsAreDays(p, now);
    assert FirstDay(p, d) * DAY / DAY == FirstDay(p, d);
    if p == MONTHLY {
      var c := Civil(d);
      CivilRoundTrip(d);
      DayShifts(c.year, c.month, c.day, 1 - c.day);
      DateRoundTrip(Date(c.year, c.month, 1));
    }
  }

  lemma DayOf(t: Date, d: int)
    requires ValidDate(t) && DayNumber(t.year, t.month, t.day) == d
    ensures Civil(d) == t
  {
    hide Civil, DayNumber, ValidDate;
    DateRoundTrip(t);
  }

  lemma NewYearsDay(y: int)
    ensures ValidDate(Date(y, 1, 1)) && DayNumber(y, 1, 1) == YearStart(y)
  {
    hide YearStart, Leap;
    assert DaysBeforeMonth(y, 1) == 0 && DaysBeforeMonth(y, 2) == 31;
  }

  /** Where the count of days is anchored: day 0 is Thursday, 1 January 1970, and the zero time is midnight
      on 1 January of year 1. */
  lemma Anchors()
    ensures Civil(0) == Date(1970, 1, 1) && Weekday(0) == 4
    ensures ZERO_TIME % DAY == 0 && Civil(ZERO_TIME / DAY) == Date(1, 1, 1)
    ensures DAY == 24 * 60 * 60 * 1_000_000_000
  {
    hide Civil, DayNumber, ValidDate;
    NewYearsDay(1970);
    NewYearsDay(1);
    assert YearStart(1970) == 0 && YearStart(1) == -719_162;
    assert ZERO_TIME == -719_162 * DAY;
    DayOf(Date(1970, 1, 1), 0);
    DayOf(Date(1, 1, 1), -719_162);
  }

  /** Later instants have later or equal period starts; a different start is a later one past the old end. */
  lemma PeriodStartMonotone(p: string, t: int, now: int)
    requires t <= now
    ensures PeriodBounds(p, t).0 <= PeriodBounds(p, now).0
    ensures PeriodBounds(p, t).0 < PeriodBounds(p, now).0 ==> PeriodBounds(p, t).1 <= PeriodBounds(p, now).0
  {
    PeriodContainsNow(p, t);
    PeriodContainsNow(p, now);
    var (start, end) := PeriodBounds(p, t);
    if now < end {
      PeriodStable(p, t, now);
    } else if PeriodBounds(p, now).0 < end {
      PeriodStable(p, now, end);
      PeriodsAdjacent(p, t);
    }
  }
}
