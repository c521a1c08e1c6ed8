/**
  The proleptic Gregorian calendar in UTC, from year 1 on: dates, the day
  number that orders them, and minutes.
*/
module Calendar {
  import Division

  datatype Date = Date(year: int, month: int, day: int)

  datatype Moment = Moment(date: Date, hour: int, minute: int)

  predicate Leap(year: int) { year % 4 == 0 && (year % 100 != 0 || year % 400 == 0) }

  function MonthDays(year: int, month: int): int {
    if month == 2 then (if Leap(year) then 29 else 28)
    else if month in {4, 6, 9, 11} then 30
    else 31
  }

  predicate ValidDate(d: Date) { d.year >= 1 && 1 <= d.month <= 12 && 1 <= d.day <= MonthDays(d.year, d.month) }

  predicate Valid(m: Moment) { ValidDate(m.date) && 0 <= m.hour < 24 && 0 <= m.minute < 60 }

  function DaysBeforeMonth(year: int, month: int): (n: int)
    requires 1 <= month <= 13
    decreases month
  {
    if month == 1 then 0 else DaysBeforeMonth(year, month - 1) + MonthDays(year, month - 1)
  }

  function DaysBeforeYear(year: int): int
    requires year >= 1
  {
    if year == 1 then 0 else DaysBeforeYear(year - 1) + DaysBeforeMonth(year - 1, 13)
  }

  // 1 January of year 1 is day 0; it was a Monday.
  function DayNumber(d: Date): int
    requires ValidDate(d)
  {
    DaysBeforeYear(d.year) + DaysBeforeMonth(d.year, d.month) + d.day - 1
  }

  function LeapsBefore(year: int): int { (year - 1) / 4 - (year - 1) / 100 + (year - 1) / 400 }

  lemma OneMoreLeap(year: int)
    requires year >= 1
    ensures LeapsBefore(year + 1) == LeapsBefore(year) + if Leap(year) then 1 else 0
  {
    EveryFour(year);
    EveryHundred(year);
    EveryFourHundred(year);
    HundredIsFour(year);
    FourHundredIsHundred(year);
  }

  lemma HundredIsFour(n: int)
    ensures n % 100 == 0 ==> n % 4 == 0
  {
  }

  lemma FourHundredIsHundred(n: int)
    ensures n % 400 == 0 ==> n % 100 == 0
  {
  }

  lemma EveryFour(n: int)
    ensures n / 4 == (n - 1) / 4 + if n % 4 == 0 then 1 else 0
  {
  }

  lemma EveryHundred(n: int)
    ensures n / 100 == (n - 1) / 100 + if n % 100 == 0 then 1 else 0
  {
  }

  lemma EveryFourHundred(n: int)
    ensures n / 400 == (n - 1) / 400 + if n % 400 == 0 then 1 else 0
  {
  }

  // The usual closed form of the days before a year.
  lemma {:induction false} DaysBeforeYearClosed(year: int)
    requires year >= 1
    ensures DaysBeforeYear(year) == 365 * (year - 1) + LeapsBefore(year)
  {
    if year > 1 {
      DaysBeforeYearClosed(year - 1);
      OneMoreLeap(year - 1);
      YearLength(year - 1);
    }
  }

  lemma YearLength(year: int)
    ensures DaysBeforeMonth(year, 13) == 365 + if Leap(year) then 1 else 0
  {
    var february := DaysBeforeMonth(year, 3);
    assert february == DaysBeforeMonth(year, 2) + MonthDays(year, 2) == 31 + MonthDays(year, 2);
    assert DaysBeforeMonth(year, 5) == february + 61;
    assert DaysBeforeMonth(year, 7) == february + 122;
    assert DaysBeforeMonth(year, 9) == february + 184;
    assert DaysBeforeMonth(year, 11) == february + 245;
    assert DaysBeforeMonth(year, 13) == february + 306;
  }

  // Sunday is 0.
  function Weekday(d: Date): (w: int)
    requires ValidDate(d)
    ensures 0 <= w < 7
  {
    (DayNumber(d) + 1) % 7
  }

  // time.Date with one more day, normalised.
  function NextDay(d: Date): Date {
    if d.day < MonthDays(d.year, d.month) then d.(day := d.day + 1)
    else if d.month < 12 then Date(d.year, d.month + 1, 1)
    else Date(d.year + 1, 1, 1)
  }

  function Minutes(m: Moment): int
    requires Valid(m)
  {
    DayNumber(m.date) * 1440 + m.hour * 60 + m.minute
  }

  function NextMinute(m: Moment): Moment {
    if m.minute < 59 then m.(minute := m.minute + 1)
    else if m.hour < 23 then Moment(m.date, m.hour + 1, 0)
    else Moment(NextDay(m.date), 0, 0)
  }

  // AddDate(years, 0, 0): 29 February in a common year becomes 1 March.
  function AddYears(d: Date, years: int): Date {
    if d.month == 2 && d.day == 29 && !Leap(d.year + years) then Date(d.year + years, 3, 1)
    else d.(year := d.year + years)
  }

  predicate Before(a: Date, b: Date) {
    a.year < b.year || (a.year == b.year && (a.month < b.month || (a.month == b.month && a.day < b.day)))
  }

  lemma NextDayFollows(d: Date)
    requires ValidDate(d)
    ensures ValidDate(NextDay(d)) && DayNumber(NextDay(d)) == DayNumber(d) + 1
  {
    hide DaysBeforeMonth, DaysBeforeYear;
    if d.day == MonthDays(d.year, d.month) {
      MonthEnds(d.year, d.month);
      YearEnds(d.year);
      JanuaryFirst(d.year + 1);
    }
  }

  lemma MonthEnds(year: int, month: int)
    requires 1 <= month <= 12
    ensures DaysBeforeMonth(year, month + 1) == DaysBeforeMonth(year, month) + MonthDays(year, month)
  {
  }

  lemma YearEnds(year: int)
    requires year >= 1
    ensures DaysBeforeYear(year + 1) == DaysBeforeYear(year) + DaysBeforeMonth(year, 13)
  {
  }

  lemma NextMinuteFollows(m: Moment)
    requires Valid(m)
    ensures Valid(NextMinute(m)) && Minutes(NextMinute(m)) == Minutes(m) + 1
  {
    NextDayFollows(m.date);
  }

  lemma {:induction false} MonthsGrow(year: int, a: int, b: int)
    requires 1 <= a < b <= 13
    ensures DaysBeforeMonth(year, a) + MonthDays(year, a) <= DaysBeforeMonth(year, b)
    decreases b
  {
    if a < b - 1 { MonthsGrow(year, a, b - 1); }
  }

  lemma JanuaryFirst(year: int)
    ensures DaysBeforeMonth(year, 1) == 0 && MonthDays(year, 1) == 31
  {
  }

  lemma {:induction false} YearsGrow(a: int, b: int)
    requires 1 <= a < b
    ensures DaysBeforeYear(a) + DaysBeforeMonth(a, 13) <= DaysBeforeYear(b)
    decreases b
  {
    hide DaysBeforeMonth;
    if a < b - 1 {
      YearsGrow(a, b - 1);
      MonthsGrow(b - 1, 1, 13);
      JanuaryFirst(b - 1);
    }
  }

  // The day number orders dates as year, month and day do, so it names each
  // date once.
  lemma DayNumberOrders(a: Date, b: Date)
    requires ValidDate(a) && ValidDate(b)
    ensures Before(a, b) <==> DayNumber(a) < DayNumber(b)
    ensures DayNumber(a) == DayNumber(b) <==> a == b
  {
    if Before(a, b) {
      Earlier(a, b);
    } else if Before(b, a) {
      Earlier(b, a);
    }
  }

  lemma Earlier(a: Date, b: Date)
    requires ValidDate(a) && ValidDate(b) && Before(a, b)
    ensures DayNumber(a) < DayNumber(b)
  {
    MonthsGrow(a.year, a.month, 13);
    if b.month > 1 { MonthsGrow(b.year, 1, b.month); }
    if a.year < b.year {
      YearsGrow(a.year, b.year);
    } else if a.month < b.month {
      MonthsGrow(a.year, a.month, b.month);
    }
  }

  // -------- four hundred years --------

  function Later400(d: Date): Date { d.(year := d.year + 400) }

  lemma LeapRepeats(year: int)
    ensures Leap(year + 400) <==> Leap(year)
  {
    FoursRepeat(year);
    HundredsRepeat(year);
    FourHundredsRepeat(year);
  }

  lemma FoursRepeat(n: int)
    ensures (n + 400) % 4 == n % 4 && (n + 400) / 4 == n / 4 + 100
  {
  }

  lemma HundredsRepeat(n: int)
    ensures (n + 400) % 100 == n % 100 && (n + 400) / 100 == n / 100 + 4
  {
    assert n + 400 == 100 * (n / 100 + 4) + n % 100;
  }

  lemma FourHundredsRepeat(n: int)
    ensures (n + 400) % 400 == n % 400 && (n + 400) / 400 == n / 400 + 1
  {
    assert n + 400 == 400 * (n / 400 + 1) + n % 400;
  }

  lemma {:induction false} MonthsRepeat(year: int, month: int)
    requires 1 <= month <= 13
    ensures DaysBeforeMonth(year + 400, month) == DaysBeforeMonth(year, month)
    decreases month
  {
    hide Leap;
    LeapRepeats(year);
    if month > 1 { MonthsRepeat(year, month - 1); }
  }

  // The calendar repeats, weekdays included: 146097 days are a whole number of
  // weeks.
  lemma CalendarRepeats(d: Date)
    requires ValidDate(d)
    ensures ValidDate(Later400(d)) && DayNumber(Later400(d)) == DayNumber(d) + 146097 && Weekday(Later400(d)) == Weekday(d)
  {
    hide DaysBeforeYear, DaysBeforeMonth, Leap;
    LeapRepeats(d.year);
    MonthsRepeat(d.year, d.month);
    DaysBeforeYearClosed(d.year);
    DaysBeforeYearClosed(d.year + 400);
    FoursRepeat(d.year - 1);
    HundredsRepeat(d.year - 1);
    FourHundredsRepeat(d.year - 1);
    WholeWeeks(DayNumber(d) + 1);
  }

  lemma WholeWeeks(n: int)
    ensures (n + 146097) % 7 == n % 7
  {
  }

  // -------- the calendar on the wall --------

  // Thirty days hath September.
  lemma MonthLengths(year: int)
    ensures forall m :: m in {1, 3, 5, 7, 8, 10, 12} ==> MonthDays(year, m) == 31
    ensures forall m :: m in {4, 6, 9, 11} ==> MonthDays(year, m) == 30
    ensures MonthDays(year, 2) == if Leap(year) then 29 else 28
  {
  }

  // Every fourth year, but of the century years only every fourth.
  lemma LeapYears(k: int, j: int)
    ensures !Leap(4 * k + 1) && !Leap(4 * k + 2) && !Leap(4 * k + 3)
    ensures Leap(400 * k) && !Leap(400 * k + 100) && !Leap(400 * k + 200) && !Leap(400 * k + 300)
    ensures 1 <= j < 25 ==> Leap(100 * k + 4 * j)
  {
    Centuries(k);
    if 1 <= j < 25 { InCentury(k, j); }
  }

  lemma Centuries(k: int)
    ensures Leap(400 * k) && !Leap(400 * k + 100) && !Leap(400 * k + 200) && !Leap(400 * k + 300)
  {
    RestOf(400 * k, 400, k, 0);
    RestOf(400 * k + 100, 400, k, 100);
    RestOf(400 * k + 200, 400, k, 200);
    RestOf(400 * k + 300, 400, k, 300);
    RestOf(400 * k, 4, 100 * k, 0);
    RestOf(400 * k + 100, 100, 4 * k + 1, 0);
    RestOf(400 * k + 200, 100, 4 * k + 2, 0);
    RestOf(400 * k + 300, 100, 4 * k + 3, 0);
  }

  lemma InCentury(k: int, j: int)
    requires 1 <= j < 25
    ensures Leap(100 * k + 4 * j)
  {
    RestOf(100 * k + 4 * j, 100, k, 4 * j);
    RestOf(100 * k + 4 * j, 4, 25 * k + j, 0);
  }

  lemma RestOf(n: int, m: int, q: int, rest: int)
    requires 0 <= rest < m && n == m * q + rest
    ensures n % m == rest
  {
    Division.RemainderOf(q, m, rest);
  }

  // 1 January 1970 was a Thursday.
  lemma ThursdayIn1970()
    ensures Weekday(Date(1970, 1, 1)) == 4
  {
    hide DaysBeforeYear;
    DaysBeforeYearClosed(1970);
    assert LeapsBefore(1970) == 477;
  }
}
