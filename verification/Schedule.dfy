/**
  Cron schedules: reading a field, and finding the next minute a schedule
  selects.
*/
module Schedule {
  import opened CellAddress
  import opened Calendar
  import opened Division

  const LOOKAHEAD_YEARS := 8

  // -------- one field --------

  // The part of a list item before `/`.
  datatype Base = Star | Single(value: int) | Span(first: int, last: int)

  datatype Segment = Segment(base: Base, step: Option<int>)

  predicate InBounds(v: int, minimum: int, maximum: int) { minimum <= v <= maximum }

  // The errors of a list item: a value or step out of range, a range reversed.
  predicate GoodSegment(s: Segment, minimum: int, maximum: int) {
    && (s.step.Some? ==> 1 <= s.step.value <= maximum - minimum + 1)
    && match s.base
       case Star => true
       case Single(v) => InBounds(v, minimum, maximum)
       case Span(first, last) => InBounds(first, minimum, maximum) && InBounds(last, minimum, maximum) && first <= last
  }

  function SegmentStart(s: Segment, minimum: int): int {
    match s.base case Star => minimum case Single(v) => v case Span(first, _) => first
  }

  // A single value with a step runs to the end of the field.
  function SegmentEnd(s: Segment, maximum: int): int {
    match s.base
    case Star => maximum
    case Single(v) => if s.step.Some? then maximum else v
    case Span(_, last) => last
  }

  function SegmentStep(s: Segment): int { if s.step.Some? then s.step.value else 1 }

  // Whether a list item names a value.
  predicate Selects(s: Segment, v: int, minimum: int, maximum: int)
    requires GoodSegment(s, minimum, maximum)
  {
    && SegmentStart(s, minimum) <= v <= SegmentEnd(s, maximum)
    && (v - SegmentStart(s, minimum)) % SegmentStep(s) == 0
  }

  // v is reached from `first` in whole steps.
  ghost predicate StepsTo(first: int, step: int, v: int) { exists k: nat :: v == first + k * step }

  // `*` names every value, `a` that value and `a-b` those between; `/s` takes every
  // s-th of them from the first on, where `a/s` goes on to the end of the field.
  lemma SelectsMeans(s: Segment, v: int, minimum: int, maximum: int)
    requires GoodSegment(s, minimum, maximum)
    ensures s == Segment(Star, None) ==> (Selects(s, v, minimum, maximum) <==> minimum <= v <= maximum)
    ensures s.base.Single? && s.step.None? ==> (Selects(s, v, minimum, maximum) <==> v == s.base.value)
    ensures s.base.Span? && s.step.None? ==> (Selects(s, v, minimum, maximum) <==> s.base.first <= v <= s.base.last)
    ensures s.base.Star? && s.step.Some? ==> (Selects(s, v, minimum, maximum) <==> v <= maximum && StepsTo(minimum, s.step.value, v))
    ensures s.base.Single? && s.step.Some? ==> (Selects(s, v, minimum, maximum) <==> v <= maximum && StepsTo(s.base.value, s.step.value, v))
    ensures s.base.Span? && s.step.Some? ==> (Selects(s, v, minimum, maximum) <==> v <= s.base.last && StepsTo(s.base.first, s.step.value, v))
  {
    var first, step := SegmentStart(s, minimum), SegmentStep(s);
    if s.step.None? { ByOne(v - first); }
    if v >= first && (v - first) % step == 0 {
      var k: nat := (v - first) / step;
      assert v == first + k * step;
    }
    if StepsTo(first, step, v) {
      var k: nat :| v == first + k * step;
      assert k * step >= 0;
      RemainderOf(k, step, 0);
    }
  }

  lemma ByOne(n: int)
    ensures n % 1 == 0
  {
  }

  // An item is refused for a value or a step out of range, or a range that runs
  // backwards.
  lemma GoodMeans(s: Segment, minimum: int, maximum: int)
    ensures GoodSegment(s, minimum, maximum)
       <==> && !(s.step.Some? && (s.step.value < 1 || s.step.value > maximum - minimum + 1))
            && !(s.base.Single? && (s.base.value < minimum || s.base.value > maximum))
            && !(s.base.Span? && (s.base.first < minimum || s.base.last > maximum || s.base.first > s.base.last))
  {
  }

  // Weekday 7 is Sunday, which is stored at 0.
  function IndexOf(v: int, sundaySeven: bool): int { if sundaySeven && v == 7 then 0 else v }

  ghost predicate Allows(segments: seq<Segment>, index: int, minimum: int, maximum: int, sundaySeven: bool)
    requires forall s :: s in segments ==> GoodSegment(s, minimum, maximum)
  {
    exists s, v :: s in segments && Selects(s, v, minimum, maximum) && IndexOf(v, sundaySeven) == index
  }

  // In the weekday field 0 and 7 are both Sunday, stored at 0; in the others every
  // value stands for itself.
  lemma SundayIsBoth(segments: seq<Segment>, index: int)
    requires forall s :: s in segments ==> GoodSegment(s, 0, 7)
    ensures Allows(segments, 0, 0, 7, true) <==> exists s :: s in segments && (Selects(s, 0, 0, 7) || Selects(s, 7, 0, 7))
    ensures 1 <= index <= 6 ==> (Allows(segments, index, 0, 7, true) <==> exists s :: s in segments && Selects(s, index, 0, 7))
    ensures !Allows(segments, 7, 0, 7, true)
  {
    hide Selects;
    if s :| s in segments && Selects(s, 0, 0, 7) { assert IndexOf(0, true) == 0; }
    if s :| s in segments && Selects(s, 7, 0, 7) { assert IndexOf(7, true) == 0; }
    if s :| s in segments && Selects(s, index, 0, 7) { assert 1 <= index <= 6 ==> IndexOf(index, true) == index; }
  }

  lemma OthersAreThemselves(segments: seq<Segment>, minimum: int, maximum: int, index: int)
    requires forall s :: s in segments ==> GoodSegment(s, minimum, maximum)
    ensures Allows(segments, index, minimum, maximum, false) <==> exists s :: s in segments && Selects(s, index, minimum, maximum)
  {
    hide Selects;
    if s :| s in segments && Selects(s, index, minimum, maximum) { assert IndexOf(index, false) == index; }
  }

  method FillSegment(s: Segment, minimum: int, maximum: int, sundaySeven: bool, allowed: array<bool>)
    requires 0 <= minimum <= maximum && allowed.Length == maximum + 1 && GoodSegment(s, minimum, maximum)
    modifies allowed
    ensures forall i :: 0 <= i <= maximum ==>
                          (allowed[i] <==> old(allowed[i])
                                           || exists v :: Selects(s, v, minimum, maximum) && IndexOf(v, sundaySeven) == i)
  {
    var start, end, step := SegmentStart(s, minimum), SegmentEnd(s, maximum), SegmentStep(s);
    var value := start;
    while value <= end
      invariant start <= value && (value - start) % step == 0
      invariant forall i :: 0 <= i <= maximum ==>
                              (allowed[i] <==> old(allowed[i])
                                               || exists v :: v < value && Selects(s, v, minimum, maximum) && IndexOf(v, sundaySeven) == i)
    {
      allowed[IndexOf(value, sundaySeven)] := true;
      NoValueBetween(s, value, minimum, maximum);
      StepKeeps(value - start, step);
      value := value + step;
    }
  }

  lemma NoValueBetween(s: Segment, value: int, minimum: int, maximum: int)
    requires GoodSegment(s, minimum, maximum) && Selects(s, value, minimum, maximum)
    ensures forall v :: v < value + SegmentStep(s) && Selects(s, v, minimum, maximum) ==> v <= value
  {
    var start, step := SegmentStart(s, minimum), SegmentStep(s);
    forall v | v < value + step && Selects(s, v, minimum, maximum)
      ensures v <= value
    {
      if v > value {
        SameRemainder(value - start, v - start, step);
        assert false;
      }
    }
  }

  lemma SameRemainder(a: int, b: int, step: int)
    requires step >= 1 && 0 <= a < b < a + step && a % step == 0
    ensures b % step == b - a != 0
  {
    var q := a / step;
    assert b == q * step + (b - a);
    RemainderOf(q, step, b - a);
  }

  lemma StepKeeps(a: int, step: int)
    requires step >= 1 && 0 <= a && a % step == 0
    ensures (a + step) % step == 0
  {
    var q := a / step;
    assert a + step == (q + 1) * step + 0;
    RemainderOf(q + 1, step, 0);
  }

  // A parsed field: refused when an item is bad or nothing is selected,
  // otherwise exactly the values its items name.
  method ParseField(segments: seq<Segment>, minimum: int, maximum: int, sundaySeven: bool) returns (r: Option<seq<bool>>)
    requires 0 <= minimum <= maximum
    ensures (exists s :: s in segments && !GoodSegment(s, minimum, maximum)) ==> r.None?
    ensures r.Some? ==>
              && (forall s :: s in segments ==> GoodSegment(s, minimum, maximum))
              && |r.value| == maximum + 1
              && (forall i :: 0 <= i <= maximum ==> (r.value[i] <==> Allows(segments, i, minimum, maximum, sundaySeven)))
    ensures r.None? && (forall s :: s in segments ==> GoodSegment(s, minimum, maximum)) ==>
              forall i :: 0 <= i <= maximum ==> !Allows(segments, i, minimum, maximum, sundaySeven)
  {
    var allowed := new bool[maximum + 1](_ => false);
    var k := 0;
    while k < |segments|
      invariant 0 <= k <= |segments|
      invariant forall s :: s in segments[..k] ==> GoodSegment(s, minimum, maximum)
      invariant forall i :: 0 <= i <= maximum ==> (allowed[i] <==> Allows(segments[..k], i, minimum, maximum, sundaySeven))
    {
      var s := segments[k];
      if !GoodSegment(s, minimum, maximum) { return None; }
      assert segments[..k + 1] == segments[..k] + [s];
      FillSegment(s, minimum, maximum, sundaySeven, allowed);
      k := k + 1;
    }
    assert segments[..k] == segments;
    var i := 0;
    while i <= maximum
      invariant 0 <= i <= maximum + 1
      invariant forall j :: 0 <= j < i ==> !allowed[j]
    {
      if allowed[i] { return Some(allowed[..]); }
      i := i + 1;
    }
    r := None;
  }

  // -------- the schedule --------

  datatype Cron = Cron(minute: seq<bool>, hour: seq<bool>, day: seq<bool>, month: seq<bool>, weekday: seq<bool>,
                       dayUnrestricted: bool, weekdayUnrestricted: bool)
  {
    predicate WellFormed() { |minute| == 60 && |hour| == 24 && |day| == 32 && |month| == 13 && |weekday| == 8 }

    // Day and weekday are alternatives only when both restrict.
    predicate MatchesDay(d: Date)
      requires WellFormed() && ValidDate(d)
    {
      if dayUnrestricted || weekdayUnrestricted then day[d.day] && weekday[Weekday(d)]
      else day[d.day] || weekday[Weekday(d)]
    }

    predicate MatchesDate(d: Date)
      requires WellFormed() && ValidDate(d)
    {
      month[d.month] && MatchesDay(d)
    }

    predicate Matches(m: Moment)
      requires WellFormed() && Valid(m)
    {
      MatchesDate(m.date) && hour[m.hour] && minute[m.minute]
    }

    predicate HasTime()
      requires WellFormed()
    {
      (exists h :: 0 <= h < 24 && hour[h]) && (exists n :: 0 <= n < 60 && minute[n])
    }
  }

  // A day matches by its number or its weekday when both fields restrict, and by
  // both when either is open.
  lemma DayMatches(c: Cron, d: Date)
    requires c.WellFormed() && ValidDate(d)
    ensures !c.dayUnrestricted && !c.weekdayUnrestricted && (c.day[d.day] || c.weekday[Weekday(d)]) ==> c.MatchesDay(d)
    ensures c.day[d.day] && c.weekday[Weekday(d)] ==> c.MatchesDay(d)
    ensures c.MatchesDay(d) ==> c.day[d.day] || c.weekday[Weekday(d)]
    ensures (c.dayUnrestricted || c.weekdayUnrestricted) && c.MatchesDay(d) ==> c.day[d.day] && c.weekday[Weekday(d)]
  {
    hide DayNumber;
  }

  // Month, hour and minute always count.
  lemma MatchesMeans(c: Cron, m: Moment)
    requires c.WellFormed() && Valid(m)
    ensures c.Matches(m) <==> c.month[m.date.month] && c.MatchesDay(m.date) && c.hour[m.hour] && c.minute[m.minute]
  {
  }

  // A date is searched while its midnight is before the moment LOOKAHEAD_YEARS
  // after the first candidate.
  predicate InReach(d: Date, start: Moment) {
    var limit := AddYears(start.date, LOOKAHEAD_YEARS);
    Before(d, limit) || (d == limit && (start.hour > 0 || start.minute > 0))
  }

  // Matching moments from `start` on.
  ghost predicate Candidate(c: Cron, start: Moment, m: Moment)
    requires c.WellFormed() && Valid(start)
  {
    Valid(m) && c.Matches(m) && Minutes(m) >= Minutes(start)
  }

  // The first matching minute of one day, searched by hour and minute.
  method FirstOn(c: Cron, d: Date, start: Moment) returns (r: Option<Moment>)
    requires c.WellFormed() && ValidDate(d) && Valid(start) && c.MatchesDate(d)
    ensures r.Some? ==> Candidate(c, start, r.value) && r.value.date == d
    ensures r.Some? ==> forall m :: Candidate(c, start, m) && m.date == d ==> Minutes(r.value) <= Minutes(m)
    ensures r.None? ==> forall m :: Candidate(c, start, m) ==> m.date != d
  {
    var h := 0;
    while h < 24
      invariant 0 <= h <= 24
      invariant forall m :: Candidate(c, start, m) && m.date == d ==> m.hour >= h
    {
      if c.hour[h] {
        var n := 0;
        while n < 60
          invariant 0 <= n <= 60
          invariant forall m :: Candidate(c, start, m) && m.date == d ==> m.hour > h || (m.hour == h && m.minute >= n)
        {
          if c.minute[n] {
            var candidate := Moment(d, h, n);
            if Minutes(candidate) >= Minutes(start) { return Some(candidate); }
          }
          n := n + 1;
        }
      }
      h := h + 1;
    }
    r := None;
  }

  // The next minute a schedule selects strictly after `after`.  `nanos` is how
  // far into its minute the given instant lies.
  method Next(c: Cron, after: Moment, nanos: nat) returns (r: Option<Moment>)
    requires c.WellFormed() && Valid(after) && nanos < 60000000000
    ensures r.Some? ==> Valid(r.value) && c.Matches(r.value) && Instant(r.value, 0) > Instant(after, nanos)
    ensures r.Some? ==>
              forall m :: Valid(m) && c.Matches(m) && Instant(m, 0) > Instant(after, nanos) ==> Instant(r.value, 0) <= Instant(m, 0)
    ensures r.Some? <==>
            exists m :: Candidate(c, NextMinute(after), m) && InReach(m.date, NextMinute(after))
  {
    NextMinuteFollows(after);
    var start := NextMinute(after);
    LimitIsDate(start.date);
    var limit := AddYears(start.date, LOOKAHEAD_YEARS);
    var date := start.date;
    while InReach(date, start)
      invariant ValidDate(date) && DayNumber(start.date) <= DayNumber(date)
      invariant forall m :: Candidate(c, start, m) ==> DayNumber(m.date) >= DayNumber(date)
      decreases DayNumber(limit) + 1 - DayNumber(date)
    {
      DayNumberOrders(date, limit);
      if c.MatchesDate(date) {
        r := FirstOn(c, date, start);
        if r.Some? {
          forall m | Candidate(c, start, m)
            ensures Minutes(r.value) <= Minutes(m)
          {
            DayNumberOrders(date, m.date);
          }
          return;
        }
      }
      forall m | Candidate(c, start, m)
        ensures DayNumber(m.date) >= DayNumber(date) + 1
      {
        DayNumberOrders(date, m.date);
      }
      NextDayFollows(date);
      date := NextDay(date);
    }
    forall m | Candidate(c, start, m)
      ensures !InReach(m.date, start)
    {
      DayNumberOrders(date, limit);
      DayNumberOrders(m.date, limit);
    }
    r := None;
  }

  function Instant(m: Moment, nanos: nat): int
    requires Valid(m)
  {
    Minutes(m) * 60000000000 + nanos
  }

  lemma LimitIsDate(d: Date)
    requires ValidDate(d)
    ensures ValidDate(AddYears(d, LOOKAHEAD_YEARS))
  {
  }

  // -------- eight years are enough --------

  // The month and day fields admit a date that exists in a leap year.
  predicate AdmitsDate(c: Cron, month: int, day: int)
    requires c.WellFormed()
  {
    1 <= month <= 12 && 1 <= day <= MonthDays(4, month) && c.month[month] && c.day[day]
  }

  // Some weekday is allowed.
  predicate AdmitsWeekday(c: Cron)
    requires c.WellFormed()
  {
    exists w :: 0 <= w < 7 && c.weekday[w]
  }

  predicate AdmitsMonth(c: Cron)
    requires c.WellFormed()
  {
    exists month :: 1 <= month <= 12 && c.month[month]
  }

  // Both fields restrict, so either of them is enough.
  predicate EitherRule(c: Cron) { !c.dayUnrestricted && !c.weekdayUnrestricted }

  predicate EveryWeekday(c: Cron)
    requires c.WellFormed()
  {
    forall w :: 0 <= w < 7 ==> c.weekday[w]
  }

  // The days of any month that the field allows fall on all seven weekdays.
  predicate EveryResidue(c: Cron)
    requires c.WellFormed()
  {
    forall r :: 0 <= r < 7 ==> SomeDayLeaves(c, r)
  }

  predicate SomeDayLeaves(c: Cron, r: int)
    requires c.WellFormed()
  {
    exists day :: 1 <= day <= 28 && c.day[day] && day % 7 == r
  }

  // A date the fields let through in some year.
  ghost predicate Satisfiable(c: Cron)
    requires c.WellFormed()
  {
    var date := exists month, day :: AdmitsDate(c, month, day);
    if EitherRule(c) then date || (AdmitsMonth(c) && AdmitsWeekday(c)) else date && AdmitsWeekday(c)
  }

  // What the search looks for and finds.
  ghost predicate Found(c: Cron, start: Moment)
    requires c.WellFormed() && Valid(start)
  {
    exists m :: Candidate(c, start, m) && InReach(m.date, start)
  }

  lemma BesideCentury(year: int)
    requires year % 4 == 0 && !Leap(year)
    ensures Leap(year + 4) && Leap(year - 4)
  {
    assert year == 100 * (year / 100);
    NearHundred(year / 100);
  }

  lemma NearHundred(k: int)
    ensures (100 * k + 4) % 100 == 4 && (100 * k + 4) % 4 == 0
    ensures (100 * k - 4) % 100 == 96 && (100 * k - 4) % 4 == 0
  {
    ModHundred(100 * k + 4, k, 4);
    ModHundred(100 * k - 4, k - 1, 96);
    ModFour(100 * k + 4, 25 * k + 1);
    ModFour(100 * k - 4, 25 * k - 1);
  }

  lemma ModHundred(n: int, q: int, r: int)
    requires n == 100 * q + r && 0 <= r < 100
    ensures n % 100 == r
  {
  }

  lemma ModFour(n: int, q: int)
    requires n == 4 * q
    ensures n % 4 == 0
  {
  }

  lemma LeapYearAhead(year: int) returns (leap: int)
    ensures year < leap <= year + 8 && Leap(leap)
    ensures leap == year + 8 ==> Leap(year)
  {
    leap := year + 4 - year % 4;
    if !Leap(leap) {
      BesideCentury(leap);
      leap := leap + 4;
    }
  }

  // A whole later day serves any start before it.
  lemma LaterDayServes(c: Cron, start: Moment, d: Date)
    requires c.WellFormed() && Valid(start) && c.HasTime()
    requires ValidDate(d) && c.MatchesDate(d) && Before(start.date, d)
    ensures exists m :: Candidate(c, start, m) && m.date == d
  {
    var h :| 0 <= h < 24 && c.hour[h];
    var n :| 0 <= n < 60 && c.minute[n];
    DayNumberOrders(start.date, d);
    assert Candidate(c, start, Moment(d, h, n));
  }

  lemma NextYearServes(c: Cron, start: Moment, month: int, day: int)
    requires c.WellFormed() && Valid(start) && c.HasTime() && 1 <= month <= 12 && 1 <= day <= MonthDays(1, month)
    requires c.MatchesDate(Date(start.date.year + 1, month, day))
    ensures Found(c, start)
  {
    var d := Date(start.date.year + 1, month, day);
    LaterDayServes(c, start, d);
    assert InReach(d, start);
  }

  // The days of a month that fall on one weekday share their remainder by seven.
  lemma ResidueFor(year: int, month: int, w: int) returns (r: int)
    requires year >= 1 && 1 <= month <= 12 && 0 <= w < 7
    ensures 0 <= r < 7
    ensures forall day :: 1 <= day <= 28 && day % 7 == r ==> Weekday(Date(year, month, day)) == w
  {
    var before := DaysBeforeYear(year) + DaysBeforeMonth(year, month);
    r := (w - before) % 7;
    forall day | 1 <= day <= 28 && day % 7 == r
      ensures Weekday(Date(year, month, day)) == w
    {
      assert DayNumber(Date(year, month, day)) + 1 == before + day;
      SumBySeven(before, day, w);
    }
  }

  lemma SumBySeven(before: int, day: int, w: int)
    requires 0 <= w < 7 && day % 7 == (w - before) % 7
    ensures (before + day) % 7 == w
  {
  }

  // Whatever the fields, a minute found is a date they let through.
  lemma FoundIsSatisfiable(c: Cron, start: Moment)
    requires c.WellFormed() && Valid(start) && Found(c, start)
    ensures Satisfiable(c)
  {
    var m :| Candidate(c, start, m) && InReach(m.date, start);
    MatchIsSatisfiable(c, m.date);
  }

  lemma MatchIsSatisfiable(c: Cron, d: Date)
    requires c.WellFormed() && ValidDate(d) && c.MatchesDate(d)
    ensures Satisfiable(c)
  {
    hide DayNumber;
    var w := Weekday(d);
    if c.day[d.day] { assert AdmitsDate(c, d.month, d.day); }
    if c.weekday[w] { assert AdmitsWeekday(c); }
    assert AdmitsMonth(c);
  }

  // With the either-or rule, with every weekday allowed, or with days that fall
  // on every weekday, a schedule finds a minute from every start if and only if
  // its fields let some date through.
  lemma LookaheadSuffices(c: Cron, start: Moment)
    requires c.WellFormed() && Valid(start) && c.HasTime()
    requires EitherRule(c) || EveryWeekday(c) || EveryResidue(c)
    ensures Found(c, start) <==> Satisfiable(c)
  {
    if Found(c, start) {
      FoundIsSatisfiable(c, start);
    } else if Satisfiable(c) {
      if (EitherRule(c) || EveryWeekday(c)) && exists month, day :: AdmitsDate(c, month, day) {
        var month, day :| AdmitsDate(c, month, day);
        AdmittedDateServes(c, start, month, day);
      } else {
        WeekdayServes(c, start);
      }
    }
  }

  lemma AdmittedDateServes(c: Cron, start: Moment, month: int, day: int)
    requires c.WellFormed() && Valid(start) && c.HasTime() && AdmitsDate(c, month, day)
    requires EitherRule(c) || EveryWeekday(c)
    ensures Found(c, start)
  {
    if day <= MonthDays(1, month) {
      NextYearServes(c, start, month, day);
    } else {
      LeapDayServes(c, start);
    }
  }

  lemma WeekdayServes(c: Cron, start: Moment)
    requires c.WellFormed() && Valid(start) && c.HasTime() && AdmitsMonth(c) && AdmitsWeekday(c)
    requires EitherRule(c) || EveryResidue(c)
    ensures Found(c, start)
  {
    var w :| 0 <= w < 7 && c.weekday[w];
    var month :| 1 <= month <= 12 && c.month[month];
    var r := ResidueFor(start.date.year + 1, month, w);
    if EitherRule(c) {
      NextYearServes(c, start, month, if r == 0 then 7 else r);
    } else {
      assert SomeDayLeaves(c, r);
      var day :| 1 <= day <= 28 && c.day[day] && day % 7 == r;
      NextYearServes(c, start, month, day);
    }
  }

  // A 29 February schedule, also across a century without a leap year: when the
  // only leap day ahead is eight years off, this year has one too, and a start
  // later that day pushes the limit past midnight of the day eight years on.
  lemma LeapDayServes(c: Cron, start: Moment)
    requires c.WellFormed() && Valid(start) && c.HasTime()
    requires forall year :: year >= 1 && Leap(year) ==> c.MatchesDate(Date(year, 2, 29))
    ensures Found(c, start)
  {
    var year := start.date.year;
    var leap := LeapYearAhead(year);
    var today, ahead := Date(year, 2, 29), Date(leap, 2, 29);
    LaterDayServes(c, start, ahead);
    if leap == year + 8 {
      if Before(start.date, today) {
        LaterDayServes(c, start, today);
        assert InReach(today, start);
      } else if start.date == today && start.hour == 0 && start.minute == 0 {
        var h :| 0 <= h < 24 && c.hour[h];
        var n :| 0 <= n < 60 && c.minute[n];
        assert Candidate(c, start, Moment(today, h, n));
        assert InReach(today, start);
      } else {
        assert InReach(ahead, start);
      }
    } else {
      assert InReach(ahead, start);
    }
  }

  // A weekday field that begins with a star but steps, such as `*/7`, leaves only
  // some weekdays and eight years can then be too few: from 1 March 1896 the
  // next 29 February on a Sunday is in 1920.
  lemma SteppedWeekdayCanFail(c: Cron, start: Moment)
    requires c.WellFormed() && start == Moment(Date(1896, 3, 1), 0, 0)
    requires c.weekdayUnrestricted && forall w :: 0 < w < 7 ==> !c.weekday[w]
    requires forall i :: 0 <= i < 32 ==> (c.day[i] <==> i == 29)
    requires forall i :: 0 <= i < 13 ==> (c.month[i] <==> i == 2)
    ensures !Found(c, start)
  {
    hide DayNumber;
    forall m | Candidate(c, start, m)
      ensures !InReach(m.date, start)
    {
      DayNumberOrders(m.date, start.date);
      if m.date.year <= 1904 {
        LeapYearsUpTo1904(m.date.year);
        MondayIn1904();
      }
    }
  }

  lemma LeapYearsUpTo1904(year: int)
    requires 1896 < year <= 1904 && Leap(year)
    ensures year == 1904
  {
  }

  lemma MondayIn1904()
    ensures Weekday(Date(1904, 2, 29)) == 1
  {
    hide DaysBeforeYear;
    DaysBeforeYearClosed(1904);
    assert LeapsBefore(1904) == 460;
    assert DaysBeforeMonth(1904, 2) == 31;
  }

  // No leap day need be involved: under the same weekday field 1 January, asked
  // for from 2 January 1995 on, is next a Sunday in 2006.
  lemma NewYearSundayCanFail(c: Cron, start: Moment)
    requires c.WellFormed() && start == Moment(Date(1995, 1, 2), 0, 0)
    requires c.weekdayUnrestricted && forall w :: 0 < w < 7 ==> !c.weekday[w]
    requires forall i :: 0 <= i < 32 ==> (c.day[i] <==> i == 1)
    requires forall i :: 0 <= i < 13 ==> (c.month[i] <==> i == 1)
    ensures !Found(c, start)
  {
    hide DayNumber;
    forall m | Candidate(c, start, m)
      ensures !InReach(m.date, start)
    {
      DayNumberOrders(m.date, start.date);
      if m.date.year <= 2003 {
        NoNewYearSunday(m.date.year);
      }
    }
  }

  lemma NoNewYearSunday(year: int)
    requires 1996 <= year <= 2003
    ensures Weekday(Date(year, 1, 1)) != 0
  {
    hide DaysBeforeYear;
    DaysBeforeYearClosed(year);
    assert LeapsBefore(year) == if year == 1996 then 483 else if year <= 2000 then 484 else 485;
  }

  // -------- the limit of the search --------

  // The same date eight years on, or 1 March where there is no 29 February.
  lemma LimitMeans(d: Date)
    requires ValidDate(d)
    ensures ValidDate(Date(d.year + 8, d.month, d.day)) ==> AddYears(d, LOOKAHEAD_YEARS) == Date(d.year + 8, d.month, d.day)
    ensures !ValidDate(Date(d.year + 8, d.month, d.day)) ==> d.month == 2 && d.day == 29 && AddYears(d, LOOKAHEAD_YEARS) == Date(d.year + 8, 3, 1)
  {
  }

  // A date is searched exactly while its midnight is before that moment.
  lemma ReachMeans(d: Date, start: Moment)
    requires ValidDate(d) && Valid(start)
    ensures ValidDate(AddYears(start.date, LOOKAHEAD_YEARS))
    ensures InReach(d, start) <==> Minutes(Moment(d, 0, 0)) < Minutes(Moment(AddYears(start.date, LOOKAHEAD_YEARS), start.hour, start.minute))
  {
    hide DayNumber, Leap;
    LimitIsDate(start.date);
    DayNumberOrders(d, AddYears(start.date, LOOKAHEAD_YEARS));
  }

  // -------- the remaining schedules --------

  function Moved(m: Moment): Moment { m.(date := Later400(m.date)) }

  lemma MovedMatches(c: Cron, m: Moment)
    requires c.WellFormed() && Valid(m)
    ensures Valid(Moved(m)) && Minutes(Moved(m)) == Minutes(m) + 146097 * 1440 && (c.Matches(Moved(m)) <==> c.Matches(m))
  {
    hide DayNumber;
    CalendarRepeats(m.date);
  }

  lemma MovedReach(d: Date, start: Moment)
    ensures InReach(Later400(d), Moved(start)) <==> InReach(d, start)
  {
    hide Leap;
    LeapRepeats(start.date.year + LOOKAHEAD_YEARS);
  }

  // What is found from a start is found from it four hundred years later.
  lemma FoundRepeats(c: Cron, start: Moment)
    requires c.WellFormed() && Valid(start)
    ensures Valid(Moved(start)) && (Found(c, Moved(start)) <==> Found(c, start))
  {
    hide DayNumber, InReach, Cron.Matches;
    MovedMatches(c, start);
    if Found(c, start) {
      var m :| Candidate(c, start, m) && InReach(m.date, start);
      MovedMatches(c, m);
      MovedReach(m.date, start);
      assert Candidate(c, Moved(start), Moved(m));
    }
    if Found(c, Moved(start)) {
      var m :| Candidate(c, Moved(start), m) && InReach(m.date, Moved(start));
      var n := MovedBack(m, start);
      MovedMatches(c, n);
      MovedReach(n.date, start);
      assert Candidate(c, start, n);
    }
  }

  lemma MovedBack(m: Moment, start: Moment) returns (n: Moment)
    requires Valid(m) && Valid(start) && Valid(Moved(start)) && Minutes(m) >= Minutes(Moved(start))
    ensures Valid(n) && Moved(n) == m
  {
    hide DayNumber;
    DayNumberOrders(m.date, Moved(start).date);
    n := m.(date := m.date.(year := m.date.year - 400));
    LeapRepeats(n.date.year);
  }

  // Whatever the fields, a minute is found from every start if and only if one is
  // found from every start in any one span of four hundred years.
  lemma FoundFromEveryStart(c: Cron, year: int)
    requires c.WellFormed() && year >= 1
    ensures (forall start :: Valid(start) ==> Found(c, start))
       <==> (forall start :: Valid(start) && year <= start.date.year < year + 400 ==> Found(c, start))
  {
    hide Found;
    if forall start :: Valid(start) && year <= start.date.year < year + 400 ==> Found(c, start) {
      forall start | Valid(start) ensures Found(c, start) { FoundFrom(c, year, start); }
    }
  }

  lemma {:induction false} FoundFrom(c: Cron, year: int, start: Moment)
    requires c.WellFormed() && year >= 1 && Valid(start)
    requires forall start :: Valid(start) && year <= start.date.year < year + 400 ==> Found(c, start)
    ensures Found(c, start)
    decreases if start.date.year < year then year - start.date.year else start.date.year - year
  {
    hide Found, Leap;
    if start.date.year < year {
      FoundRepeats(c, start);
      if start.date.year + 400 < year {
        FoundFrom(c, year, Moved(start));
      }
    } else if start.date.year >= year + 400 {
      var n := start.(date := start.date.(year := start.date.year - 400));
      LeapRepeats(n.date.year);
      FoundFrom(c, year, n);
      FoundRepeats(c, n);
      assert Moved(n) == start;
    }
  }
}
