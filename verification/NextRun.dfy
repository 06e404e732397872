/** `compute_next_run_at` (automation/schedule.py): the next instant at which a schedule fires. */
module NextRun {
  import opened Common
  import opened Schedule

  const SECOND := 1_000_000
  const MINUTE := 60 * SECOND
  const HOUR := 60 * MINUTE
  const DAY := 24 * HOUR

  /** Instant `rest` of period `n`, for periods of `unit` microseconds. */
  function At(unit: int, n: int, rest: int): int { unit * n + rest }

  lemma AtParts(unit: int, n: int, rest: int)
    requires 0 <= rest < unit && unit in {HOUR, DAY}
    ensures At(unit, n, rest) / unit == n && At(unit, n, rest) % unit == rest
  {
  }

  lemma PartsAt(unit: int, t: int)
    requires unit in {HOUR, DAY}
    ensures t == At(unit, t / unit, t % unit) && 0 <= t % unit < unit
  {
  }

  /** The first period whose instant `rest` lies after `t`. */
  function FirstAfter(unit: int, t: int, rest: int): int
    requires unit > 0
  {
    if At(unit, t / unit, rest) <= t then t / unit + 1 else t / unit
  }

  lemma Successor(k: int, q: int)
    ensures k * (q + 1) == k * q + k
  {
  }

  /** A later period starts after an earlier one has ended. */
  lemma {:induction false} Separated(k: int, q: int, m: int, q': int, m': int)
    requires 0 <= m < k && 0 <= m' < k
    ensures q < q' ==> k * q + m < k * q' + m'
    decreases q' - q
  {
    if q < q' {
      Separated(k, q, m, q' - 1, m');
      Successor(k, q' - 1);
    }
  }

  /** Quotients and remainders are unique. */
  lemma Unique(k: int, q: int, m: int, q': int, m': int)
    requires 0 <= m < k && 0 <= m' < k && k * q + m == k * q' + m'
    ensures q == q' && m == m'
  {
    Separated(k, q, m, q', m');
    Separated(k, q', m', q, m);
  }

  lemma BetweenParts(unit: int, a: int, s: int, rest: int, n: int, b: int, t: int, u: int)
    requires 0 <= rest < unit && 0 <= s < unit && t == unit * a + s && u == unit * b + rest
    requires t < u < unit * n + rest
    ensures (if unit * a + rest <= t then a + 1 else a) <= b < n
  {
    Separated(unit, b, rest, a, s);
    Separated(unit, n, rest, b, rest);
  }

  /** Instants at `rest` strictly between `t` and period `n` belong to the periods from the first one on. */
  lemma Between(unit: int, t: int, rest: int, n: int, u: int)
    requires unit in {HOUR, DAY} && 0 <= rest < unit
    requires t < u < At(unit, n, rest) && u % unit == rest
    ensures FirstAfter(unit, t, rest) <= u / unit < n
  {
    BetweenParts(unit, t / unit, t % unit, rest, n, u / unit, t, u);
  }

  // ---- Hourly ----

  predicate FiresInHour(hour: int, hours: int)
    requires hours >= 1
  {
    (hour % 24) % hours == 0
  }

  /** A local instant at which an hourly schedule fires. */
  predicate HourlyMatch(t: int, hours: int, minute: int)
    requires hours >= 1
  {
    t % HOUR == minute * MINUTE && FiresInHour(t / HOUR, hours)
  }

  lemma DivUnique(n: int, k: int, q: int, m: int)
    requires k >= 1 && 0 <= m < k && n == k * q + m
    ensures n % k == m
  {
    Unique(k, q, m, n / k, n % k);
  }

  lemma MultipleFrom(a: int, k: int) returns (n: int)
    requires a >= 0 && k >= 1
    ensures a <= n < a + k && n % k == 0
  {
    var q, m := a / k, a % k;
    if m == 0 {
      n := a;
    } else {
      n := k * (q + 1);
      DivUnique(n, k, q + 1, 0);
      assert n == k * q + k == a - m + k;
    }
  }

  /** Any `k` consecutive hours contain one whose hour of day is a multiple of `k`, even when `k` does not divide 24. */
  lemma HourInWindow(h: int, k: int) returns (j: int)
    requires 1 <= k <= 24
    ensures h <= j < h + k && FiresInHour(j, k)
  {
    var a := h % 24;
    var n := MultipleFrom(a, k);
    if n < 24 {
      j := h + (n - a);
      assert j % 24 == n;
    } else {
      j := h + (24 - a);
      assert j % 24 == 0;
    }
  }

  lemma HourlyLeast(local: int, hours: int, minute: int, h: int)
    requires 1 <= hours <= 24 && 0 <= minute <= 59
    requires forall i | FirstAfter(HOUR, local, minute * MINUTE) <= i < h :: !FiresInHour(i, hours)
    ensures forall t | local < t < At(HOUR, h, minute * MINUTE) :: !HourlyMatch(t, hours, minute)
  {
    forall t | local < t < At(HOUR, h, minute * MINUTE) ensures !HourlyMatch(t, hours, minute) {
      if t % HOUR == minute * MINUTE {
        Between(HOUR, local, minute * MINUTE, h, t);
      }
    }
  }

  /** The first candidate lies ahead, at most an hour away. */
  lemma FirstHour(local: int, rest: int)
    requires 0 <= rest < HOUR
    ensures var h := FirstAfter(HOUR, local, rest);
            && local < At(HOUR, h, rest) <= local + HOUR
            && At(HOUR, h, rest) == local / HOUR * HOUR + rest + if local / HOUR * HOUR + rest <= local then HOUR else 0
  {
    PartsAt(HOUR, local);
  }

  method NextHourly(local: int, hours: int, minute: int) returns (candidate: int)
    requires 1 <= hours <= 24 && 0 <= minute <= 59
    ensures local < candidate <= local + hours * HOUR
    ensures HourlyMatch(candidate, hours, minute)
    ensures forall t | local < t < candidate :: !HourlyMatch(t, hours, minute)
  {
    ghost var rest := minute * MINUTE;
    FirstHour(local, rest);
    candidate := local / HOUR * HOUR + minute * MINUTE;
    if candidate <= local {
      candidate := candidate + HOUR;
    }
    ghost var first := FirstAfter(HOUR, local, rest);
    ghost var hit := HourInWindow(first, hours);
    ghost var h := first;
    AtParts(HOUR, h, rest);
    while (candidate / HOUR % 24) % hours != 0
      invariant first <= h <= hit && candidate == At(HOUR, h, rest)
      invariant candidate / HOUR == h && candidate % HOUR == rest
      invariant forall i | first <= i < h :: !FiresInHour(i, hours)
      decreases hit - h
    {
      assert !FiresInHour(h, hours);
      candidate := candidate + HOUR;
      h := h + 1;
      AtParts(HOUR, h, rest);
    }
    HourlyLeast(local, hours, minute, h);
  }

  // ---- Weekly ----

  /** Monday is 0; day 0 is a Thursday. */
  function Weekday(day: int): int { (day + 3) % 7 }

  /** Days follow each other; 1 January 1970 was a Thursday and 4 October 2024, 20000 days later, a Friday. */
  lemma Calendar(day: int)
    ensures 0 <= Weekday(day) < 7
    ensures Weekday(day + 1) == if Weekday(day) == 6 then 0 else Weekday(day) + 1
    ensures Weekday(0) == 3 && Weekday(20_000) == 4
  {
  }

  predicate WeeklyMatch(t: int, weekdays: set<int>, hour: int, minute: int) {
    t % DAY == hour * HOUR + minute * MINUTE && Weekday(t / DAY) in weekdays
  }

  /** The numbers of the named days, or Monday if none is named. */
  function WeekdaySet(byday: seq<string>): (days: set<int>)
    ensures exists w :: 0 <= w < 7 && w in days
    ensures if forall i | 0 <= i < 7 :: WEEKDAY_CODES[i] !in byday then days == {0}
            else forall i :: i in days <==> 0 <= i < 7 && WEEKDAY_CODES[i] in byday
  {
    var days := set i | 0 <= i < 7 && WEEKDAY_CODES[i] in byday;
    assert forall i | 0 <= i < 7 && WEEKDAY_CODES[i] in byday :: i in days;
    if days == {} then {0} else days
  }

  lemma DayInWeek(day: int, weekdays: set<int>) returns (d: int)
    requires exists w :: 0 <= w < 7 && w in weekdays
    ensures day <= d < day + 7 && Weekday(d) in weekdays
  {
    var w :| 0 <= w < 7 && w in weekdays;
    d := day + w - Weekday(day) + (if w < Weekday(day) then 7 else 0);
  }

  lemma WeeklyLeast(local: int, weekdays: set<int>, hour: int, minute: int, day: int)
    requires 0 <= hour <= 23 && 0 <= minute <= 59
    requires forall d | FirstAfter(DAY, local, hour * HOUR + minute * MINUTE) <= d < day :: Weekday(d) !in weekdays
    ensures forall t | local < t < At(DAY, day, hour * HOUR + minute * MINUTE) ::
              !WeeklyMatch(t, weekdays, hour, minute)
  {
    var rest := hour * HOUR + minute * MINUTE;
    forall t | local < t < At(DAY, day, rest) ensures !WeeklyMatch(t, weekdays, hour, minute) {
      if t % DAY == rest {
        Between(DAY, local, rest, day, t);
      }
    }
  }

  lemma TooEarly(local: int, rest: int, day: int)
    requires 0 <= rest < DAY && local / DAY <= day
    ensures At(DAY, day, rest) <= local <==> day < FirstAfter(DAY, local, rest)
  {
    PartsAt(DAY, local);
  }

  lemma WithinAWeek(local: int, rest: int, day: int)
    requires 0 <= rest < DAY && day <= FirstAfter(DAY, local, rest) + 6
    ensures At(DAY, day, rest) <= local + 7 * DAY
  {
    PartsAt(DAY, local);
  }

  method NextWeekly(local: int, weekdays: set<int>, hour: int, minute: int) returns (candidate: int)
    requires 0 <= hour <= 23 && 0 <= minute <= 59
    requires exists w :: 0 <= w < 7 && w in weekdays
    ensures local < candidate <= local + 7 * DAY
    ensures WeeklyMatch(candidate, weekdays, hour, minute)
    ensures forall t | local < t < candidate :: !WeeklyMatch(t, weekdays, hour, minute)
  {
    var today, rest := local / DAY, hour * HOUR + minute * MINUTE;
    ghost var first := FirstAfter(DAY, local, rest);
    assert today <= first <= today + 1;
    ghost var due := DayInWeek(first, weekdays);
    for offset := 0 to 15
      invariant today + offset <= due
      invariant forall d | first <= d < today + offset :: Weekday(d) !in weekdays
    {
      var day := today + offset;
      if Weekday(day) in weekdays {
        candidate := day * DAY + rest;
        TooEarly(local, rest, day);
        if candidate > local {
          AtParts(DAY, day, rest);
          WeeklyLeast(local, weekdays, hour, minute, day);
          WithinAWeek(local, rest, day);
          return;
        }
      }
    }
    // The source's fallback of a week from now is never reached.
    assert false;
  }

  // ---- All kinds ----

  /** A local instant at which the schedule is due by the calendar; other kinds have no calendar. */
  predicate LocallyDue(s: Schedule, t: int)
    requires Normal(s) && (s.Hourly? || s.Weekly?)
  {
    if s.Hourly? then HourlyMatch(t, s.hours, s.minute)
    else WeeklyMatch(t, WeekdaySet(s.byday), s.hour, s.minute)
  }

  /** The same for a UTC instant. */
  predicate Due(s: Schedule, offset: int, t: int)
    requires Normal(s) && (s.Hourly? || s.Weekly?)
  {
    LocallyDue(s, t + offset)
  }

  lemma NoneDueBefore(s: Schedule, offset: int, now: int, candidate: int)
    requires Normal(s) && (s.Hourly? || s.Weekly?)
    requires forall u | now + offset < u < candidate :: !LocallyDue(s, u)
    ensures forall t | now < t < candidate - offset :: !Due(s, offset, t)
  {
    forall t | now < t < candidate - offset ensures !Due(s, offset, t) {
      assert !LocallyDue(s, t + offset);
    }
  }

  /** The least local instant after `local` at which the schedule is due. */
  method NextLocal(s: Schedule, local: int) returns (candidate: int)
    requires Normal(s) && (s.Hourly? || s.Weekly?)
    ensures local < candidate <= local + IntervalOf(s) * SECOND
    ensures LocallyDue(s, candidate) && forall u | local < u < candidate :: !LocallyDue(s, u)
  {
    if s.Hourly? {
      candidate := NextHourly(local, s.hours, s.minute);
      assert s.hours * HOUR == IntervalOf(s) * SECOND;
    } else {
      candidate := NextWeekly(local, WeekdaySet(s.byday), s.hour, s.minute);
    }
  }

  /**
    The next run is strictly in the future and at most `interval_sec` away; for calendar schedules it is
    the least due instant after now, for the others exactly one interval away.
   */
  method ComputeNextRunAt(s: Schedule, offset: int, now: int) returns (next: int)
    requires Normal(s)
    ensures now < next <= now + IntervalOf(s) * SECOND
    ensures s.Interval? || s.Watch? ==> next == now + IntervalOf(s) * SECOND
    ensures s.Hourly? || s.Weekly? ==> Due(s, offset, next) && forall t | now < t < next :: !Due(s, offset, t)
  {
    if s.Interval? {
      next := now + Max(10, s.seconds) * SECOND;
    } else if s.Watch? {
      next := now + Max(2, s.pollSec) * SECOND;
    } else {
      var candidate := NextLocal(s, now + offset);
      NoneDueBefore(s, offset, now, candidate);
      next := candidate - offset;
    }
  }
}
