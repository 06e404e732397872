/**
  Schedule normalisation and next-run arithmetic (automation/schedule.py). Instants are microseconds;
  local time is UTC plus a constant offset, and day 0 is a Thursday as in the Unix calendar.
 */
module Schedule {
  import opened Common
  import opened Text

  // ---- Normalisation ----

  /** What `int(...)` makes of a value found under a key. */
  datatype Field = Missing | Junk | Num(n: int)

  datatype RawDays = NoDays | DayText(text: string) | DayList(items: seq<string>) | OtherDays

  datatype RawFlag = NoFlag | Flag(on: bool) | FlagText(text: string)

  datatype RawSchedule = RawSchedule(intervalSec: Field, intervalHours: Field, minute: Field, byday: RawDays,
                                     hour: Field,
                                     path: string, pollSec: Field, recursive: RawFlag, glob: Option<string>,
                                     maxChanged: Field, lastSeen: Field)

  datatype Schedule =
    | Interval(seconds: int)
    | Hourly(hours: int, minute: int)
    | Weekly(byday: seq<string>, hour: int, minute: int)
    | Watch(path: string, pollSec: int, recursive: bool, glob: string, maxChanged: int, lastSeen: int)

  datatype Kind = IntervalKind | HourlyKind | WeeklyKind | WatchKind

  datatype Error = NotInteger | OutOfRange | DaysNotListed | NoDayGiven | UnknownDay | NoPath | UnknownKind

  datatype Result = Ok(schedule: Schedule, intervalSec: int) | Err(error: Error)

  const WEEKDAY_CODES: seq<string> := ["MO", "TU", "WE", "TH", "FR", "SA", "SU"]
  const BLANK := RawSchedule(Missing, Missing, Missing, NoDays, Missing, "", Missing, NoFlag, None, Missing, Missing)

  function Or(f: Field, default: int): Field { if f.Missing? then Num(default) else f }

  function OrNum(o: Option<int>, default: int): int { if o.Some? then o.value else default }

  function SplitCommas(s: string): (parts: seq<string>)
    ensures |parts| >= 1
  {
    if s == "" then [""]
    else
      var front := SplitCommas(Init(s));
      if Last(s) == ',' then front + [""] else Init(front) + [Last(front) + [Last(s)]]
  }

  function TidyItem(d: string): string { Upper(Strip(d)) }

  function Tidy(items: seq<string>): seq<string> {
    if items == [] then []
    else
      var item := TidyItem(Last(items));
      Tidy(Init(items)) + (if item != "" then [item] else [])
  }

  /** The given days once each, in week order: `sorted(set(items), key=WEEKDAY_TO_INT)`. */
  function InWeekOrder(items: seq<string>): seq<string> { Filter(WEEKDAY_CODES, code => code in items) }

  function ToBool(f: RawFlag): bool {
    match f
    case NoFlag => true
    case Flag(on) => on
    case FlagText(text) => Lower(Strip(text)) !in {"0", "false", "no", "off"}
  }

  function OrDefault(s: string, default: string): string { if s == "" then default else s }

  function NormalizeInterval(raw: RawSchedule, interval: Option<int>): Result {
    var seconds := Or(raw.intervalSec, OrNum(interval, 300));
    if !seconds.Num? then Err(NotInteger)
    else if seconds.n < 10 then Err(OutOfRange)
    else Ok(Interval(seconds.n), seconds.n)
  }

  function NormalizeHourly(raw: RawSchedule): Result {
    var hours, minute := Or(raw.intervalHours, 1), Or(raw.minute, 0);
    if !hours.Num? || !minute.Num? then Err(NotInteger)
    else if !(1 <= hours.n <= 24) then Err(OutOfRange)
    else if !(0 <= minute.n <= 59) then Err(OutOfRange)
    else Ok(Hourly(hours.n, minute.n), hours.n * 3600)
  }

  predicate AllCodes(items: seq<string>) { forall item | item in items :: item in WEEKDAY_CODES }

  function WeeklyFrom(items: seq<string>, hour: Field, minute: Field): Result {
    if items == [] then Err(NoDayGiven)
    else if !AllCodes(items) then Err(UnknownDay)
    else if !hour.Num? || !minute.Num? then Err(NotInteger)
    else if !(0 <= hour.n <= 23) then Err(OutOfRange)
    else if !(0 <= minute.n <= 59) then Err(OutOfRange)
    else Ok(Weekly(InWeekOrder(items), hour.n, minute.n), 7 * 24 * 3600)
  }

  function DayItems(byday: RawDays): seq<string> {
    match byday
    case NoDays => ["MO"]
    case DayText(text) => Tidy(SplitCommas(text))
    case DayList(items) => Tidy(items)
    case OtherDays => []
  }

  function NormalizeWeekly(raw: RawSchedule): Result {
    if raw.byday.OtherDays? then Err(DaysNotListed)
    else WeeklyFrom(DayItems(raw.byday), Or(raw.hour, 9), Or(raw.minute, 0))
  }

  function NormalizeWatch(raw: RawSchedule, interval: Option<int>): Result {
    var path := Strip(raw.path);
    var poll, most := Or(raw.pollSec, OrNum(interval, 10)), Or(raw.maxChanged, 20);
    var seen := Or(raw.lastSeen, 0);
    if path == "" then Err(NoPath)
    else if !poll.Num? then Err(NotInteger)
    else if !(2 <= poll.n <= 3600) then Err(OutOfRange)
    else if !most.Num? then Err(NotInteger)
    else if !(1 <= most.n <= 500) then Err(OutOfRange)
    else
      var glob := OrDefault(Strip(if raw.glob.Some? then raw.glob.value else "*"), "*");
      Ok(Watch(path, poll.n, ToBool(raw.recursive), glob, most.n, if seen.Num? then Max(0, seen.n) else 0), poll.n)
  }

  function KindName(k: Kind): string {
    match k
    case IntervalKind => "interval"
    case HourlyKind => "hourly"
    case WeeklyKind => "weekly"
    case WatchKind => "watch_fs"
  }

  /** A blank name means an interval. */
  function ParseKind(scheduleType: string): (kind: Option<Kind>)
    ensures kind == Some(IntervalKind) <==> Lower(Strip(scheduleType)) in {"", "interval"}
    ensures kind == Some(HourlyKind) <==> Lower(Strip(scheduleType)) == "hourly"
    ensures kind == Some(WeeklyKind) <==> Lower(Strip(scheduleType)) == "weekly"
    ensures kind == Some(WatchKind) <==> Lower(Strip(scheduleType)) == "watch_fs"
  {
    var name := OrDefault(Lower(Strip(scheduleType)), "interval");
    if name == KindName(IntervalKind) then Some(IntervalKind)
    else if name == KindName(HourlyKind) then Some(HourlyKind)
    else if name == KindName(WeeklyKind) then Some(WeeklyKind)
    else if name == KindName(WatchKind) then Some(WatchKind)
    else None
  }

  function NormalizeAs(kind: Kind, raw: RawSchedule, interval: Option<int>): Result {
    match kind
    case IntervalKind => NormalizeInterval(raw, interval)
    case HourlyKind => NormalizeHourly(raw)
    case WeeklyKind => NormalizeWeekly(raw)
    case WatchKind => NormalizeWatch(raw, interval)
  }

  function NormalizeSchedule(scheduleType: string, raw: RawSchedule, interval: Option<int>): Result {
    var kind := ParseKind(scheduleType);
    if kind.None? then Err(UnknownKind)
    else NormalizeAs(kind.value, raw, interval)
  }

  /** How a schedule is stored and read back. */
  function KindOf(s: Schedule): Kind {
    match s
    case Interval(_) => IntervalKind
    case Hourly(_, _) => HourlyKind
    case Weekly(_, _, _) => WeeklyKind
    case Watch(_, _, _, _, _, _) => WatchKind
  }

  function Stored(s: Schedule): RawSchedule {
    match s
    case Interval(seconds) => BLANK.(intervalSec := Num(seconds))
    case Hourly(hours, minute) => BLANK.(intervalHours := Num(hours), minute := Num(minute))
    case Weekly(byday, hour, minute) => BLANK.(byday := DayList(byday), hour := Num(hour), minute := Num(minute))
    case Watch(path, poll, recursive, glob, most, seen) =>
      BLANK.(path := path, pollSec := Num(poll), recursive := Flag(recursive), glob := Some(glob),
             maxChanged := Num(most), lastSeen := Num(seen))
  }

  /** What normalisation guarantees of every schedule it accepts. */
  predicate Normal(s: Schedule) {
    match s
    case Interval(seconds) => seconds >= 10
    case Hourly(hours, minute) => 1 <= hours <= 24 && 0 <= minute <= 59
    case Weekly(byday, hour, minute) =>
      && byday != [] && byday == InWeekOrder(byday) && AllCodes(byday)
      && 0 <= hour <= 23 && 0 <= minute <= 59
    case Watch(path, poll, _, glob, most, seen) =>
      path != "" && Stripped(path) && 2 <= poll <= 3600 && glob != "" && Stripped(glob) && 1 <= most <= 500 && seen >= 0
  }

  function IntervalOf(s: Schedule): int {
    match s
    case Interval(seconds) => seconds
    case Hourly(hours, _) => hours * 3600
    case Weekly(_, _, _) => 7 * 24 * 3600
    case Watch(_, poll, _, _, _, _) => poll
  }

  // ---- What was asked for ----

  function Joined(parts: seq<string>): string
    requires parts != []
  {
    if |parts| == 1 then parts[0] else Joined(Init(parts)) + "," + Last(parts)
  }

  lemma JoinedMore(parts: seq<string>, c: char)
    requires parts != []
    ensures Joined(Init(parts) + [Last(parts) + [c]]) == Joined(parts) + [c]
  {
    var more := Init(parts) + [Last(parts) + [c]];
    assert Init(more) == Init(parts) && Last(more) == Last(parts) + [c];
  }

  /** The parts of a comma-separated text hold no comma and make the text again. */
  lemma {:induction false} SplitJoins(s: string)
    ensures Joined(SplitCommas(s)) == s
    ensures forall part | part in SplitCommas(s) :: ',' !in part
  {
    if s != "" {
      var front := SplitCommas(Init(s));
      SplitJoins(Init(s));
      assert s == Init(s) + [Last(s)];
      if Last(s) == ',' {
        assert Init(front + [""]) == front;
      } else {
        JoinedMore(front, Last(s));
        assert Last(front) in front;
      }
    }
  }

  /** The field holds `n`, or is missing and `n` is the default. */
  predicate Says(f: Field, default: int, n: int) { f == Num(n) || (f == Missing && n == default) }

  /** Up to case and outer space, the items that are not blank are exactly the days. */
  predicate NameDays(items: seq<string>, days: seq<string>) {
    && (forall item | item in items :: Strip(item) == "" || Upper(Strip(item)) in days)
    && (forall d | d in days :: exists item | item in items :: Upper(Strip(item)) == d)
  }

  predicate SayDays(raw: RawDays, days: seq<string>) {
    match raw
    case NoDays => days == ["MO"]
    case DayText(text) => NameDays(SplitCommas(text), days)
    case DayList(items) => NameDays(items, days)
    case OtherDays => false
  }

  predicate SaysFlag(f: RawFlag, on: bool) {
    match f
    case NoFlag => on
    case Flag(given) => on == given
    case FlagText(text) =>
      var t := Lower(Strip(text));
      on <==> t != "0" && t != "false" && t != "no" && t != "off"
  }

  /** The schedule is what the request asks for, with the defaults for what it leaves out. */
  predicate Answers(raw: RawSchedule, interval: Option<int>, s: Schedule) {
    match s
    case Interval(seconds) => Says(raw.intervalSec, if interval.Some? then interval.value else 300, seconds)
    case Hourly(hours, minute) => Says(raw.intervalHours, 1, hours) && Says(raw.minute, 0, minute)
    case Weekly(byday, hour, minute) =>
      SayDays(raw.byday, byday) && Says(raw.hour, 9, hour) && Says(raw.minute, 0, minute)
    case Watch(path, poll, recursive, glob, most, seen) =>
      && path == Strip(raw.path) && Says(raw.pollSec, if interval.Some? then interval.value else 10, poll)
      && SaysFlag(raw.recursive, recursive) && Says(raw.maxChanged, 20, most)
      && (glob == "*" || (raw.glob.Some? && glob == Strip(raw.glob.value)))
      && (raw.glob.Some? && Strip(raw.glob.value) != "" ==> glob == Strip(raw.glob.value))
      && seen == if raw.lastSeen.Num? && raw.lastSeen.n > 0 then raw.lastSeen.n else 0
  }

  lemma TidyBlank(d: string)
    ensures TidyItem(d) == "" <==> Strip(d) == ""
  {
  }

  lemma {:induction false} TidyMembers(items: seq<string>)
    ensures forall d :: d in Tidy(items) <==> d != "" && exists item | item in items :: TidyItem(item) == d
  {
    if items != [] {
      TidyMembers(Init(items));
      assert items == Init(items) + [Last(items)];
      forall d ensures d in Tidy(items) <==> d != "" && exists item | item in items :: TidyItem(item) == d {
        if d in Tidy(items) && d !in Tidy(Init(items)) {
          assert TidyItem(Last(items)) == d;
        }
      }
    }
  }

  lemma NamedDays(items: seq<string>, days: seq<string>)
    requires forall d | d in days :: d != ""
    ensures NameDays(items, days) <==> forall d :: d in Tidy(items) <==> d in days
  {
    TidyMembers(items);
    forall item | item in items ensures TidyItem(item) == "" <==> Strip(item) == "" {
      TidyBlank(item);
    }
    if forall d :: d in Tidy(items) <==> d in days {
      forall item | item in items && Strip(item) != "" ensures Upper(Strip(item)) in days {
        assert TidyItem(item) in Tidy(items);
      }
    }
    if NameDays(items, days) {
      forall d | d in Tidy(items) ensures d in days {
        var item :| item in items && TidyItem(item) == d;
        assert Strip(item) != "";
      }
    }
  }

  // ---- Re-normalisation ----

  lemma InWeekOrderMembers(items: seq<string>)
    ensures forall d :: d in InWeekOrder(items) <==> d in WEEKDAY_CODES && d in items
    ensures InWeekOrder(InWeekOrder(items)) == InWeekOrder(items)
  {
    FilterMembers(WEEKDAY_CODES, code => code in items);
    FilterSame(WEEKDAY_CODES, code => code in InWeekOrder(items), code => code in items);
  }

  predicate IsTidy(d: string) { d != "" && TidyItem(d) == d }

  lemma {:induction false} TidyFixed(items: seq<string>)
    requires forall d | d in items :: IsTidy(d)
    ensures Tidy(items) == items
  {
    if items != [] {
      var d := Last(items);
      assert d in items && IsTidy(d);
      TidyFixed(Init(items));
      assert Tidy(items) == Tidy(Init(items)) + [d];
      assert items == Init(items) + [d];
    }
  }

  lemma CodeIsTidy(d: string)
    requires d in WEEKDAY_CODES
    ensures IsTidy(d)
  {
    assert |d| == 2 && Stripped(d);
  }

  lemma WeeklyIsNormal(raw: RawSchedule)
    requires NormalizeWeekly(raw).Ok?
    ensures Normal(NormalizeWeekly(raw).schedule)
  {
    var items := DayItems(raw.byday);
    InWeekOrderMembers(items);
    assert items[0] in InWeekOrder(items);
  }

  lemma WatchIsNormal(raw: RawSchedule, interval: Option<int>)
    requires NormalizeWatch(raw, interval).Ok?
    ensures Normal(NormalizeWatch(raw, interval).schedule)
  {
    assert Stripped("*");
  }

  /** Every accepted schedule is normal, and the returned `interval_sec` is that of its kind. */
  lemma AcceptedIsNormal(scheduleType: string, raw: RawSchedule, interval: Option<int>)
    ensures var r := NormalizeSchedule(scheduleType, raw, interval);
            r.Ok? ==> Normal(r.schedule) && r.intervalSec == IntervalOf(r.schedule)
  {
    var r, kind := NormalizeSchedule(scheduleType, raw, interval), ParseKind(scheduleType);
    if r.Ok? {
      match kind.value
      case WeeklyKind => WeeklyIsNormal(raw);
      case WatchKind => WatchIsNormal(raw, interval);
      case _ =>
    }
  }

  lemma OnlyMonday(days: seq<string>)
    requires AllCodes(days) && days == InWeekOrder(days)
    ensures days == ["MO"] <==> forall d :: d in ["MO"] <==> d in days
  {
    if forall d :: d in ["MO"] <==> d in days {
      var p := (code: string) => code in days;
      assert WEEKDAY_CODES == ["MO"] + WEEKDAY_CODES[1..];
      FilterConcat(["MO"], WEEKDAY_CODES[1..], p);
      FilterSnoc([], "MO", p);
      assert [] + ["MO"] == ["MO"];
      FilterNone(WEEKDAY_CODES[1..], p);
    }
  }

  /** Once none of the wanted days is blank, a day request is met exactly by the tidied items. */
  lemma DaysAsAsked(raw: RawDays, days: seq<string>)
    requires AllCodes(days) && (raw.NoDays? ==> days == InWeekOrder(days))
    ensures SayDays(raw, days) <==> !raw.OtherDays? && forall d :: d in DayItems(raw) <==> d in days
  {
    assert forall d | d in days :: d != "";
    match raw
    case DayText(text) => NamedDays(SplitCommas(text), days);
    case DayList(items) => NamedDays(items, days);
    case NoDays => OnlyMonday(days);
    case OtherDays =>
  }

  lemma WeeklyAnswers(raw: RawSchedule)
    requires NormalizeWeekly(raw).Ok?
    ensures NormalizeWeekly(raw).schedule.Weekly? && Answers(raw, None, NormalizeWeekly(raw).schedule)
  {
    InWeekOrderMembers(DayItems(raw.byday));
    DaysAsAsked(raw.byday, NormalizeWeekly(raw).schedule.byday);
  }

  lemma WeeklyRefused(raw: RawSchedule, s: Schedule)
    requires NormalizeWeekly(raw).Err? && s.Weekly? && Normal(s)
    ensures !Answers(raw, None, s)
  {
    DaysAsAsked(raw.byday, s.byday);
    var items := DayItems(raw.byday);
    if SayDays(raw.byday, s.byday) {
      assert s.byday[0] in s.byday && s.byday[0] in items;
    }
  }

  /** A request is accepted if and only if some normal schedule of its kind answers it, and the result does. */
  lemma AcceptedAsAsked(kind: Kind, raw: RawSchedule, interval: Option<int>)
    ensures var r := NormalizeAs(kind, raw, interval);
            && (r.Ok? ==> KindOf(r.schedule) == kind && Answers(raw, interval, r.schedule))
            && (r.Err? ==> forall s :: Normal(s) && KindOf(s) == kind ==> !Answers(raw, interval, s))
  {
    if kind.WeeklyKind? {
      if NormalizeWeekly(raw).Ok? {
        WeeklyAnswers(raw);
      } else {
        forall s | Normal(s) && KindOf(s) == kind ensures !Answers(raw, interval, s) {
          WeeklyRefused(raw, s);
        }
      }
    }
  }

  lemma KindNameParses(k: Kind)
    ensures ParseKind(KindName(k)) == Some(k)
  {
    var name := KindName(k);
    assert Stripped(name);
    assert Lower(name) == name;
  }

  lemma CodesAreFixed(byday: seq<string>)
    requires AllCodes(byday)
    ensures Tidy(byday) == byday
  {
    forall d | d in byday ensures IsTidy(d) {
      CodeIsTidy(d);
    }
    TidyFixed(byday);
  }

  lemma WeeklyRenormalizes(byday: seq<string>, hour: int, minute: int)
    requires Normal(Weekly(byday, hour, minute))
    ensures NormalizeWeekly(Stored(Weekly(byday, hour, minute))) == Ok(Weekly(byday, hour, minute), 7 * 24 * 3600)
  {
    CodesAreFixed(byday);
  }

  /**
    A stored schedule normalises to itself, whatever `interval_sec` its row carries, so triggers,
    updates and resumes read back exactly the schedule that was accepted.
   */
  lemma RenormalizeIsIdentity(s: Schedule, interval: Option<int>)
    requires Normal(s)
    ensures NormalizeSchedule(KindName(KindOf(s)), Stored(s), interval) == Ok(s, IntervalOf(s))
  {
    KindNameParses(KindOf(s));
    match s
    case Weekly(byday, hour, minute) => WeeklyRenormalizes(byday, hour, minute);
    case _ =>
  }
}
