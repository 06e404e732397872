/**
  The failure, escalation and disable machine of an automation (automation/automation_scheduler.py).
  A trigger works on the row it was handed and later writes absolute values, and manual triggers take no
  lease, so any number of triggers overlap each other and every pause, resume and update; `seen` is what a
  trigger was handed and `row` what its closing write meets.
 */
module AutomationHealth {
  import opened Common
  import opened Backoff
  import opened MissionPolicy

  datatype Level = Calm | Warning | Critical

  datatype Notice = Notice(level: Level, disabled: bool, failures: nat)

  datatype Row = Row(enabled: bool, failures: nat, level: Level, policy: Policy,
                     nextRunAt: real, backoffUntil: Option<real>, circuitUntil: Option<real>)

  /** The five ways a trigger ends; `next` is the next scheduled run, `retry` the retry interval. */
  datatype Outcome =
    | Idle(next: real)
    | Deduplicated(next: real)
    | Blocked(next: real)
    | Queued(next: real)
    | Error(retry: real)

  function LevelFor(failures: nat, slo: Slo): Level {
    if failures >= slo.critical then Critical
    else if failures >= slo.warning then Warning
    else Calm
  }

  /** The error branch: everything is computed from the row as seen. */
  function Failed(row: Row, seen: Row, retry: real, slo: Slo, now: real): Row {
    var failures := seen.failures + 1;
    row.(failures := failures,
         level := LevelFor(failures, slo),
         enabled := if failures >= slo.disable then false else seen.enabled,
         nextRunAt := now + MaxReal(retry, 30.0),
         backoffUntil := Some(now + BackoffSeconds(failures, slo.backoffBase, slo.backoffMax)),
         circuitUntil := if failures >= slo.circuitThreshold then Some(now + slo.circuitOpen) else None)
  }

  function Triggered(row: Row, seen: Row, outcome: Outcome, slo: Slo, now: real): Row {
    match outcome
    case Idle(next) => row.(nextRunAt := next)
    case Deduplicated(next) => row.(nextRunAt := next)
    case Blocked(next) => row.(nextRunAt := next)
    case Queued(next) =>
      row.(nextRunAt := next, failures := 0, level := Calm, backoffUntil := None, circuitUntil := None)
    case Error(retry) => Failed(row, seen, retry, slo, now)
  }

  /** The notice of a failing trigger that was handed `seen`. */
  function ErrorNotices(seen: Row, slo: Slo): seq<Notice> {
    var failures := seen.failures + 1;
    var level, disabled := LevelFor(failures, slo), failures >= slo.disable;
    if (level != seen.level && level != Calm) || (disabled && seen.enabled) then [Notice(level, disabled, failures)]
    else []
  }

  function Reset(row: Row): Row {
    row.(failures := 0, level := Calm, backoffUntil := None, circuitUntil := None)
  }

  function Rank(level: Level): nat { match level case Calm => 0 case Warning => 1 case Critical => 2 }

  /** Level and enablement are functions of the failure count and the stored policy. */
  predicate Healthy(row: Row) {
    && MissionPolicy.Valid(row.policy.slo)
    && (row.level == Calm <==> row.failures < row.policy.slo.warning)
    && (row.level == Critical <==> row.failures >= row.policy.slo.critical)
    && (row.enabled ==> row.failures < row.policy.slo.disable)
  }

  // ---- Histories with any number of triggers in flight ----

  /** The stored row, and the row each trigger in flight was handed. */
  datatype Desk = Desk(row: Row, open: map<nat, Row>)

  datatype Event =
    | Begin(id: nat)
    | End(id: nat, outcome: Outcome, now: real)
    | Paused
    | Resumed(nextRunAt: real)
    | Updated(policy: Policy, nextRunAt: real)

  predicate CanHappen(d: Desk, e: Event) {
    match e
    case Begin(id) => id !in d.open
    case End(id, _, _) => id in d.open
    case Updated(policy, _) => Resolved(policy)
    case _ => true
  }

  function Step(d: Desk, e: Event): Desk
    requires CanHappen(d, e)
  {
    match e
    case Begin(id) => d.(open := d.open[id := d.row])
    case End(id, outcome, now) =>
      Desk(Triggered(d.row, d.open[id], outcome, d.open[id].policy.slo, now), d.open - {id})
    case Paused => d.(row := d.row.(enabled := false))
    case Resumed(nextRunAt) => d.(row := Reset(d.row).(enabled := true, nextRunAt := nextRunAt))
    case Updated(policy, nextRunAt) =>
      d.(row := Reset(d.row).(policy := policy, nextRunAt := if d.row.enabled then nextRunAt else d.row.nextRunAt))
  }

  /** The desk after a history, if every event of it could happen. */
  function Play(start: Row, events: seq<Event>): Option<Desk> {
    if events == [] then Some(Desk(start, map[]))
    else
      var d := Play(start, Init(events));
      if d.Some? && CanHappen(d.value, Last(events)) then Some(Step(d.value, Last(events))) else None
  }

  predicate IsError(e: Event) { e.End? && e.outcome.Error? }

  /** Starts a new failing streak: a queued run, an update or a resume. */
  predicate EndsStreak(e: Event) { e.Resumed? || e.Updated? || (e.End? && e.outcome.Queued?) }

  /** The trigger was handed what its closing write meets, as far as the error branch looks at it. */
  predicate Current(row: Row, seen: Row) {
    seen.enabled == row.enabled && seen.failures == row.failures && seen.level == row.level && seen.policy == row.policy
  }

  /**
    The current streak: its errors, the escalation notices they sent, and how many of the errors were handed
    another failure count, an outdated row or another policy than their closing write met.
   */
  datatype Tally = Tally(errors: nat, notices: nat, miscounted: nat, outdated: nat, repoliced: nat)

  function One(b: bool): nat { if b then 1 else 0 }

  function WithError(t: Tally, row: Row, seen: Row, outcome: Outcome): Tally {
    Tally(t.errors + 1,
          t.notices + |ErrorNotices(seen, seen.policy.slo)|,
          t.miscounted + One(seen.failures != row.failures),
          t.outdated + One(!Current(row, seen)),
          t.repoliced + One(seen.policy != row.policy))
  }

  function Counted(t: Tally, d: Desk, e: Event): Tally
    requires CanHappen(d, e)
  {
    if EndsStreak(e) then Tally(0, 0, 0, 0, 0)
    else if IsError(e) then WithError(t, d.row, d.open[e.id], e.outcome)
    else t
  }

  function Streak(start: Row, events: seq<Event>): Tally
    requires Play(start, events).Some?
  {
    if events == [] then Tally(0, 0, 0, 0, 0)
    else Counted(Streak(start, Init(events)), Play(start, Init(events)).value, Last(events))
  }

  function Sent(d: Desk, e: Event): seq<Notice>
    requires CanHappen(d, e)
  {
    if IsError(e) then ErrorNotices(d.open[e.id], d.open[e.id].policy.slo) else []
  }

  /** All escalation notices of a history, in order. */
  function Notices(start: Row, events: seq<Event>): seq<Notice>
    requires Play(start, events).Some?
  {
    if events == [] then [] else Notices(start, Init(events)) + Sent(Play(start, Init(events)).value, Last(events))
  }

  lemma PlayMore(start: Row, events: seq<Event>, e: Event)
    requires Play(start, events).Some? && CanHappen(Play(start, events).value, e)
    ensures Play(start, events + [e]) == Some(Step(Play(start, events).value, e))
    ensures Notices(start, events + [e]) == Notices(start, events) + Sent(Play(start, events).value, e)
  {
    InitLast(events, e);
  }

  lemma LastEvent(start: Row, events: seq<Event>, e: Event)
    requires Play(start, events + [e]).Some?
    ensures Play(start, events).Some? && CanHappen(Play(start, events).value, e)
    ensures Play(start, events + [e]) == Some(Step(Play(start, events).value, e))
  {
    InitLast(events, e);
  }

  // ---- When a scheduler may claim the automation ----

  /** Neither backing off nor behind an open circuit. */
  predicate Unbraked(row: Row, now: real) {
    && (row.backoffUntil.Some? ==> row.backoffUntil.value <= now)
    && (row.circuitUntil.Some? ==> row.circuitUntil.value <= now)
  }

  /** `claim_due_automations`: enabled, due and unbraked. */
  predicate Claimable(row: Row, now: real) { row.enabled && row.nextRunAt <= now && Unbraked(row, now) }

  /** The event enables the automation: a resume, or an error of a trigger handed it enabled and below its limit. */
  predicate Revives(d: Desk, e: Event)
    requires CanHappen(d, e)
  {
    || e.Resumed?
    || (IsError(e) && d.open[e.id].enabled && d.open[e.id].failures + 1 < d.open[e.id].policy.slo.disable)
  }

  /** The waiting times an error imposes have passed. */
  predicate Waited(seen: Row, retry: real, since: real, now: real) {
    var failures, slo := seen.failures + 1, seen.policy.slo;
    && since + retry <= now && since + 30.0 <= now
    && since + BackoffSeconds(failures, slo.backoffBase, slo.backoffMax) <= now
    && (failures >= slo.circuitThreshold ==> since + slo.circuitOpen <= now)
  }

  /** Exactly when a scheduler may claim the automation after each event. */
  lemma ClaimableAfter(d: Desk, e: Event, t: real)
    requires CanHappen(d, e)
    ensures Claimable(Step(d, e).row, t) <==>
              match e
              case Begin(_) => Claimable(d.row, t)
              case Paused => false
              case Resumed(next) => next <= t
              case Updated(_, next) => d.row.enabled && next <= t
              case End(id, Error(retry), now) => Revives(d, e) && Waited(d.open[id], retry, now, t)
              case End(_, Queued(next), _) => d.row.enabled && next <= t
              case End(_, outcome, _) => d.row.enabled && outcome.next <= t && Unbraked(d.row, t)
  {
  }

  /** The events can happen one after the other. */
  predicate CanFollow(d: Desk, events: seq<Event>)
    decreases |events|
  {
    events == [] || (CanHappen(d, events[0]) && CanFollow(Step(d, events[0]), events[1..]))
  }

  function Following(d: Desk, events: seq<Event>): Desk
    requires CanFollow(d, events)
    decreases |events|
  {
    if events == [] then d else Following(Step(d, events[0]), events[1..])
  }

  predicate NeverRevived(d: Desk, events: seq<Event>)
    requires CanFollow(d, events)
    decreases |events|
  {
    events == [] || (!Revives(d, events[0]) && NeverRevived(Step(d, events[0]), events[1..]))
  }

  /** A disabled automation stays so until an event revives it. */
  lemma {:induction false} DisabledStays(d: Desk, events: seq<Event>)
    requires CanFollow(d, events) && NeverRevived(d, events) && !d.row.enabled
    ensures !Following(d, events).row.enabled
    decreases |events|
  {
    if events != [] {
      DisabledStays(Step(d, events[0]), events[1..]);
    }
  }

  /** After a pause no scheduler claims the automation at any time, until an event revives it. */
  lemma PauseHolds(d: Desk, events: seq<Event>, t: real)
    requires CanFollow(Step(d, Paused), events) && NeverRevived(Step(d, Paused), events)
    ensures !Claimable(Following(Step(d, Paused), events).row, t)
  {
    DisabledStays(Step(d, Paused), events);
  }

  /** An error tells the inbox the level and count it stores, when the level rises above calm or the automation goes. */
  lemma NoticeIff(d: Desk, e: Event)
    requires CanHappen(d, e) && IsError(e)
    ensures var seen, row := d.open[e.id], Step(d, e).row;
            Sent(d, e)
            == if (row.level != seen.level && row.level != Calm) || (seen.enabled && !row.enabled)
               then [Notice(row.level, row.failures >= seen.policy.slo.disable, row.failures)] else []
  {
  }

  // ---- What one closing write keeps ----

  /** An error keeps the count equal to the errors of the streak if and only if its trigger was handed that count. */
  lemma ErrorKeepsCountIff(d: Desk, t: Tally, e: Event)
    requires CanHappen(d, e) && e.End? && d.row.failures == t.errors
    ensures Step(d, e).row.failures == Counted(t, d, e).errors <==>
              (IsError(e) ==> d.open[e.id].failures == d.row.failures)
  {
  }

  /** The next failure count passes the same thresholds of the stored policy as of the one the trigger enforces. */
  predicate Fits(row: Row, seen: Row) {
    var failures, slo, was := seen.failures + 1, row.policy.slo, seen.policy.slo;
    && (failures >= slo.warning <==> failures >= was.warning)
    && (failures >= slo.critical <==> failures >= was.critical)
    && (seen.enabled && failures >= slo.disable ==> failures >= was.disable)
  }

  /** An error leaves the row healthy if and only if the trigger's count fits the stored policy; other ends do. */
  lemma EndKeepsHealthIff(d: Desk, e: Event)
    requires CanHappen(d, e) && e.End? && Healthy(d.row) && MissionPolicy.Valid(d.open[e.id].policy.slo)
    ensures Healthy(Step(d, e).row) <==> (IsError(e) ==> Fits(d.row, d.open[e.id]))
  {
  }

  /** A trigger whose policy is still the stored one always fits. */
  lemma SamePolicyFits(row: Row, seen: Row)
    requires seen.policy == row.policy
    ensures Fits(row, seen)
  {
  }

  /** After a failing trigger a paused automation is enabled exactly when the trigger had seen it enabled and below. */
  lemma FailureOverwritesPause(d: Desk, id: nat, retry: real, now: real)
    requires id in d.open
    ensures var seen := d.open[id];
            Step(Step(d, Paused), End(id, Error(retry), now)).row.enabled
            <==> seen.enabled && seen.failures + 1 < seen.policy.slo.disable
  {
  }

  // ---- What every history keeps ----

  /** How many notices a healthy row accounts for. */
  function Weight(row: Row): nat {
    if Healthy(row) then Rank(row.level) + One(row.failures >= row.policy.slo.disable) else 0
  }

  /** An up-to-date error pays for its notice; an outdated one costs up to three, and one more if the policy changed. */
  lemma NoticeIsPaid(row: Row, seen: Row, retry: real, now: real)
    requires MissionPolicy.Valid(row.policy.slo) && MissionPolicy.Valid(seen.policy.slo)
    ensures Weight(row) + |ErrorNotices(seen, seen.policy.slo)|
         <= Weight(Failed(row, seen, retry, seen.policy.slo, now))
            + 3 * One(!Current(row, seen)) + One(seen.policy != row.policy)
  {
  }

  /** The last error of the streak, if any, fitted the policy it met. */
  predicate LastFits(start: Row, events: seq<Event>)
    requires Play(start, events).Some?
  {
    if events == [] || EndsStreak(Last(events)) then true
    else if IsError(Last(events)) then
      var d := Play(start, Init(events)).value;
      Fits(d.row, d.open[Last(events).id])
    else LastFits(start, Init(events))
  }

  predicate Fresh(row: Row) { Resolved(row.policy) && row.failures == 0 && row.level == Calm }

  predicate Sound(d: Desk) { Resolved(d.row.policy) && forall id | id in d.open :: Resolved(d.open[id].policy) }

  /** The invariant on values: a desk, the tally of its streak and whether the last error fitted. */
  predicate TrackedAs(d: Desk, t: Tally, fits: bool) {
    && Sound(d)
    && t.repoliced <= t.outdated
    && t.notices <= Weight(d.row) + 3 * t.outdated + t.repoliced
    && (t.miscounted == 0 ==> d.row.failures == t.errors)
    && (fits ==> Healthy(d.row))
  }

  /** What every history of an automation keeps. */
  predicate Tracked(start: Row, events: seq<Event>)
    requires Play(start, events).Some?
  {
    TrackedAs(Play(start, events).value, Streak(start, events), LastFits(start, events))
  }

  lemma OneMore(start: Row, events: seq<Event>, e: Event)
    requires Play(start, events).Some? && CanHappen(Play(start, events).value, e)
    ensures Play(start, events + [e]) == Some(Step(Play(start, events).value, e))
    ensures Streak(start, events + [e]) == Counted(Streak(start, events), Play(start, events).value, e)
    ensures LastFits(start, events + [e]) <==>
              || EndsStreak(e)
              || (IsError(e) && Fits(Play(start, events).value.row, Play(start, events).value.open[e.id]))
              || (!IsError(e) && LastFits(start, events))
  {
    InitLast(events, e);
  }

  lemma ErrorTracked(d: Desk, t: Tally, fits: bool, e: Event)
    requires CanHappen(d, e) && IsError(e) && TrackedAs(d, t, fits)
    ensures TrackedAs(Step(d, e), Counted(t, d, e), Fits(d.row, d.open[e.id]))
  {
    NoticeIsPaid(d.row, d.open[e.id], e.outcome.retry, e.now);
  }

  lemma ResetTracked(d: Desk, t: Tally, fits: bool, e: Event)
    requires CanHappen(d, e) && EndsStreak(e) && TrackedAs(d, t, fits)
    ensures TrackedAs(Step(d, e), Counted(t, d, e), true)
  {
  }

  lemma OtherTracked(d: Desk, t: Tally, fits: bool, e: Event)
    requires CanHappen(d, e) && !EndsStreak(e) && !IsError(e) && TrackedAs(d, t, fits)
    ensures TrackedAs(Step(d, e), Counted(t, d, e), fits)
  {
  }

  lemma EventKeepsTracked(start: Row, events: seq<Event>, e: Event)
    requires Play(start, events).Some? && CanHappen(Play(start, events).value, e) && Tracked(start, events)
    ensures Play(start, events + [e]).Some? && Tracked(start, events + [e])
  {
    var d, t, fits := Play(start, events).value, Streak(start, events), LastFits(start, events);
    OneMore(start, events, e);
    if IsError(e) {
      ErrorTracked(d, t, fits, e);
    } else if EndsStreak(e) {
      ResetTracked(d, t, fits, e);
    } else {
      OtherTracked(d, t, fits, e);
    }
  }

  lemma TrackedAtStart(start: Row)
    requires Fresh(start)
    ensures Tracked(start, [])
  {
  }

  lemma FrontPlays(start: Row, events: seq<Event>)
    requires events != [] && Play(start, events).Some?
    ensures Play(start, Init(events)).Some? && CanHappen(Play(start, Init(events)).value, Last(events))
  {
  }

  lemma LastKeepsTracked(start: Row, events: seq<Event>)
    requires events != [] && Play(start, events).Some? && Play(start, Init(events)).Some?
    requires CanHappen(Play(start, Init(events)).value, Last(events)) && Tracked(start, Init(events))
    ensures Tracked(start, events)
  {
    EventKeepsTracked(start, Init(events), Last(events));
    assert events == Init(events) + [Last(events)];
  }

  lemma {:induction false} AlwaysTracked(start: Row, events: seq<Event>)
    requires Fresh(start) && Play(start, events).Some?
    ensures Tracked(start, events)
  {
    if events == [] {
      TrackedAtStart(start);
    } else {
      FrontPlays(start, events);
      AlwaysTracked(start, Init(events));
      LastKeepsTracked(start, events);
    }
  }

  /**
    In every history the failure counter counts the errors of the current streak unless one of them was
    handed another count; the escalation level is the threshold function of the counter and an enabled
    automation is below its disable threshold unless the last error did not fit the policy it met.
   */
  lemma HealthIsTheStreak(start: Row, events: seq<Event>)
    requires Fresh(start) && Play(start, events).Some?
    ensures var row, t := Play(start, events).value.row, Streak(start, events);
            && (t.miscounted == 0 ==> row.failures == t.errors)
            && (LastFits(start, events) ==> Healthy(row))
  {
    AlwaysTracked(start, events);
  }

  /** A streak sends at most three notices, three more per outdated error and one more per changed policy. */
  lemma NoticesAreBounded(start: Row, events: seq<Event>)
    requires Fresh(start) && Play(start, events).Some?
    ensures var t := Streak(start, events); t.notices <= 3 + 3 * t.outdated + t.repoliced
  {
    AlwaysTracked(start, events);
  }

  /** Without outdated errors a failing streak, however long, sends at most three escalation notices. */
  lemma AtMostThreeNotices(start: Row, events: seq<Event>)
    requires Fresh(start) && Play(start, events).Some? && Streak(start, events).outdated == 0
    ensures Streak(start, events).notices <= 3
  {
    AlwaysTracked(start, events);
  }

  // ---- The row as an object ----

  /** What an error event stores and sends. */
  lemma SentByError(d: Desk, id: nat, retry: real, now: real)
    requires id in d.open
    ensures Step(d, End(id, Error(retry), now)).row == Failed(d.row, d.open[id], retry, d.open[id].policy.slo, now)
    ensures Sent(d, End(id, Error(retry), now)) == ErrorNotices(d.open[id], d.open[id].policy.slo)
  {
  }

  /** The row, the triggers in flight and the inbox are what the history of events made them. */
  predicate Made(start: Row, events: seq<Event>, d: Desk, inbox: seq<Notice>) {
    Fresh(start) && Play(start, events) == Some(d) && inbox == Notices(start, events)
  }

  lemma MadeMore(start: Row, events: seq<Event>, d: Desk, inbox: seq<Notice>, e: Event)
    requires Made(start, events, d, inbox) && CanHappen(d, e)
    ensures Made(start, events + [e], Step(d, e), inbox + Sent(d, e))
  {
    PlayMore(start, events, e);
  }

  class Automation {
    var row: Row
    var inbox: seq<Notice>
    ghost var open: map<nat, Row>
    ghost var start: Row
    ghost var events: seq<Event>

    /** The row and the inbox are what the history of events made them. */
    ghost predicate Recorded()
      reads this
    {
      Made(start, events, Desk(row, open), inbox)
    }

    /** So the row is what a history leaves: counter, level, enablement and notices are tied to the streak. */
    ghost predicate Valid()
      reads this
    {
      Recorded() && Tracked(start, events)
    }

    constructor (policy: Option<RawPolicy>, defaults: RawPolicy, nextRunAt: real)
      ensures Valid() && events == [] && row.enabled && row.nextRunAt == nextRunAt
      ensures Resolve(policy, None, Some(defaults)) == Ok(row.policy)
    {
      ResolvedIsValid(policy, None, Some(defaults));
      row := Row(true, 0, Calm, Resolve(policy, None, Some(defaults)).value, nextRunAt, None, None);
      inbox, open, events := [], map[], [];
      start := Row(true, 0, Calm, Resolve(policy, None, Some(defaults)).value, nextRunAt, None, None);
    }

    /** Lengthens the history by an event that has just been carried out. */
    ghost method Note(e: Event, before: Desk, sent: seq<Notice>)
      requires Made(start, events, before, sent) && CanHappen(before, e)
      requires Step(before, e).row == row && inbox == sent + Sent(before, e)
      modifies this`events, this`open
      ensures Recorded() && events == old(events) + [e] && open == Step(before, e).open
    {
      MadeMore(start, events, before, sent, e);
      open := Step(before, e).open;
      events := events + [e];
    }

    method Pause()
      requires Valid()
      modifies this
      ensures Valid() && start == old(start) && events == old(events) + [Paused]
      ensures forall t :: !Claimable(row, t)
    {
      ghost var before := Desk(row, open);
      row := row.(enabled := false);
      Note(Paused, before, old(inbox));
      AlwaysTracked(start, events);
    }

    method Resume(nextRunAt: real)
      requires Valid()
      modifies this
      ensures Valid() && start == old(start) && events == old(events) + [Resumed(nextRunAt)]
      ensures forall t :: Claimable(row, t) <==> nextRunAt <= t
    {
      ghost var before := Desk(row, open);
      row := Reset(row).(enabled := true, nextRunAt := nextRunAt);
      Note(Resumed(nextRunAt), before, old(inbox));
      AlwaysTracked(start, events);
    }

    /** A new policy replaces the stored one; without one the stored policy stays. */
    method Update(policy: Option<RawPolicy>, defaults: RawPolicy, nextRunAt: real)
      requires Valid()
      modifies this
      ensures policy.None? ==> row.policy == old(row).policy
      ensures policy.Some? ==> Resolve(policy, None, Some(defaults)) == Ok(row.policy)
      ensures Valid() && start == old(start) && events == old(events) + [Updated(row.policy, nextRunAt)]
      ensures forall t :: Claimable(row, t) <==> old(row).enabled && nextRunAt <= t
    {
      ghost var before := Desk(row, open);
      var next := Reset(row);
      if policy.Some? {
        ResolvedIsValid(policy, None, Some(defaults));
        next := next.(policy := Resolve(policy, None, Some(defaults)).value);
      }
      if row.enabled {
        next := next.(nextRunAt := nextRunAt);
      }
      row := next;
      Note(Updated(row.policy, nextRunAt), before, old(inbox));
      AlwaysTracked(start, events);
    }

    /** A trigger is handed the row, by a scheduler's claim or by a manual run. */
    method HandOut(ghost id: nat) returns (seen: Row)
      requires Valid() && id !in open
      modifies this
      ensures Valid() && start == old(start) && events == old(events) + [Begin(id)]
      ensures seen == row == old(row) && id in open && open[id] == seen
    {
      seen := row;
      Note(Begin(id), Desk(row, open), inbox);
      AlwaysTracked(start, events);
    }

    /** The policy in force at a trigger: the stored one, re-resolved under the current defaults. */
    method EffectiveSlo(stored: Policy, defaults: RawPolicy) returns (slo: Slo)
      requires Resolved(stored)
      ensures slo == stored.slo
    {
      StoredPolicyIsFixed(stored, Some(defaults));
      var r := Resolve(Some(Stored(stored)), None, Some(defaults));
      slo := if r.Ok? then r.value.slo else NormalizePolicy(defaults).slo;
    }

    /** The error branch of a trigger, with the notice it sends. */
    method RecordError(ghost id: nat, seen: Row, retry: real, slo: Slo, now: real)
      requires Recorded() && id in open && open[id] == seen && slo == seen.policy.slo
      modifies this
      ensures Recorded() && start == old(start) && events == old(events) + [End(id, Error(retry), now)]
    {
      ghost var before := Desk(row, open);
      SentByError(before, id, retry, now);
      row := Failed(row, seen, retry, slo, now);
      NotifyEscalation(seen, slo);
      Note(End(id, Error(retry), now), before, old(inbox));
    }

    method NotifyEscalation(seen: Row, slo: Slo)
      modifies this`inbox
      ensures inbox == old(inbox) + ErrorNotices(seen, slo)
    {
      var failures := seen.failures + 1;
      var level, disableNow := LevelFor(failures, slo), failures >= slo.disable;
      if (level != seen.level && level != Calm) || (disableNow && seen.enabled) {
        inbox := inbox + [Notice(level, disableNow, failures)];
      }
    }

    /** The closing write of a trigger that was handed `seen`. */
    method Trigger(ghost id: nat, seen: Row, outcome: Outcome, defaults: RawPolicy, now: real)
      requires Valid() && id in open && open[id] == seen
      modifies this
      ensures Valid() && start == old(start) && events == old(events) + [End(id, outcome, now)]
    {
      ghost var before := Desk(row, open);
      var slo := EffectiveSlo(seen.policy, defaults);
      if outcome.Error? {
        RecordError(id, seen, outcome.retry, slo, now);
      } else {
        row := if outcome.Queued? then Reset(row).(nextRunAt := outcome.next) else row.(nextRunAt := outcome.next);
        Note(End(id, outcome, now), before, old(inbox));
      }
      AlwaysTracked(start, events);
    }
  }

  // ---- After an error ----

  /** Neither an error nor the end of a streak. */
  predicate KeepsBrakes(e: Event) { !IsError(e) && !EndsStreak(e) }

  /** A new trigger or a pause. */
  predicate KeepsNextRun(e: Event) { e.Begin? || e.Paused? }

  predicate SameBrakes(row: Row, row': Row) {
    row'.backoffUntil == row.backoffUntil && row'.circuitUntil == row.circuitUntil
  }

  /** Backoff and circuit change only with an error or the end of the streak; any closing write moves the next run. */
  lemma EventKeepsBrakes(d: Desk, e: Event)
    requires CanHappen(d, e)
    ensures var row, row' := d.row, Step(d, e).row;
            && (KeepsBrakes(e) ==> SameBrakes(row, row'))
            && (EndsStreak(e) ==> row'.backoffUntil == None && row'.circuitUntil == None)
            && (KeepsNextRun(e) ==> row'.nextRunAt == row.nextRunAt)
  {
  }

  lemma {:induction false} BrakesStay(start: Row, events: seq<Event>, rest: seq<Event>)
    requires Play(start, events).Some? && Play(start, events + rest).Some? && forall e | e in rest :: KeepsBrakes(e)
    ensures SameBrakes(Play(start, events).value.row, Play(start, events + rest).value.row)
  {
    if rest == [] {
      assert events + rest == events;
    } else {
      var front, last := events + Init(rest), Last(rest);
      assert events + rest == front + [last];
      LastEvent(start, front, last);
      BrakesStay(start, events, Init(rest));
      assert KeepsBrakes(last);
      EventKeepsBrakes(Play(start, front).value, last);
    }
  }

  lemma {:induction false} NextRunStays(start: Row, events: seq<Event>, rest: seq<Event>)
    requires Play(start, events).Some? && Play(start, events + rest).Some? && forall e | e in rest :: KeepsNextRun(e)
    ensures Play(start, events + rest).value.row.nextRunAt == Play(start, events).value.row.nextRunAt
  {
    if rest == [] {
      assert events + rest == events;
    } else {
      var front, last := events + Init(rest), Last(rest);
      assert events + rest == front + [last];
      LastEvent(start, front, last);
      NextRunStays(start, events, Init(rest));
      assert KeepsNextRun(last);
      EventKeepsBrakes(Play(start, front).value, last);
    }
  }

  /**
    After an error no scheduler claims the automation before its backoff and its circuit have passed, until
    the next error, success, resume or update; and not before the retry floor until any closing write.
   */
  lemma QuietAfterError(start: Row, events: seq<Event>, e: Event, rest: seq<Event>, later: real)
    requires Play(start, events).Some? && CanHappen(Play(start, events).value, e) && IsError(e)
    requires MissionPolicy.Valid(Play(start, events).value.open[e.id].policy.slo)
    requires Play(start, events + [e] + rest).Some? && forall f | f in rest :: KeepsBrakes(f)
    requires Claimable(Play(start, events + [e] + rest).value.row, later)
    ensures var seen := Play(start, events).value.open[e.id];
            var slo := seen.policy.slo;
            && later >= e.now + BackoffSeconds(seen.failures + 1, slo.backoffBase, slo.backoffMax)
            && later >= e.now + slo.backoffBase
            && (seen.failures + 1 >= slo.circuitThreshold ==> later >= e.now + slo.circuitOpen)
            && ((forall f | f in rest :: KeepsNextRun(f)) ==> later >= e.now + MaxReal(e.outcome.retry, 30.0))
  {
    var seen := Play(start, events).value.open[e.id];
    PlayMore(start, events, e);
    SentByError(Play(start, events).value, e.id, e.outcome.retry, e.now);
    BrakesStay(start, events + [e], rest);
    if forall f | f in rest :: KeepsNextRun(f) {
      NextRunStays(start, events + [e], rest);
    }
    BackoffWithinPolicy(seen.policy.slo, 0, seen.failures + 1);
  }
}
