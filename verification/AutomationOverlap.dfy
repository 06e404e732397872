/**
  Overlapping triggers at work: histories in which the failure counter misses errors, notices repeat and an
  enabled automation is past its disable threshold. They show that the bounds of `AutomationHealth` are
  attained.
 */
module AutomationOverlap {
  import opened Common
  import opened MissionPolicy
  import opened AutomationHealth
  import opened Text

  const BALANCED := Policy("balanced", PROFILES["balanced"])
  const STRICT := Policy("strict", PROFILES["strict"])

  /** Critical at the first failure. */
  const EAGER := Policy("balanced", Slo(1, 1, 9, 5.0, 300.0, 4, 120.0))

  /** Warning at the second failure, critical at the third, disabled at the fourth. */
  const PATIENT := Policy("balanced", Slo(2, 3, 4, 5.0, 300.0, 4, 120.0))

  function NewRow(policy: Policy): Row { Row(true, 0, Calm, policy, 0.0, None, None) }

  function Failing(id: nat): Event { End(id, Error(30.0), 0.0) }

  lemma ProfilesAreResolved()
    ensures Resolved(BALANCED) && Resolved(STRICT) && Resolved(EAGER) && Resolved(PATIENT)
  {
    BalancedIsNormal();
    assert Lower("strict") == "strict" && Underscored("strict") == "strict";
  }

  /** The row after an error of a trigger that was handed `seen`. */
  function AfterError(row: Row, seen: Row): Row { Failed(row, seen, 30.0, seen.policy.slo, 0.0) }

  /** A trigger in flight fails. */
  lemma Fails(start: Row, events: seq<Event>, d: Desk, t: Tally, id: nat)
      returns (events': seq<Event>, d': Desk, t': Tally)
    requires Play(start, events) == Some(d) && Streak(start, events) == t && id in d.open
    ensures Play(start, events') == Some(d') && Streak(start, events') == t'
    ensures d' == Desk(AfterError(d.row, d.open[id]), d.open - {id})
    ensures t' == WithError(t, d.row, d.open[id], Error(30.0))
  {
    OneMore(start, events, Failing(id));
    events', d', t' := events + [Failing(id)], Step(d, Failing(id)), Counted(t, d, Failing(id));
  }

  /** A trigger is handed the row. */
  lemma Starts(start: Row, events: seq<Event>, d: Desk, t: Tally, id: nat) returns (events': seq<Event>, d': Desk)
    requires Play(start, events) == Some(d) && Streak(start, events) == t && id !in d.open
    ensures Play(start, events') == Some(d') && Streak(start, events') == t
    ensures d' == Desk(d.row, d.open[id := d.row])
  {
    OneMore(start, events, Begin(id));
    events', d' := events + [Begin(id)], Step(d, Begin(id));
  }

  /** A trigger runs with nothing in between and fails. */
  lemma FailsAlone(start: Row, events: seq<Event>, d: Desk, t: Tally) returns (events': seq<Event>, d': Desk, t': Tally)
    requires Play(start, events) == Some(d) && Streak(start, events) == t && 0 !in d.open
    ensures Play(start, events') == Some(d') && Streak(start, events') == t'
    ensures d' == Desk(AfterError(d.row, d.row), d.open)
    ensures t' == WithError(t, d.row, d.row, Error(30.0))
  {
    var mid;
    events', mid := Starts(start, events, d, t, 0);
    events', d', t' := Fails(start, events', mid, t, 0);
    assert mid.open - {0} == d.open;
  }

  /** `n` triggers, numbered from one, have all been handed the given row. */
  function Handed(row: Row, n: nat): (open: map<nat, Row>)
    ensures forall id | id in open :: 1 <= id <= n && open[id] == row
  {
    if n == 0 then map[] else Handed(row, n - 1)[n := row]
  }

  lemma {:induction false} AllStart(start: Row, events: seq<Event>, d: Desk, t: Tally, n: nat)
      returns (events': seq<Event>, d': Desk)
    requires Play(start, events) == Some(d) && Streak(start, events) == t && d.open == map[]
    ensures Play(start, events') == Some(d') && Streak(start, events') == t
    ensures d' == Desk(d.row, Handed(d.row, n))
    decreases n
  {
    if n == 0 {
      events', d' := events, d;
    } else {
      var mid;
      events', mid := AllStart(start, events, d, t, n - 1);
      events', d' := Starts(start, events', mid, t, n);
    }
  }

  /** `n` triggers are handed the new row. */
  lemma AllHanded(start: Row, n: nat) returns (events: seq<Event>, d: Desk)
    ensures Play(start, events) == Some(d) && Streak(start, events) == Tally(0, 0, 0, 0, 0)
    ensures d == Desk(start, Handed(start, n))
  {
    events, d := AllStart(start, [], Desk(start, map[]), Tally(0, 0, 0, 0, 0), n);
  }

  // ---- The counter misses errors ----

  /** After one error under the balanced profile: one failure, not yet a warning. */
  lemma OneFailure() returns (events: seq<Event>, d: Desk)
    ensures Play(NewRow(BALANCED), events) == Some(d) && Streak(NewRow(BALANCED), events) == Tally(1, 0, 0, 0, 0)
    ensures d.open == map[] && d.row.failures == 1 && d.row.level == Calm && d.row.enabled && d.row.policy == BALANCED
  {
    var t;
    events, d, t := FailsAlone(NewRow(BALANCED), [], Desk(NewRow(BALANCED), map[]), Tally(0, 0, 0, 0, 0));
  }

  lemma {:induction false} AllFail(events: seq<Event>, d: Desk, t: Tally, seen: Row, n: nat)
      returns (events': seq<Event>, d': Desk, t': Tally)
    requires Play(NewRow(BALANCED), events) == Some(d) && Streak(NewRow(BALANCED), events) == t
    requires d.open == Handed(seen, n) && seen.policy == BALANCED
    requires seen.failures == 1 && seen.level == Calm
    ensures Play(NewRow(BALANCED), events') == Some(d') && Streak(NewRow(BALANCED), events') == t'
    ensures t'.errors == t.errors + n && t'.notices == t.notices + n
    ensures d'.row.failures == if n == 0 then d.row.failures else 2
    decreases n
  {
    events', d', t' := events, d, t;
    if n > 0 {
      events', d', t' := Fails(NewRow(BALANCED), events, d, t, n);
      assert d'.open == Handed(seen, n - 1);
      events', d', t' := AllFail(events', d', t', seen, n - 1);
    }
  }

  /** Any number of triggers handed the same row each send a warning, and together count as one error. */
  lemma OverlapMiscounts(n: nat) returns (events: seq<Event>, d: Desk, t: Tally)
    requires n >= 1
    ensures Fresh(NewRow(BALANCED))
    ensures Play(NewRow(BALANCED), events) == Some(d) && Streak(NewRow(BALANCED), events) == t
    ensures d.row.failures == 2 && t.errors == n + 1 && t.notices == n
  {
    var d0;
    ProfilesAreResolved();
    events, d0 := OneFailure();
    events, d := AllStart(NewRow(BALANCED), events, d0, Tally(1, 0, 0, 0, 0), n);
    events, d, t := AllFail(events, d, Tally(1, 0, 0, 0, 0), d0.row, n);
  }

  // ---- An enabled automation past its disable threshold ----

  /** The strict profile arrives while a trigger that saw two failures is in flight. */
  lemma UpdateLeavesUnhealthy() returns (events: seq<Event>, d: Desk)
    ensures Fresh(NewRow(BALANCED)) && Play(NewRow(BALANCED), events) == Some(d)
    ensures d.row.policy == STRICT && d.row.enabled && d.row.failures == 3 == STRICT.slo.disable && !Healthy(d.row)
  {
    ProfilesAreResolved();
    var start, t := NewRow(BALANCED), Tally(1, 0, 0, 0, 0);
    events, d := OneFailure();
    events, d, t := FailsAlone(start, events, d, t);
    events, d := Starts(start, events, d, t, 1);
    OneMore(start, events, Updated(STRICT, 0.0));
    events, d := events + [Updated(STRICT, 0.0)], Step(d, Updated(STRICT, 0.0));
    events, d, t := Fails(start, events, d, Streak(start, events), 1);
  }

  // ---- The bound on notices is attained ----

  /** Disabled under the strict profile, with `n` triggers in flight that were handed the new row. */
  predicate StrictRound(events: seq<Event>, d: Desk, t: Tally, n: nat) {
    && Play(NewRow(STRICT), events) == Some(d) && Streak(NewRow(STRICT), events) == t
    && d.open == Handed(NewRow(STRICT), n)
    && d.row.failures == 3 && d.row.level == Critical && !d.row.enabled && d.row.policy == STRICT
  }

  /** A calm automation under the strict profile warns, turns critical and is disabled. */
  lemma StrictFails(start: Row, events: seq<Event>, d: Desk, t: Tally)
      returns (events': seq<Event>, d': Desk, t': Tally)
    requires Play(start, events) == Some(d) && Streak(start, events) == t && 0 !in d.open
    requires d.row.failures == 0 && d.row.level == Calm && d.row.enabled && d.row.policy == STRICT
    ensures Play(start, events') == Some(d') && Streak(start, events') == t' && d'.open == d.open
    ensures d'.row.failures == 3 && d'.row.level == Critical && !d'.row.enabled && d'.row.policy == STRICT
    ensures t'.notices == t.notices + 3 && t'.outdated == t.outdated && t'.repoliced == t.repoliced
  {
    events', d', t' := FailsAlone(start, events, d, t);
    events', d', t' := FailsAlone(start, events', d', t');
    events', d', t' := FailsAlone(start, events', d', t');
  }

  lemma StrictStart(n: nat) returns (events: seq<Event>, d: Desk, t: Tally)
    ensures StrictRound(events, d, t, n) && t.notices == 3 && t.outdated == 0 && t.repoliced == 0
  {
    var start := NewRow(STRICT);
    t := Tally(0, 0, 0, 0, 0);
    events, d := AllHanded(start, n);
    events, d, t := StrictFails(start, events, d, t);
  }

  /** A warned automation under the strict profile turns critical and is disabled. */
  lemma StrictFailsOn(start: Row, events: seq<Event>, d: Desk, t: Tally)
      returns (events': seq<Event>, d': Desk, t': Tally)
    requires Play(start, events) == Some(d) && Streak(start, events) == t && 0 !in d.open
    requires d.row.failures == 1 && d.row.level == Warning && d.row.enabled && d.row.policy == STRICT
    ensures Play(start, events') == Some(d') && Streak(start, events') == t' && d'.open == d.open
    ensures d'.row.failures == 3 && d'.row.level == Critical && !d'.row.enabled && d'.row.policy == STRICT
    ensures t'.notices == t.notices + 2 && t'.outdated == t.outdated && t'.repoliced == t.repoliced
  {
    events', d', t' := FailsAlone(start, events, d, t);
    events', d', t' := FailsAlone(start, events', d', t');
  }

  /** One outdated error re-enables the automation and starts the escalation over: three more notices. */
  lemma StrictAgain(events: seq<Event>, d: Desk, t: Tally, n: nat) returns (events': seq<Event>, d': Desk, t': Tally)
    requires StrictRound(events, d, t, n) && n > 0
    ensures StrictRound(events', d', t', n - 1)
    ensures t'.notices == t.notices + 3 && t'.outdated == t.outdated + 1 && t'.repoliced == t.repoliced
  {
    var start := NewRow(STRICT);
    events', d', t' := Fails(start, events, d, t, n);
    assert d'.open == Handed(start, n - 1);
    events', d', t' := StrictFailsOn(start, events', d', t');
  }

  lemma {:induction false} StrictRounds(events: seq<Event>, d: Desk, t: Tally, n: nat)
      returns (events': seq<Event>, d': Desk, t': Tally)
    requires StrictRound(events, d, t, n)
    ensures StrictRound(events', d', t', 0)
    ensures t'.notices == t.notices + 3 * n && t'.outdated == t.outdated + n && t'.repoliced == t.repoliced
    decreases n
  {
    events', d', t' := events, d, t;
    if n > 0 {
      events', d', t' := StrictAgain(events, d, t, n);
      events', d', t' := StrictRounds(events', d', t', n - 1);
    }
  }

  /** With `n` outdated errors under one policy a streak can send three notices and three more for each. */
  lemma NoticesAttained(n: nat) returns (events: seq<Event>, t: Tally)
    ensures Fresh(NewRow(STRICT)) && Play(NewRow(STRICT), events).Some? && Streak(NewRow(STRICT), events) == t
    ensures t.outdated == n && t.repoliced == 0 && t.notices == 3 + 3 * n
  {
    ProfilesAreResolved();
    var d;
    events, d, t := StrictStart(n);
    events, d, t := StrictRounds(events, d, t, n);
  }

  /** Disabled under the patient policy, with `n` triggers in flight that enforce the eager one. */
  predicate PatientRound(events: seq<Event>, d: Desk, t: Tally, n: nat) {
    && Play(NewRow(EAGER), events) == Some(d) && Streak(NewRow(EAGER), events) == t
    && d.open == Handed(NewRow(EAGER), n)
    && d.row.failures == 4 && d.row.level == Critical && !d.row.enabled && d.row.policy == PATIENT
  }

  /** A calm automation under the patient policy fails once quietly, then warns, turns critical and is disabled. */
  lemma PatientFails(start: Row, events: seq<Event>, d: Desk, t: Tally)
      returns (events': seq<Event>, d': Desk, t': Tally)
    requires Play(start, events) == Some(d) && Streak(start, events) == t && 0 !in d.open
    requires d.row.failures == 0 && d.row.level == Calm && d.row.enabled && d.row.policy == PATIENT
    ensures Play(start, events') == Some(d') && Streak(start, events') == t' && d'.open == d.open
    ensures d'.row.failures == 4 && d'.row.level == Critical && !d'.row.enabled && d'.row.policy == PATIENT
    ensures t'.notices == t.notices + 3 && t'.outdated == t.outdated && t'.repoliced == t.repoliced
  {
    events', d', t' := FailsAlone(start, events, d, t);
    events', d', t' := FailsAlone(start, events', d', t');
    events', d', t' := FailsAlone(start, events', d', t');
    events', d', t' := FailsAlone(start, events', d', t');
  }

  lemma PatientStart(n: nat) returns (events: seq<Event>, d: Desk, t: Tally)
    ensures PatientRound(events, d, t, n) && t.notices == 3 && t.outdated == 0 && t.repoliced == 0
  {
    ProfilesAreResolved();
    var start := NewRow(EAGER);
    t := Tally(0, 0, 0, 0, 0);
    events, d := AllHanded(start, n);
    OneMore(start, events, Updated(PATIENT, 0.0));
    events, d := events + [Updated(PATIENT, 0.0)], Step(d, Updated(PATIENT, 0.0));
    events, d, t := PatientFails(start, events, d, t);
  }

  /** An error under the old policy leaves a level the new one takes back before it escalates: four more notices. */
  lemma PatientAgain(events: seq<Event>, d: Desk, t: Tally, n: nat) returns (events': seq<Event>, d': Desk, t': Tally)
    requires PatientRound(events, d, t, n) && n > 0
    ensures PatientRound(events', d', t', n - 1)
    ensures t'.notices == t.notices + 4 && t'.outdated == t.outdated + 1 && t'.repoliced == t.repoliced + 1
  {
    var start := NewRow(EAGER);
    events', d', t' := Fails(start, events, d, t, n);
    assert d'.open == Handed(start, n - 1);
    events', d', t' := FailsAlone(start, events', d', t');
    events', d', t' := FailsAlone(start, events', d', t');
    events', d', t' := FailsAlone(start, events', d', t');
  }

  lemma {:induction false} PatientRounds(events: seq<Event>, d: Desk, t: Tally, n: nat)
      returns (events': seq<Event>, d': Desk, t': Tally)
    requires PatientRound(events, d, t, n)
    ensures PatientRound(events', d', t', 0)
    ensures t'.notices == t.notices + 4 * n && t'.outdated == t.outdated + n && t'.repoliced == t.repoliced + n
    decreases n
  {
    events', d', t' := events, d, t;
    if n > 0 {
      events', d', t' := PatientAgain(events, d, t, n);
      events', d', t' := PatientRounds(events', d', t', n - 1);
    }
  }

  /** With `n` errors under an outdated policy a streak can send four more notices for each. */
  lemma RepolicedNoticesAttained(n: nat) returns (events: seq<Event>, t: Tally)
    ensures Fresh(NewRow(EAGER)) && Play(NewRow(EAGER), events).Some? && Streak(NewRow(EAGER), events) == t
    ensures t.outdated == t.repoliced == n && t.notices == 3 + 3 * n + n
  {
    ProfilesAreResolved();
    var d;
    events, d, t := PatientStart(n);
    events, d, t := PatientRounds(events, d, t, n);
  }
}
