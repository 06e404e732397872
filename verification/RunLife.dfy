/**
  Whole attempts that nobody interferes with, started from any state of the system: how they end, what
  create, resume and recovery give back, and how retries run out.
 */
module RunLife {
  import opened Common
  import opened RunPolicy
  import opened RunProtocol
  import opened Histories

  // ---- How an attempt closes ----

  /** Where the closing transaction leaves the run, by what the worker holds and what it has read. */
  lemma CloseDecides(w: Worker)
    requires w.phase.Closing?
    ensures var d, p := Decide(w), w.phase;
            && (p.canceled ==>
                  d.status == Canceled && d.stopReason == p.reason && Last(d.entries) == CanceledMark(p.reason))
            && (!p.canceled && p.outcome.Success? ==>
                  d.status == Succeeded && d.stopReason == "completed" && d.entries == [SucceededMark])
            && (p.outcome.Success? ==>
                  d.metrics == if p.outcome.reported.Some? then p.outcome.reported.value else w.live)
            && (p.outcome.Failure? ==>
                  d.metrics == w.live && d.entries[0].ErrorMark? && d.entries[0].attempt == w.attempt)
  {
  }

  /** A failing worker that saw no cancel: pause or escalate on a breach, retry what is transient, else give up. */
  lemma FailureDecides(w: Worker, error: RunError)
    requires w.phase.Closing? && !w.phase.canceled && w.phase.outcome == Failure(error)
    ensures var d, c := Decide(w), ClassifyFailure(error).failureClass;
            && d.escalates == (Overspends(error) && w.phase.breaches > 0)
            && (Overspends(error) ==>
                  var reason := if d.escalates then "budget_guardrail_kill_switch" else "budget_guardrail_paused";
                  && d.status == (if d.escalates then Canceled else Failed) && d.stopReason == reason
                  && d.entries == if d.escalates then [ErrorMark(w.attempt, c), Escalated, CanceledMark(reason)]
                                  else [ErrorMark(w.attempt, c), Paused, FailedMark(reason)])
            && (Transient(error) && w.attempt < w.maxAttempts ==>
                  d.status == Queued && d.entries == [ErrorMark(w.attempt, c), RetryMark(w.attempt + 1)])
            && (Transient(error) && w.attempt >= w.maxAttempts ==>
                  && d.status == Failed && d.stopReason == "max_attempts_exhausted"
                  && d.entries == [ErrorMark(w.attempt, c), FailedMark("max_attempts_exhausted")])
            && (!Transient(error) && !Overspends(error) ==>
                  && d.status == Failed && d.stopReason == ClassifyFailure(error).stopReason
                  && d.entries == [ErrorMark(w.attempt, c), FailedMark(d.stopReason)])
  {
  }

  // ---- One attempt ----

  /** Worker `t` is on run `r`, and the two look like this. */
  predicate On(s: State, r: RunId, t: Token, run: Run, w: Worker) {
    r in s.runs && s.runs[r] == run && t in s.workers && s.workers[t] == w && w.run == r
  }

  lemma Acts(start: State, steps: seq<Step>, s: State, r: RunId, t: Token, run: Run, w: Worker, a: Action)
      returns (steps': seq<Step>, s': State)
    requires Legal(start, steps) && s == After(start, steps) && On(s, r, t, run, w)
    requires CanWork(run, t, w, a) && !a.Strike? && !Ends(a)
    ensures steps <= steps' && Legal(start, steps') && s' == After(start, steps')
    ensures On(s', r, t, Worked(run, t, w, a), Advanced(run, t, w, a))
  {
    steps', s' := Proceed(start, steps, s, Work(t, a));
  }

  /** The run waits for a worker that would not find it canceled, and nobody holds it at `now`. */
  predicate Takeable(run: Run, now: int) {
    run.status == Queued && !run.cancelRequested && (run.lease.Some? ==> run.lease.value.expires <= now)
  }

  /** What the start of the next attempt makes of the row. */
  function Begun(run: Run, owner: string, t: Token, expires: int): Run {
    run.(status := Running, attempts := run.attempts + 1, stopReason := "",
         lease := Some(Lease(owner, t, expires)), log := run.log + [Started(run.attempts + 1)])
  }

  /** The worker that claimed the run as it looked then. */
  function Hired(run: Run, r: RunId, owner: string, phase: Phase): Worker {
    Worker(r, owner, run.attempts + 1, run.maxAttempts, run.budget, run.metrics, phase)
  }

  /** Claim, check and start. */
  lemma Opens(start: State, steps: seq<Step>, s: State, r: RunId, owner: string, now: int, expires: int)
      returns (steps': seq<Step>, s': State)
    requires Legal(start, steps) && s == After(start, steps) && r in s.runs && Takeable(s.runs[r], now)
    ensures steps <= steps' && Legal(start, steps') && s' == After(start, steps')
    ensures On(s', r, s.nextToken, Begun(s.runs[r], owner, s.nextToken, expires),
               Hired(s.runs[r], r, owner, Executing))
  {
    var run, t := s.runs[r], s.nextToken;
    var held := run.(lease := Some(Lease(owner, t, expires)));
    steps', s' := Proceed(start, steps, s, Claim(r, owner, now, expires));
    steps', s' := Acts(start, steps', s', r, t, held, Hired(run, r, owner, Claimed), CheckCancel);
    steps', s' := Acts(start, steps', s', r, t, held, Hired(run, r, owner, Cleared), Start);
  }

  /** Guard and read the row again; a cancel would be seen here. */
  lemma Reads(start: State, steps: seq<Step>, s: State, r: RunId, t: Token, run: Run, w: Worker, now: int,
              outcome: Outcome)
      returns (steps': seq<Step>, s': State)
    requires Legal(start, steps) && s == After(start, steps) && On(s, r, t, run, w) && w.phase == Executing
    requires run.status == Running && run.HeldBy(w.owner, t) && now <= run.lease.value.expires
    requires !run.cancelRequested
    ensures steps <= steps' && Legal(start, steps') && s' == After(start, steps')
    ensures On(s', r, t, run, w.(phase := Closing(outcome, false, CancelReason(run), CountBreaches(run.log))))
  {
    var again := run.lease.value.expires;
    steps', s' := Acts(start, steps, s, r, t, run, w, Guard(now, again));
    steps', s' := Acts(start, steps', s', r, t, run, w.(phase := Guarded), ReadLatest(outcome));
  }

  /** Close without an escalation, and release the lease. */
  lemma Closes(start: State, steps: seq<Step>, s: State, r: RunId, t: Token, run: Run, w: Worker)
      returns (steps': seq<Step>, s': State)
    requires Legal(start, steps) && s == After(start, steps) && On(s, r, t, run, w)
    requires w.phase.Closing? && !Decide(w).escalates && run.HeldBy(w.owner, t)
    ensures steps <= steps' && Legal(start, steps') && s' == After(start, steps')
    ensures r in s'.runs && s'.runs[r] == ClosedRow(run, Decide(w)).(lease := None)
    ensures t !in s'.workers && s'.nextToken == s.nextToken
  {
    var closed, done := ClosedRow(run, Decide(w)), w.(phase := Done);
    steps', s' := Proceed(start, steps, s, Work(t, Close));
    assert On(s', r, t, closed, done);
    steps', s' := Proceed(start, steps', s', Work(t, Release));
  }

  /** A whole attempt: claim, check, start, guard, read, close, release. */
  lemma Attempts(start: State, steps: seq<Step>, s: State, r: RunId, owner: string, now: int, outcome: Outcome)
      returns (steps': seq<Step>, s': State, w: Worker)
    requires Legal(start, steps) && s == After(start, steps) && r in s.runs && Takeable(s.runs[r], now)
    requires outcome.Failure? ==> !Overspends(outcome.error)
    ensures steps <= steps' && Legal(start, steps') && s' == After(start, steps')
    ensures w.phase.Closing? && w.phase.outcome == outcome && !w.phase.canceled
    ensures w.attempt == s.runs[r].attempts + 1 && w.maxAttempts == s.runs[r].maxAttempts && w.live == s.runs[r].metrics
    ensures r in s'.runs
    ensures s'.runs[r] == ClosedRow(Begun(s.runs[r], owner, s.nextToken, now), Decide(w)).(lease := None)
  {
    var run, t := s.runs[r], s.nextToken;
    var row, hired := Begun(run, owner, t, now), Hired(run, r, owner, Executing);
    steps', s' := Opens(start, steps, s, r, owner, now, now);
    steps', s' := Reads(start, steps', s', r, t, row, hired, now, outcome);
    w := hired.(phase := Closing(outcome, false, CancelReason(row), CountBreaches(row.log)));
    if outcome.Failure? {
      FailureDecides(w, outcome.error);
    } else {
      CloseDecides(w);
    }
    steps', s' := Closes(start, steps', s', r, t, row, w);
  }

  // ---- What commands give back ----

  /** The row once one more attempt has succeeded. */
  function Finished(run: Run): Run {
    run.(status := Succeeded, attempts := run.attempts + 1, stopReason := "completed", lease := None,
         log := run.log + [Started(run.attempts + 1), SucceededMark])
  }

  /** A run that waits can be run: it ends succeeded, with the usage it had and nobody holding it. */
  lemma WaitingRunFinishes(start: State, steps: seq<Step>, s: State, r: RunId, owner: string, now: int)
      returns (steps': seq<Step>)
    requires Legal(start, steps) && s == After(start, steps) && r in s.runs && Takeable(s.runs[r], now)
    ensures steps <= steps' && Legal(start, steps') && r in After(start, steps').runs
    ensures After(start, steps').runs[r] == Finished(s.runs[r])
  {
    var s', w;
    steps', s', w := Attempts(start, steps, s, r, owner, now, Success(None));
    CloseDecides(w);
    assert s.runs[r].log + [Started(s.runs[r].attempts + 1)] + [SucceededMark]
        == s.runs[r].log + [Started(s.runs[r].attempts + 1), SucceededMark];
  }

  /** A failed or canceled run can be resumed, and then runs as a new one does: flag, count and usage are cleared. */
  lemma ResumedRunFinishes(s: State, r: RunId, owner: string, now: int) returns (steps: seq<Step>)
    requires r in s.runs && s.runs[r].status in {Failed, Canceled}
    requires s.runs[r].lease.Some? ==> s.runs[r].lease.value.expires <= now
    ensures Legal(s, steps) && |steps| > 0 && steps[0] == Order(r, Resume) && r in After(s, steps).runs
    ensures After(s, steps).runs[r]
         == s.runs[r].(status := Succeeded, attempts := 1, cancelRequested := false, stopReason := "completed",
                       lease := None, metrics := NO_USAGE,
                       log := s.runs[r].log + [Resumed, Started(1), SucceededMark])
  {
    var s';
    steps, s' := Proceed(s, [], s, Order(r, Resume));
    steps := WaitingRunFinishes(s, steps, s', r, owner, now);
    assert s.runs[r].log + [Resumed] + [Started(1), SucceededMark]
        == s.runs[r].log + [Resumed, Started(1), SucceededMark];
  }

  /** A run whose worker died runs on from its stored attempt and usage; a queued one only loses its lease. */
  lemma RecoveredRunFinishes(s: State, r: RunId, seenRunning: bool, owner: string, now: int) returns (steps: seq<Step>)
    requires r in s.runs && !s.runs[r].cancelRequested && (seenRunning || s.runs[r].status == Queued)
    ensures Legal(s, steps) && |steps| > 0 && steps[0] == Order(r, Recover(seenRunning)) && r in After(s, steps).runs
    ensures After(s, steps).runs[r]
         == Finished(if seenRunning then s.runs[r].Logged(Recovered) else s.runs[r])
  {
    var s';
    steps, s' := Proceed(s, [], s, Order(r, Recover(seenRunning)));
    steps := WaitingRunFinishes(s, steps, s', r, owner, now);
  }

  lemma CreatedRunFinishes(s: State, r: RunId, user: string, agent: string, max: nat, budget: Budget, owner: string)
      returns (steps: seq<Step>)
    requires r !in s.runs && max >= 1 && NormalBudget(budget)
    ensures Legal(s, steps) && |steps| > 0 && steps[0] == Create(r, user, agent, max, budget)
    ensures r in After(s, steps).runs
    ensures After(s, steps).runs[r]
         == Run(user, agent, Succeeded, 1, max, false, "completed", None, budget, NO_USAGE,
                [QueuedMark, Started(1), SucceededMark])
  {
    var s';
    steps, s' := Proceed(s, [], s, Create(r, user, agent, max, budget));
    steps := WaitingRunFinishes(s, steps, s', r, owner, 0);
    assert [QueuedMark] + [Started(1), SucceededMark] == [QueuedMark, Started(1), SucceededMark];
  }

  /** A queued run with its cancel flag set is closed as canceled by the worker that picks it up. */
  lemma FlaggedRunIsClosed(s: State, r: RunId, owner: string, now: int) returns (steps: seq<Step>)
    requires r in s.runs && s.runs[r].status == Queued && s.runs[r].cancelRequested
    requires s.runs[r].lease.Some? ==> s.runs[r].lease.value.expires <= now
    ensures Legal(s, steps) && r in After(s, steps).runs
    ensures var run := s.runs[r];
            var reason := if run.stopReason == "kill_switch_triggered" then run.stopReason else "canceled_by_user";
            After(s, steps).runs[r]
            == run.(status := Canceled, stopReason := reason, lease := None, log := run.log + [CanceledMark(reason)])
  {
    var run, t, s' := s.runs[r], s.nextToken, s;
    var held := run.(lease := Some(Lease(owner, t, now)));
    steps, s' := Proceed(s, [], s, Claim(r, owner, now, now));
    steps, s' := Acts(s, steps, s', r, t, held, Hired(run, r, owner, Claimed), CheckCancel);
    steps, s' := Acts(s, steps, s', r, t, held, s'.workers[t], CancelBeforeStart);
    steps, s' := Proceed(s, steps, s', Work(t, Release));
  }

  // ---- Retries run out ----

  /** What the attempts from `first` on log when all fail with a transient error of class `c`. */
  function FailureLog(first: nat, max: nat, c: string): seq<Entry>
    requires first <= max
    decreases max - first
  {
    [Started(first), ErrorMark(first, c)] +
    if first == max then [FailedMark("max_attempts_exhausted")]
    else [RetryMark(first + 1)] + FailureLog(first + 1, max, c)
  }

  lemma FailureLogStep(log: seq<Entry>, first: nat, max: nat, c: string)
    requires first < max
    ensures log + [Started(first)] + [ErrorMark(first, c), RetryMark(first + 1)] + FailureLog(first + 1, max, c)
         == log + FailureLog(first, max, c)
  {
  }

  lemma FailureLogLast(log: seq<Entry>, max: nat, c: string)
    ensures log + [Started(max)] + [ErrorMark(max, c), FailedMark("max_attempts_exhausted")]
         == log + FailureLog(max, max, c)
  {
  }

  /** The row after one failing attempt: a retry while attempts are left, the end of the run otherwise. */
  function AfterFailure(run: Run, d: FailureDecision): Run {
    var n := run.attempts + 1;
    var last := if n < run.maxAttempts then RetryMark(n + 1) else FailedMark("max_attempts_exhausted");
    run.(status := if n < run.maxAttempts then Queued else Failed, attempts := n,
         stopReason := if n < run.maxAttempts then d.stopReason else "max_attempts_exhausted", lease := None,
         log := run.log + [Started(n)] + [ErrorMark(n, d.failureClass), last])
  }

  /** The row once all attempts left to it have failed. */
  function Exhausted(run: Run, c: string): Run
    requires run.attempts < run.maxAttempts
  {
    run.(status := Failed, attempts := run.maxAttempts, stopReason := "max_attempts_exhausted", lease := None,
         log := run.log + FailureLog(run.attempts + 1, run.maxAttempts, c))
  }

  lemma FailureAdds(run: Run, d: FailureDecision)
    requires run.attempts + 1 < run.maxAttempts
    ensures Exhausted(AfterFailure(run, d), d.failureClass) == Exhausted(run, d.failureClass)
  {
    FailureLogStep(run.log, run.attempts + 1, run.maxAttempts, d.failureClass);
  }

  lemma LastFailureEnds(run: Run, d: FailureDecision)
    requires run.attempts + 1 == run.maxAttempts
    ensures AfterFailure(run, d) == Exhausted(run, d.failureClass)
  {
    FailureLogLast(run.log, run.maxAttempts, d.failureClass);
  }

  lemma AttemptFails(start: State, steps: seq<Step>, s: State, r: RunId, owner: string, now: int, error: RunError)
      returns (steps': seq<Step>, s': State)
    requires Legal(start, steps) && s == After(start, steps) && r in s.runs && Takeable(s.runs[r], now)
    requires Transient(error)
    ensures Legal(start, steps') && s' == After(start, steps')
    ensures r in s'.runs && s'.runs[r] == AfterFailure(s.runs[r], ClassifyFailure(error))
  {
    var w;
    steps', s', w := Attempts(start, steps, s, r, owner, now, Failure(error));
    FailureDecides(w, error);
    CloseDecides(w);
  }

  /** A run that keeps failing with a transient error makes exactly the attempts left to it and then fails. */
  lemma {:induction false} RetriesRunOut(start: State, steps: seq<Step>, s: State, r: RunId, owner: string, now: int,
                                         error: RunError)
      returns (steps': seq<Step>)
    requires Legal(start, steps) && s == After(start, steps) && r in s.runs && Takeable(s.runs[r], now)
    requires s.runs[r].attempts < s.runs[r].maxAttempts && Transient(error)
    ensures Legal(start, steps') && r in After(start, steps').runs
    ensures After(start, steps').runs[r] == Exhausted(s.runs[r], ClassifyFailure(error).failureClass)
    decreases s.runs[r].maxAttempts - s.runs[r].attempts
  {
    var s';
    steps', s' := AttemptFails(start, steps, s, r, owner, now, error);
    if s.runs[r].attempts + 1 < s.runs[r].maxAttempts {
      FailureAdds(s.runs[r], ClassifyFailure(error));
      steps' := RetriesRunOut(start, steps', s', r, owner, now, error);
    } else {
      LastFailureEnds(s.runs[r], ClassifyFailure(error));
    }
  }
}
