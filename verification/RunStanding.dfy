/**
  What only certain writes can change, over every interleaving: ended runs, canceled runs, leases, and the
  right to write progress.
 */
module RunStanding {
  import opened Common
  import opened RunProtocol
  import opened RunView
  import opened Cancellation

  /** Nobody cancels, resumes or recovers the run from outside; kill switches and escalations may strike. */
  ghost predicate NoOrders(steps: seq<Step>, r: RunId) {
    forall i | 0 <= i < |steps| && steps[i].Order? :: steps[i].r != r
  }

  // ---- Ended runs ----

  predicate Ended(v: View) { v.run.status in {Succeeded, Failed, Canceled} && v.crew == map[] }

  lemma EndedMove(v: View, m: Move, r: RunId)
    requires Ended(v) && CanMove(v, m) && (m.Told? ==> m.command == Kill)
    ensures Moved(v, m, r).run == v.run && Ended(Moved(v, m, r))
  {
  }

  /** A run that has ended, with nobody left on it, is never claimed or written again. */
  lemma {:induction false} EndedRunStays(s: State, steps: seq<Step>, r: RunId)
    requires Sound(s) && Legal(s, steps) && r in s.runs && Ended(ViewOf(s, r)) && NoOrders(steps, r)
    ensures r in After(s, steps).runs && After(s, steps).runs[r] == s.runs[r] && Ended(ViewOf(After(s, steps), r))
    decreases |steps|
  {
    if steps != [] {
      SoundStep(s, steps[0]);
      Projects(s, steps[0], r);
      EndedMove(ViewOf(s, r), MoveOf(s, steps[0], r), r);
      EndedRunStays(Apply(s, steps[0]), steps[1..], r);
    }
  }

  // ---- Canceled runs ----

  /** The worker will write nothing over the run but this cancellation. */
  predicate Harmless(w: Worker, reason: string) {
    && !w.phase.Cleared? && (w.phase.CancelSeen? ==> w.phase.reason == reason)
    && (w.phase.Closing? ==> w.phase.canceled && w.phase.reason == reason)
  }

  predicate Struck(v: View, reason: string) {
    && v.run.status == Canceled && v.run.cancelRequested && v.run.stopReason == reason
    && reason in {"kill_switch_triggered", "canceled_by_user"}
    && forall t | t in v.crew :: Harmless(v.crew[t], reason)
  }

  lemma StruckWork(run: Run, t: Token, w: Worker, a: Action, reason: string)
    requires run.status == Canceled && run.cancelRequested && run.stopReason == reason
    requires reason in {"kill_switch_triggered", "canceled_by_user"} && CanWork(run, t, w, a) && Harmless(w, reason)
    ensures var run' := Worked(run, t, w, a);
            run'.status == Canceled && run'.cancelRequested && run'.stopReason == reason
    ensures Harmless(Advanced(run, t, w, a), reason) && !a.Start?
  {
  }

  lemma StruckMove(v: View, m: Move, r: RunId, reason: string)
    requires Struck(v, reason) && CanMove(v, m) && (m.Told? ==> m.command == Kill)
    ensures Struck(Moved(v, m, r), reason) && Attempts(Moved(v, m, r).run) == Attempts(v.run)
  {
    match m
    case Acted(t, a) =>
      StruckWork(v.run, t, v.crew[t], a, reason);
      AttemptsOfWork(v.run, t, v.crew[t], a);
    case _ =>
  }

  lemma {:induction false} StruckHistory(s: State, steps: seq<Step>, r: RunId, reason: string)
    requires Sound(s) && Legal(s, steps) && r in s.runs && Struck(ViewOf(s, r), reason) && NoOrders(steps, r)
    ensures r in After(s, steps).runs && Struck(ViewOf(After(s, steps), r), reason)
    ensures Attempts(After(s, steps).runs[r]) == Attempts(s.runs[r])
    decreases |steps|
  {
    if steps != [] {
      SoundStep(s, steps[0]);
      Projects(s, steps[0], r);
      StruckMove(ViewOf(s, r), MoveOf(s, steps[0], r), r, reason);
      StruckHistory(Apply(s, steps[0]), steps[1..], r, reason);
    }
  }

  /** The step cancels run `r`: a user cancels it while it is queued, or a kill switch meets it active. */
  predicate Strikes(s: State, step: Step, r: RunId, reason: string)
    requires r in s.runs
  {
    || (step == Order(r, Cancel(true)) && reason == "canceled_by_user")
    || (&& s.runs[r].status in {Queued, Running} && reason == "kill_switch_triggered"
        && (|| step == Order(r, Kill)
            || (step.KillSwitch? && r in step.targets)
            || (step.Escalate? && r in step.targets)))
  }

  /** The worker has read something that it will still write by. */
  predicate AboutToWrite(w: Worker) { w.phase.Cleared? || w.phase.CancelSeen? || w.phase.Closing? }

  /**
    A run that is struck while no worker is about to write stays canceled for that reason: no attempt starts,
    and workers that execute, guarded or not, can only close it as canceled.
   */
  lemma StruckRunStays(s: State, step: Step, steps: seq<Step>, r: RunId, reason: string)
    requires Sound(s) && Enabled(s, step) && r in s.runs && Strikes(s, step, r, reason)
    requires Nobody(ViewOf(s, r), AboutToWrite) && Legal(Apply(s, step), steps) && NoOrders(steps, r)
    ensures var after := After(Apply(s, step), steps);
            && r in after.runs && after.runs[r].status == Canceled && after.runs[r].cancelRequested
            && after.runs[r].stopReason == reason && Attempts(after.runs[r]) == Attempts(s.runs[r])
  {
    SoundStep(s, step);
    Projects(s, step, r);
    var m := MoveOf(s, step, r);
    AttemptsOfCommand(s.runs[r], m.command);
    assert forall t | t in ViewOf(s, r).crew :: !AboutToWrite(s.workers[t]);
    StruckHistory(Apply(s, step), steps, r, reason);
  }

  // ---- Leases ----

  predicate Holds(run: Run, owner: string, t: Token) {
    run.lease.Some? && run.lease.value.owner == owner && run.lease.value.token == t
  }

  /** The step makes the holder lose the run: another claim, a kill, a recovery, or its own release. */
  predicate Dispossesses(s: State, step: Step, r: RunId, owner: string, t: Token)
    requires r in s.runs
  {
    match step
    case Claim(r', _, _, _) => r' == r
    case Order(r', c) => r' == r && (c.Recover? || (c.Kill? && s.runs[r].status in {Queued, Running}))
    case KillSwitch(targets) => r in targets && s.runs[r].status in {Queued, Running}
    case Escalate(_, targets) => r in targets && s.runs[r].status in {Queued, Running}
    case Work(t', a) => t' == t && a.Release? && t in s.workers && s.workers[t].run == r && s.workers[t].owner == owner
    case Create(_, _, _, _, _) => false
  }

  /** A lease is lost by exactly those steps, whatever its expiry; and a claim meets it free or expired. */
  lemma LeaseLostIff(s: State, step: Step, r: RunId, owner: string, t: Token)
    requires r in s.runs && Enabled(s, step) && Holds(s.runs[r], owner, t) && t < s.nextToken
    ensures r in Apply(s, step).runs
    ensures !Holds(Apply(s, step).runs[r], owner, t) <==> Dispossesses(s, step, r, owner, t)
    ensures step.Claim? && step.r == r ==> s.runs[r].lease.value.expires <= step.now
  {
  }

  /** A heartbeat succeeds exactly for the holder of an unexpired lease on a running run, and renews it. */
  lemma RenewsIff(s: State, t: Token, now: int, expires: int)
    requires s.InFlight(t)
    ensures var w, run := s.workers[t], s.runs[s.workers[t].run];
            && (Enabled(s, Work(t, Heartbeat(now, expires))) <==>
                  run.status == Running && Holds(run, w.owner, t) && now <= run.lease.value.expires)
            && (Enabled(s, Work(t, Heartbeat(now, expires))) ==>
                  Apply(s, Work(t, Heartbeat(now, expires)))
                  == s.SetRun(w.run, run.(lease := Some(Lease(w.owner, t, expires)))))
  {
  }

  // ---- Progress ----

  predicate WrittenBy(e: Entry, t: Token) { e.Progress? && e.token == t }

  function Written(run: Run, t: Token): nat { Count(run.log, e => WrittenBy(e, t)) }

  /** The step is a guard that the worker passes: it holds the unexpired lease of its running run. */
  predicate Passes(s: State, step: Step, r: RunId, t: Token)
    requires r in s.runs
  {
    && step.Work? && step.t == t && step.action.Guard? && t in s.workers && s.workers[t].run == r
    && s.runs[r].status == Running && Holds(s.runs[r], s.workers[t].owner, t)
    && step.action.now <= s.runs[r].lease.value.expires
  }

  ghost predicate PassesIn(s: State, steps: seq<Step>, r: RunId, t: Token)
    requires r in s.runs && Legal(s, steps)
    decreases |steps|
  {
    steps != [] && (Passes(s, steps[0], r, t) || PassesIn(Apply(s, steps[0]), steps[1..], r, t))
  }

  predicate PastGuard(s: State, t: Token) { t in s.workers && s.workers[t].phase.Guarded? }

  lemma NothingWritten(log: seq<Entry>, tail: seq<Entry>, t: Token)
    requires forall e | e in tail :: !WrittenBy(e, t)
    ensures Count(log + tail, e => WrittenBy(e, t)) == Count(log, e => WrittenBy(e, t))
  {
    FilterConcat(log, tail, e => WrittenBy(e, t));
    FilterNone(tail, e => WrittenBy(e, t));
  }

  lemma CommandWritesNothing(run: Run, c: Command, t: Token)
    ensures Written(Commanded(run, c), t) == Written(run, t)
  {
    CommandsGrow(run, c);
    NothingWritten(run.log, Noted(run, c), t);
  }

  lemma WorkWritesNothing(run: Run, u: Token, w: Worker, a: Action, t: Token)
    requires CanWork(run, u, w, a) && (u == t ==> !a.Push?)
    ensures Written(Worked(run, u, w, a), t) == Written(run, t)
  {
    LogsGrow(run, u, w, a);
    NothingWritten(run.log, Appended(u, w, a), t);
  }

  lemma UnguardedStep(s: State, step: Step, r: RunId, t: Token)
    requires Sound(s) && Enabled(s, step) && r in s.runs && (t in s.workers ==> s.workers[t].run == r)
    requires !PastGuard(s, t) && !Passes(s, step, r, t)
    ensures r in Apply(s, step).runs && Written(Apply(s, step).runs[r], t) == Written(s.runs[r], t)
  {
    Projects(s, step, r);
    match MoveOf(s, step, r)
    case Told(c) => CommandWritesNothing(s.runs[r], c, t);
    case Acted(u, a) => WorkWritesNothing(s.runs[r], u, s.workers[u], a, t);
    case _ =>
  }

  lemma StaysUnguarded(s: State, step: Step, r: RunId, t: Token)
    requires Enabled(s, step) && r in s.runs && t < s.nextToken && (t in s.workers ==> s.workers[t].run == r)
    requires !PastGuard(s, t) && !Passes(s, step, r, t)
    ensures !PastGuard(Apply(s, step), t) && t < Apply(s, step).nextToken
    ensures t in Apply(s, step).workers ==> Apply(s, step).workers[t].run == r
  {
  }

  /** Beyond an append it was about to make, a claim writes progress only after passing a guard. */
  lemma {:induction false} ProgressNeedsLease(s: State, steps: seq<Step>, r: RunId, t: Token)
    requires Sound(s) && Legal(s, steps) && r in s.runs && t < s.nextToken
    requires t in s.workers ==> s.workers[t].run == r
    requires !PastGuard(s, t) && !PassesIn(s, steps, r, t)
    ensures r in After(s, steps).runs && Written(After(s, steps).runs[r], t) == Written(s.runs[r], t)
    decreases |steps|
  {
    if steps != [] {
      SoundStep(s, steps[0]);
      UnguardedStep(s, steps[0], r, t);
      StaysUnguarded(s, steps[0], r, t);
      ProgressNeedsLease(Apply(s, steps[0]), steps[1..], r, t);
    }
  }

  function GuardAndPush(t: Token, now: int, expires: int, p: Payload): seq<Step> {
    [Work(t, Guard(now, expires)), Work(t, Push(p))]
  }

  lemma GuardThenPush(s: State, t: Token, now: int, expires: int, p: Payload)
    requires Enabled(s, Work(t, Guard(now, expires)))
    ensures Legal(s, GuardAndPush(t, now, expires, p))
    ensures var run, after := s.runs[s.workers[t].run], After(s, GuardAndPush(t, now, expires, p)).runs;
            && s.workers[t].run in after
            && after[s.workers[t].run] == Worked(Refreshed(run, expires), t, s.workers[t].(phase := Guarded), Push(p))
  {
    var s1, push := Apply(s, Work(t, Guard(now, expires))), Work(t, Push(p));
    assert GuardAndPush(t, now, expires, p)[1..] == [push];
    assert Legal(s1, OneStep(s1, push)) && OneStep(s1, push) == [push];
  }

  /** A checkpoint gets written if and only if its worker executes, holds the lease and stays within budget. */
  lemma WritesIff(s: State, t: Token, now: int, expires: int, p: Payload)
    requires s.InFlight(t)
    ensures var w, run, steps := s.workers[t], s.runs[s.workers[t].run], GuardAndPush(t, now, expires, p);
            (&& Legal(s, steps) && w.run in After(s, steps).runs
             && After(s, steps).runs[w.run]
                == run.(lease := Some(Lease(w.owner, t, expires)), log := run.log + [Progress(t, p)])) <==>
              && w.phase.Executing? && run.status == Running && Holds(run, w.owner, t)
              && now <= run.lease.value.expires && WithinBudget(w.budget, MergeUsage(w.live, p))
  {
    var w, run := s.workers[t], s.runs[s.workers[t].run];
    if Enabled(s, Work(t, Guard(now, expires))) {
      GuardThenPush(s, t, now, expires, p);
      assert run.log + [Progress(t, p)] != run.log;
    }
  }
}
