/**
  What a takeover costs. A worker that dies leaves its run running; once the lease has expired, a leftover
  queue entry lets another worker claim the running row. No attempts overlap and nothing is recovered, yet
  the run makes an attempt more than its limit, and the usage of the dead attempt is forgotten.
 */
module Takeover {
  import opened Common
  import opened RunProtocol
  import opened RunView
  import opened RunChains

  /** An executed tool call that succeeded. */
  const CALL := Payload(None, true, false, true, "succeeded")

  /** One call per chain. */
  const ONE_CALL := Budget(256, 1, 0)

  lemma Continue(steps: seq<Step>, s: State, step: Step) returns (steps': seq<Step>, s': State)
    requires LegalUnder(EMPTY, steps, "r", Orderly) && Legal(EMPTY, steps) && s == After(EMPTY, steps)
    requires s.runs.Keys <= {"r"} && Enabled(s, step)
    requires "r" in s.runs ==> Orderly(ViewOf(s, "r"), MoveOf(s, step, "r"))
    ensures LegalUnder(EMPTY, steps', "r", Orderly) && Legal(EMPTY, steps')
    ensures s' == After(EMPTY, steps') == Apply(s, step)
  {
    ThenAllowed(EMPTY, steps, "r", Orderly, step);
    steps', s' := steps + [step], Apply(s, step);
  }

  /** The only worker on the only run acts. */
  lemma Working(steps: seq<Step>, s: State, t: Token, a: Action) returns (steps': seq<Step>, s': State)
    requires LegalUnder(EMPTY, steps, "r", Orderly) && Legal(EMPTY, steps) && s == After(EMPTY, steps)
    requires s.runs.Keys == {"r"} && s.workers.Keys == {t} && s.workers[t].run == "r"
    requires CanWork(s.runs["r"], t, s.workers[t], a) && !a.Strike?
    ensures LegalUnder(EMPTY, steps', "r", Orderly) && Legal(EMPTY, steps') && s' == After(EMPTY, steps')
    ensures s'.runs == map["r" := Worked(s.runs["r"], t, s.workers[t], a)] && s'.nextToken == s.nextToken
    ensures s'.workers == if Ends(a) then map[] else map[t := Advanced(s.runs["r"], t, s.workers[t], a)]
  {
    steps', s' := Continue(steps, s, Work(t, a));
    assert s.workers - {t} == map[];
  }

  /** Nobody works on the run, and its lease is free or has expired. */
  predicate Abandoned(s: State, t: Token, now: int) {
    && s.runs.Keys == {"r"} && s.workers == map[] && s.nextToken == t
    && var run := s.runs["r"];
       && run.status in {Queued, Running} && !run.cancelRequested
       && (run.lease.None? || run.lease.value.expires <= now)
       && run.budget == ONE_CALL && run.metrics == NO_USAGE
  }

  lemma Claiming(steps: seq<Step>, s: State, t: Token, now: int) returns (steps': seq<Step>, s': State)
    requires LegalUnder(EMPTY, steps, "r", Orderly) && Legal(EMPTY, steps) && s == After(EMPTY, steps)
    requires Abandoned(s, t, now)
    ensures LegalUnder(EMPTY, steps', "r", Orderly) && Legal(EMPTY, steps') && s' == After(EMPTY, steps')
    ensures var run := s.runs["r"];
            && s'.runs == map["r" := run.(lease := Some(Lease("a", t, now + 10)))]
            && s'.workers == map[t := ClaimedBy(run, "r", "a")] && s'.nextToken == t + 1
  {
    steps', s' := Continue(steps, s, Claim("r", "a", now, now + 10));
  }

  /** Worker `t` has claimed the run, free or expired, and started its attempt. */
  lemma Begins(steps: seq<Step>, s: State, t: Token, now: int) returns (steps': seq<Step>, s': State)
    requires LegalUnder(EMPTY, steps, "r", Orderly) && Legal(EMPTY, steps) && s == After(EMPTY, steps)
    requires Abandoned(s, t, now)
    ensures LegalUnder(EMPTY, steps', "r", Orderly) && Legal(EMPTY, steps') && s' == After(EMPTY, steps')
    ensures var run := s.runs["r"];
            && s'.runs == map["r" := run.(status := Running, attempts := run.attempts + 1, stopReason := "",
                                          lease := Some(Lease("a", t, now + 10)),
                                          log := run.log + [Started(run.attempts + 1)])]
            && s'.workers
               == map[t := Worker("r", "a", run.attempts + 1, run.maxAttempts, ONE_CALL, NO_USAGE, Executing)]
            && s'.nextToken == t + 1
  {
    steps', s' := Claiming(steps, s, t, now);
    steps', s' := Working(steps', s', t, CheckCancel);
    steps', s' := Working(steps', s', t, Start);
  }

  /** The worker executes its attempt under its own lease and has used nothing so far. */
  predicate Unused(w: Worker, phase: Phase) {
    w.run == "r" && w.owner == "a" && w.budget == ONE_CALL && w.live == NO_USAGE && w.phase == phase
  }

  lemma Guards(steps: seq<Step>, s: State, t: Token, now: int) returns (steps': seq<Step>, s': State)
    requires LegalUnder(EMPTY, steps, "r", Orderly) && Legal(EMPTY, steps) && s == After(EMPTY, steps)
    requires s.runs.Keys == {"r"} && s.workers.Keys == {t} && Unused(s.workers[t], Executing)
    requires s.runs["r"].status == Running && s.runs["r"].lease == Some(Lease("a", t, now + 10))
    ensures LegalUnder(EMPTY, steps', "r", Orderly) && Legal(EMPTY, steps') && s' == After(EMPTY, steps')
    ensures s'.runs == map["r" := s.runs["r"]] && s'.nextToken == s.nextToken
    ensures s'.workers.Keys == {t} && Unused(s'.workers[t], Guarded)
  {
    steps', s' := Working(steps, s, t, Guard(now, now + 10));
  }

  lemma Pushes(steps: seq<Step>, s: State, t: Token) returns (steps': seq<Step>, s': State)
    requires LegalUnder(EMPTY, steps, "r", Orderly) && Legal(EMPTY, steps) && s == After(EMPTY, steps)
    requires s.runs.Keys == {"r"} && s.workers.Keys == {t} && Unused(s.workers[t], Guarded)
    ensures LegalUnder(EMPTY, steps', "r", Orderly) && Legal(EMPTY, steps') && s' == After(EMPTY, steps')
    ensures s'.runs == map["r" := s.runs["r"].(log := s.runs["r"].log + [Progress(t, CALL)])]
    ensures s'.workers.Keys == {t} && s'.workers[t].run == "r" && s'.nextToken == s.nextToken
  {
    steps', s' := Working(steps, s, t, Push(CALL));
  }

  /** Worker `t` has started its attempt, made one call and vanished. */
  lemma OneCallThenGone(steps: seq<Step>, s: State, t: Token, now: int) returns (steps': seq<Step>, s': State)
    requires LegalUnder(EMPTY, steps, "r", Orderly) && Legal(EMPTY, steps) && s == After(EMPTY, steps)
    requires Abandoned(s, t, now)
    ensures LegalUnder(EMPTY, steps', "r", Orderly) && Legal(EMPTY, steps') && s' == After(EMPTY, steps')
    ensures var run := s.runs["r"];
            && s'.runs == map["r" := run.(status := Running, attempts := run.attempts + 1, stopReason := "",
                                          lease := Some(Lease("a", t, now + 10)),
                                          log := run.log + [Started(run.attempts + 1)] + [Progress(t, CALL)])]
            && s'.workers == map[] && s'.nextToken == t + 1
  {
    steps', s' := Begins(steps, s, t, now);
    steps', s' := Guards(steps', s', t, now);
    steps', s' := Pushes(steps', s', t);
    steps', s' := Working(steps', s', t, Abandon);
  }

  lemma OneMoreCounted(log: seq<Entry>, attempt: nat, t: Token)
    ensures Count(log + [Started(attempt)] + [Progress(t, CALL)], IsCall) == Count(log, IsCall) + 1
  {
    FilterSnoc(log, Started(attempt), IsCall);
    FilterSnoc(log + [Started(attempt)], Progress(t, CALL), IsCall);
  }

  lemma OneCallInChain(log: seq<Entry>, attempt: nat, t: Token)
    requires UsageOf(Continued(log)) == NO_USAGE
    ensures Count(Chain(log + [Started(attempt)] + [Progress(t, CALL)]), IsCall) == 1
  {
    StartEntry(log, attempt);
    ProgressEntry(log + [Started(attempt)], t, CALL);
    ChainUsageCounts(Chain(log + [Started(attempt)] + [Progress(t, CALL)]));
  }

  /** One more attempt with a call: counted in full, but the chain holds the latest attempt only. */
  lemma OneMoreCall(log: seq<Entry>, attempt: nat, t: Token)
    requires UsageOf(Continued(log)) == NO_USAGE
    ensures var log' := log + [Started(attempt)] + [Progress(t, CALL)];
            && !Settled(log') && Recoveries(log') == Recoveries(log)
            && Takeovers(log') == Takeovers(log) + (if Settled(log) then 0 else 1)
            && Kept(log') == Continued(log)
            && Count(log', IsCall) == Count(log, IsCall) + 1 && Count(Chain(log'), IsCall) == 1
  {
    OneMoreCounted(log, attempt, t);
    OneCallInChain(log, attempt, t);
    StartEntry(log, attempt);
    ProgressEntry(log + [Started(attempt)], t, CALL);
  }

  /** Every attempt so far but the first was a takeover, and every attempt made the one call allowed. */
  predicate Overdone(run: Run, n: nat) {
    && run.maxAttempts == 1 && run.attempts == n + 1 && Recoveries(run.log) == 0 && Takeovers(run.log) == n
    && run.budget.maxToolCalls == 1 && Count(run.log, IsCall) == n + 1 && Count(Chain(run.log), IsCall) == 1
    && Kept(run.log) == [QueuedMark] && !Settled(run.log)
  }

  lemma FreshLog()
    ensures var log := [QueuedMark];
            && Settled(log) && Recoveries(log) == 0 && Takeovers(log) == 0 && Count(log, IsCall) == 0
            && Kept(log) == [] && Continued(log) == log && UsageOf(log) == NO_USAGE
  {
    var log := [QueuedMark];
    assert log == [] + [QueuedMark];
    PlainEntry([], QueuedMark);
    FilterSnoc([], QueuedMark, IsCall);
    assert Chain(Init(log)) == [];
  }

  lemma FirstCall() returns (steps: seq<Step>, s: State)
    ensures LegalUnder(EMPTY, steps, "r", Orderly) && Legal(EMPTY, steps) && s == After(EMPTY, steps)
    ensures Abandoned(s, 1, 10) && Overdone(s.runs["r"], 0)
  {
    steps, s := [], EMPTY;
    steps, s := Continue(steps, s, Create("r", "u", "g", 1, ONE_CALL));
    FreshLog();
    OneMoreCall([QueuedMark], 1, 0);
    steps, s := OneCallThenGone(steps, s, 0, 0);
  }

  lemma OneMore(run: Run, run': Run, n: nat)
    requires Overdone(run, n)
    requires run'.maxAttempts == 1 && run'.budget == run.budget && run'.attempts == run.attempts + 1
    requires run'.log == run.log + [Started(run.attempts + 1)] + [Progress(n + 1, CALL)]
    ensures Overdone(run', n + 1)
  {
    assert UsageOf([QueuedMark]) == NO_USAGE by {
      FreshLog();
    }
    OneMoreCall(run.log, run.attempts + 1, n + 1);
  }

  /** The bounds are attained: with `n` takeovers a run limited to one attempt and one call makes `n + 1` of each. */
  lemma {:induction false} TakeoversReachable(n: nat) returns (steps: seq<Step>, s: State)
    ensures LegalUnder(EMPTY, steps, "r", Orderly) && Legal(EMPTY, steps) && s == After(EMPTY, steps)
    ensures Abandoned(s, n + 1, 10 * n + 10) && Overdone(s.runs["r"], n)
  {
    if n == 0 {
      steps, s := FirstCall();
    } else {
      steps, s := TakeoversReachable(n - 1);
      var run := s.runs["r"];
      steps, s := OneCallThenGone(steps, s, n, 10 * n);
      OneMore(run, s.runs["r"], n - 1);
    }
  }
}
