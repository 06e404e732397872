/**
  The agent-run protocol (agents/agent_run_manager.py over storage/database.py) as a transition
  system. Every database call or write transaction is one step, so reads and the writes decided by
  them are separate steps that other actors may interleave with. A claim draws a fresh token, which
  also names the worker that made it.
 */
module RunProtocol {
  import opened Common
  import opened RunPolicy

  type RunId = string
  type Token = nat

  const BREACH_LIMIT := 2
  const FAILED_CALL_STATUSES: set<string> := {"failed", "invalid_arguments", "blocked", "permission_required"}

  datatype Status = Queued | Running | Succeeded | Failed | Canceled

  datatype Lease = Lease(owner: string, token: Token, expires: int)

  datatype Budget = Budget(maxTokens: int, maxToolCalls: int, maxToolErrors: int)

  datatype Usage = Usage(tokens: nat, toolCalls: nat, toolErrors: nat)

  const NO_USAGE := Usage(0, 0, 0)

  /** The parts of an executor checkpoint that usage accounting reads. */
  datatype Payload = Payload(tokensTotal: Option<int>, finishesCall: bool, cached: bool, executed: bool, status: string)

  datatype Entry =
    | QueuedMark
    | Started(attempt: nat)
    | Progress(token: Token, payload: Payload)
    | TimedOut(attempt: nat)
    | CancelAsked
    | CanceledMark(reason: string)
    | KillMark
    | ErrorMark(attempt: nat, failureClass: string)
    | Paused
    | Escalated
    | RetryMark(attempt: nat)
    | FailedMark(reason: string)
    | SucceededMark
    | ScopeKilled
    | Resumed
    | Recovered

  datatype Run = Run(user: string, agent: string, status: Status, attempts: nat, maxAttempts: nat,
                     cancelRequested: bool, stopReason: string, lease: Option<Lease>,
                     budget: Budget, metrics: Usage, log: seq<Entry>)
  {
    function Logged(e: Entry): Run { this.(log := log + [e]) }

    predicate HeldBy(owner: string, t: Token) {
      lease.Some? && lease.value.owner == owner && lease.value.token == t
    }
  }

  datatype Outcome = Success(reported: Option<Usage>) | Failure(error: RunError)

  datatype Phase =
    | Claimed
    | CancelSeen(reason: string)
    | Cleared
    | Executing
    | Guarded
    | Closing(outcome: Outcome, canceled: bool, reason: string, breaches: nat)
    | ScopeKilling
    | ScopeNoting
    | Done

  /** The attempt has been claimed but not started. */
  predicate Waiting(p: Phase) { p.Claimed? || p.CancelSeen? || p.Cleared? }

  /** A worker between its claim and its release, with the row snapshot it took when claiming. */
  datatype Worker = Worker(run: RunId, owner: string, attempt: nat, maxAttempts: nat,
                           budget: Budget, live: Usage, phase: Phase)

  datatype State = State(runs: map<RunId, Run>, workers: map<Token, Worker>, nextToken: Token) {
    function SetRun(r: RunId, run: Run): State { this.(runs := runs[r := run]) }

    function SetWorker(t: Token, w: Worker): State { this.(workers := workers[t := w]) }

    function Drop(t: Token): State { this.(workers := workers - {t}) }

    /** The worker `t` is in flight on a stored run. */
    predicate InFlight(t: Token) { t in workers && workers[t].run in runs }

    predicate Idle(r: RunId) { forall t | t in workers :: workers[t].run != r }
  }

  /** A row update requested from outside the workers. */
  datatype Command = Cancel(seenQueued: bool) | Kill | Resume | Recover(seenRunning: bool)

  /** One database call or transaction of a worker; it strikes its scope only by an escalation step. */
  datatype Action =
    | CheckCancel
    | CancelBeforeStart
    | FailBeforeStart(reason: string)
    | Start
    | Heartbeat(now: int, expires: int)
    | Guard(now: int, expires: int)
    | Push(payload: Payload)
    | MarkTimeout
    | ReadLatest(outcome: Outcome)
    | Close
    | Strike
    | NoteScopeKill
    | Release
    | Abandon

  datatype Step =
    | Create(r: RunId, user: string, agent: string, maxAttempts: nat, budget: Budget)
    | Order(r: RunId, command: Command)
    | KillSwitch(targets: set<RunId>)
    | Escalate(t: Token, targets: set<RunId>)
    | Claim(r: RunId, owner: string, now: int, expires: int)
    | Work(t: Token, action: Action)

  const EMPTY := State(map[], map[], 0)

  // ---- Storage contract (storage/database.py) ----

  /** `claim_agent_run_lease`: an allowed status, and a lease that is free, expired or already ours. */
  predicate Claimable(run: Run, owner: string, t: Token, now: int) {
    && run.status in {Queued, Running}
    && (run.lease.None? || run.lease.value.expires <= now || run.HeldBy(owner, t))
  }

  /** `refresh_agent_run_lease`: the caller's own unexpired lease on a running run. */
  predicate Refreshable(run: Run, owner: string, t: Token, now: int) {
    run.HeldBy(owner, t) && run.status == Running && run.lease.value.expires >= now
  }

  function Refreshed(run: Run, expires: int): Run
    requires run.lease.Some?
  {
    run.(lease := Some(run.lease.value.(expires := expires)))
  }

  /** `release_agent_run_lease`. */
  function Released(run: Run, owner: string, t: Token): Run {
    if run.HeldBy(owner, t) then run.(lease := None) else run
  }

  // ---- Usage accounting ----

  predicate Executed(p: Payload) { p.finishesCall && !p.cached && p.executed }

  predicate FailedCall(p: Payload) { Executed(p) && p.status in FAILED_CALL_STATUSES }

  function MergeUsage(u: Usage, p: Payload): Usage {
    Usage(
      if p.tokensTotal.Some? then Max(u.tokens, Max(0, p.tokensTotal.value)) else u.tokens,
      u.toolCalls + (if Executed(p) then 1 else 0),
      u.toolErrors + (if FailedCall(p) then 1 else 0))
  }

  predicate WithinBudget(b: Budget, u: Usage) {
    && (b.maxTokens > 0 ==> u.tokens <= b.maxTokens)
    && (b.maxToolCalls > 0 ==> u.toolCalls <= b.maxToolCalls)
    && (b.maxToolErrors >= 0 ==> u.toolErrors <= b.maxToolErrors)
  }

  predicate Below(u: Usage, v: Usage) {
    u.tokens <= v.tokens && u.toolCalls <= v.toolCalls && u.toolErrors <= v.toolErrors
  }

  /** What `_normalize_run_budget` guarantees of every stored budget. */
  predicate NormalBudget(b: Budget) { b.maxTokens >= 256 && b.maxToolCalls >= 1 && b.maxToolErrors >= 0 }

  // ---- Row updates ----

  predicate Breach(e: Entry) { e.Paused? || e.Escalated? }

  function CountBreaches(log: seq<Entry>): nat { Count(log, Breach) }

  function CancelReason(run: Run): string {
    if run.stopReason == KILL_SWITCH_STOP_REASON then KILL_SWITCH_STOP_REASON else "canceled_by_user"
  }

  function CanceledRow(run: Run, seenQueued: bool): Run {
    var flagged := run.(cancelRequested := true);
    if seenQueued then
      flagged.(status := Canceled, stopReason := "canceled_by_user").Logged(CanceledMark("canceled_by_user"))
    else
      flagged.Logged(CancelAsked)
  }

  function KilledRow(run: Run): Run {
    if run.status !in {Queued, Running} then run
    else
      run.(cancelRequested := true, status := Canceled, stopReason := KILL_SWITCH_STOP_REASON, lease := None)
         .Logged(if run.status == Queued then CanceledMark(KILL_SWITCH_STOP_REASON) else KillMark)
  }

  function KilledAll(runs: map<RunId, Run>, targets: set<RunId>): (killed: map<RunId, Run>)
    ensures killed.Keys == runs.Keys
  {
    map r | r in runs :: if r in targets then KilledRow(runs[r]) else runs[r]
  }

  function ResumedRow(run: Run): Run {
    run.(status := Queued, attempts := 0, cancelRequested := false, stopReason := "", metrics := NO_USAGE)
       .Logged(Resumed)
  }

  function RecoveredRow(run: Run, seenRunning: bool): Run {
    if seenRunning then run.(status := Queued, stopReason := "", lease := None).Logged(Recovered)
    else run.(lease := None)
  }

  function StartedRow(run: Run, w: Worker): Run {
    run.(status := Running, attempts := w.attempt, stopReason := "", metrics := w.live).Logged(Started(w.attempt))
  }

  /** How a worker closes its attempt, decided on what it last read. */
  datatype Verdict = Verdict(status: Status, stopReason: string, metrics: Usage, entries: seq<Entry>, escalates: bool)

  function Decide(w: Worker): (d: Verdict)
    requires w.phase.Closing?
    ensures 1 <= |d.entries| <= 3 && d.status != Running
    ensures forall e | e in d.entries ::
      !(e.Progress? || e.Started? || e.Resumed? || e.Recovered?)
  {
    match w.phase.outcome
    case Success(reported) =>
      var metrics := if reported.Some? then reported.value else w.live;
      if w.phase.canceled then
        Verdict(Canceled, w.phase.reason, metrics, [CanceledMark(w.phase.reason)], false)
      else
        Verdict(Succeeded, "completed", metrics, [SucceededMark], false)
    case Failure(error) =>
      var failure := ClassifyFailure(error);
      var errorMark := ErrorMark(w.attempt, failure.failureClass);
      if !w.phase.canceled && failure.failureClass == "budget_exceeded" then
        if w.phase.breaches + 1 >= BREACH_LIMIT then
          Verdict(Canceled, "budget_guardrail_kill_switch", w.live,
                  [errorMark, Escalated, CanceledMark("budget_guardrail_kill_switch")], true)
        else
          Verdict(Failed, "budget_guardrail_paused", w.live,
                  [errorMark, Paused, FailedMark("budget_guardrail_paused")], false)
      else
        match ResolveRetryDecision(w.attempt, w.maxAttempts, failure, w.phase.canceled, w.phase.reason)
        case Retry =>
          Verdict(Queued, failure.stopReason, w.live, [errorMark, RetryMark(w.attempt + 1)], false)
        case Final(canceled, _, reason) =>
          if canceled then Verdict(Canceled, reason, w.live, [errorMark, CanceledMark(reason)], false)
          else Verdict(Failed, reason, w.live, [errorMark, FailedMark(reason)], false)
  }

  /** The closing transaction writes the verdict over whatever row is there by then. */
  function ClosedRow(run: Run, d: Verdict): Run {
    run.(status := d.status, stopReason := d.stopReason, metrics := d.metrics, log := run.log + d.entries)
  }

  // ---- Transitions ----

  /** The canceled test before an attempt and on the error path; the success path reads only the flag. */
  predicate SeesCancel(run: Run, outcome: Option<Outcome>) {
    run.cancelRequested || (run.status == Canceled && !(outcome.Some? && outcome.value.Success?))
  }

  function Commanded(run: Run, c: Command): Run {
    match c
    case Cancel(seenQueued) => CanceledRow(run, seenQueued)
    case Kill => KilledRow(run)
    case Resume => ResumedRow(run)
    case Recover(seenRunning) => RecoveredRow(run, seenRunning)
  }

  predicate CanWork(run: Run, t: Token, w: Worker, a: Action) {
    match a
    case CheckCancel => w.phase.Claimed?
    case CancelBeforeStart => w.phase.CancelSeen?
    case FailBeforeStart(_) => w.phase.Cleared?
    case Start => w.phase.Cleared?
    case Heartbeat(now, _) => Refreshable(run, w.owner, t, now)
    case Guard(now, _) => w.phase.Executing? && Refreshable(run, w.owner, t, now)
    case Push(_) => w.phase.Guarded?
    case MarkTimeout => w.phase.Guarded?
    case ReadLatest(outcome) => w.phase.Guarded? || (outcome.Failure? && w.phase.Executing?)
    case Close => w.phase.Closing?
    case Strike => w.phase.ScopeKilling?
    case NoteScopeKill => w.phase.ScopeNoting?
    case Release => w.phase.Done?
    case Abandon => true
  }

  /** The run row after the worker's action. */
  function Worked(run: Run, t: Token, w: Worker, a: Action): Run
    requires CanWork(run, t, w, a)
  {
    match a
    case CancelBeforeStart =>
      run.(status := Canceled, stopReason := w.phase.reason, metrics := w.live).Logged(CanceledMark(w.phase.reason))
    case FailBeforeStart(reason) =>
      run.(status := Failed, stopReason := reason, metrics := w.live).Logged(FailedMark(reason))
    case Start => StartedRow(run, w)
    case Heartbeat(_, expires) => Refreshed(run, expires)
    case Guard(_, expires) => Refreshed(run, expires)
    case Push(payload) =>
      if WithinBudget(w.budget, MergeUsage(w.live, payload)) then run.Logged(Progress(t, payload)) else run
    case MarkTimeout => run.Logged(TimedOut(w.attempt))
    case Close => ClosedRow(run, Decide(w))
    case NoteScopeKill => run.Logged(ScopeKilled)
    case Release => Released(run, w.owner, t)
    case _ => run
  }

  /** The worker after its action; releasing and abandoning end it. */
  function Advanced(run: Run, t: Token, w: Worker, a: Action): Worker
    requires CanWork(run, t, w, a)
  {
    match a
    case CheckCancel =>
      w.(live := run.metrics, phase := if SeesCancel(run, None) then CancelSeen(CancelReason(run)) else Cleared)
    case Start => w.(phase := Executing)
    case Heartbeat(_, _) => w
    case Guard(_, _) => w.(phase := Guarded)
    case Push(payload) => w.(live := MergeUsage(w.live, payload), phase := Executing)
    case MarkTimeout => w.(phase := Executing)
    case ReadLatest(outcome) =>
      w.(phase := Closing(outcome, SeesCancel(run, Some(outcome)), CancelReason(run), CountBreaches(run.log)))
    case Close => w.(phase := if Decide(w).escalates then ScopeKilling else Done)
    case Strike => w.(phase := ScopeNoting)
    case _ => w.(phase := Done)
  }

  /** What a worker's action appends to the log of its run. */
  function Appended(t: Token, w: Worker, a: Action): seq<Entry> {
    match a
    case CancelBeforeStart => if w.phase.CancelSeen? then [CanceledMark(w.phase.reason)] else []
    case FailBeforeStart(reason) => [FailedMark(reason)]
    case Start => [Started(w.attempt)]
    case Push(payload) =>
      if WithinBudget(w.budget, MergeUsage(w.live, payload)) then [Progress(t, payload)] else []
    case MarkTimeout => [TimedOut(w.attempt)]
    case Close => if w.phase.Closing? then Decide(w).entries else []
    case NoteScopeKill => [ScopeKilled]
    case _ => []
  }

  function Noted(run: Run, c: Command): seq<Entry> {
    match c
    case Cancel(seenQueued) => if seenQueued then [CanceledMark("canceled_by_user")] else [CancelAsked]
    case Kill =>
      if run.status == Queued then [CanceledMark(KILL_SWITCH_STOP_REASON)]
      else if run.status == Running then [KillMark]
      else []
    case Resume => [Resumed]
    case Recover(seenRunning) => if seenRunning then [Recovered] else []
  }

  /** Checkpoint logs are append-only. */
  lemma LogsGrow(run: Run, t: Token, w: Worker, a: Action)
    requires CanWork(run, t, w, a)
    ensures Worked(run, t, w, a).log == run.log + Appended(t, w, a)
  {
  }

  lemma CommandsGrow(run: Run, c: Command)
    ensures Commanded(run, c).log == run.log + Noted(run, c)
  {
  }

  predicate Ends(a: Action) { a.Release? || a.Abandon? }

  predicate Enabled(s: State, step: Step) {
    match step
    case Create(r, _, _, maxAttempts, budget) => r !in s.runs && maxAttempts >= 1 && NormalBudget(budget)
    case Order(r, _) => r in s.runs
    case KillSwitch(targets) => targets <= s.runs.Keys
    case Escalate(t, targets) =>
      && s.InFlight(t) && s.workers[t].phase.ScopeKilling?
      && targets <= s.runs.Keys && s.workers[t].run !in targets
    case Claim(r, owner, now, _) => r in s.runs && Claimable(s.runs[r], owner, s.nextToken, now)
    case Work(t, a) => s.InFlight(t) && !a.Strike? && CanWork(s.runs[s.workers[t].run], t, s.workers[t], a)
  }

  function Created(user: string, agent: string, maxAttempts: nat, budget: Budget): Run {
    Run(user, agent, Queued, 0, maxAttempts, false, "", None, budget, NO_USAGE, [QueuedMark])
  }

  function ClaimedBy(run: Run, r: RunId, owner: string): Worker {
    Worker(r, owner, run.attempts + 1, run.maxAttempts, run.budget, run.metrics, Claimed)
  }

  function Apply(s: State, step: Step): State
    requires Enabled(s, step)
  {
    match step
    case Create(r, user, agent, maxAttempts, budget) => s.SetRun(r, Created(user, agent, maxAttempts, budget))
    case Order(r, command) => s.SetRun(r, Commanded(s.runs[r], command))
    case KillSwitch(targets) => s.(runs := KilledAll(s.runs, targets))
    case Escalate(t, targets) =>
      s.(runs := KilledAll(s.runs, targets)).SetWorker(t, s.workers[t].(phase := ScopeNoting))
    case Claim(r, owner, now, expires) =>
      s.SetRun(r, s.runs[r].(lease := Some(Lease(owner, s.nextToken, expires))))
       .SetWorker(s.nextToken, ClaimedBy(s.runs[r], r, owner))
       .(nextToken := s.nextToken + 1)
    case Work(t, a) =>
      var w := s.workers[t];
      var run := s.runs[w.run];
      var s' := s.SetRun(w.run, Worked(run, t, w, a));
      if Ends(a) then s'.Drop(t) else s'.SetWorker(t, Advanced(run, t, w, a))
  }

  /** `steps` can be taken one after the other from `s`. */
  predicate Legal(s: State, steps: seq<Step>)
    decreases |steps|
  {
    steps == [] || (Enabled(s, steps[0]) && Legal(Apply(s, steps[0]), steps[1..]))
  }

  function After(s: State, steps: seq<Step>): State
    requires Legal(s, steps)
    decreases |steps|
  {
    if steps == [] then s else After(Apply(s, steps[0]), steps[1..])
  }

  /** The history of a single step. */
  function OneStep(s: State, step: Step): (steps: seq<Step>)
    requires Enabled(s, step)
    ensures Legal(s, steps) && After(s, steps) == Apply(s, step)
  {
    assert Legal(Apply(s, step), []);
    [step]
  }

  /** Histories extend at the end. */
  lemma {:induction false} ThenStep(s: State, steps: seq<Step>, step: Step)
    requires Legal(s, steps) && Enabled(After(s, steps), step)
    ensures Legal(s, steps + [step]) && After(s, steps + [step]) == Apply(After(s, steps), step)
    decreases |steps|
  {
    if steps == [] {
      assert Legal(Apply(s, step), []);
    } else {
      ThenStep(Apply(s, steps[0]), steps[1..], step);
      assert (steps + [step])[1..] == steps[1..] + [step];
    }
  }
}
