/**
  Chains of attempts. In orderly histories, where the attempts of one run do not overlap, the attempt
  counter, the usage budgets and the budget guardrail hold across all attempts of a chain together. A run
  whose worker died may be taken over while it is running; cancels and kill switches may strike at any
  moment.
 */
module RunChains {
  import opened Common
  import opened RunProtocol
  import opened RunView

  predicate Active(p: Phase) { p.Executing? || p.Guarded? || p.Closing? }

  /** The worker has claimed the run and has neither finished nor given up its attempt. */
  predicate Engaged(w: Worker) { Waiting(w.phase) || Active(w.phase) }

  predicate NobodyEngaged(v: View) { forall t | t in v.crew :: !Engaged(v.crew[t]) }

  /** Attempts do not overlap: nobody is on the run's current attempt when it is claimed, resumed or recovered. */
  predicate Orderly(v: View, m: Move) {
    m.Taken? || m == Told(Resume) || (m.Told? && m.command.Recover?) ==> NobodyEngaged(v)
  }

  predicate Restarts(e: Entry) { e.Resumed? || e.Recovered? }

  /** The latest attempt, if any, was sent back to the queue: a retry, a recovery or a resume. */
  predicate Settled(log: seq<Entry>) {
    if log == [] || Restarts(Last(log)) || Last(log).RetryMark? then true
    else if Last(log).Started? then false
    else Settled(Init(log))
  }

  /** Crash recoveries since the run was created or last resumed. */
  function Recoveries(log: seq<Entry>): nat {
    if log == [] || Last(log).Resumed? then 0
    else Recoveries(Init(log)) + (if Last(log).Recovered? then 1 else 0)
  }

  /** Attempts since then that took the run over from one that never ended: a claim of a running row. */
  function Takeovers(log: seq<Entry>): nat {
    if log == [] || Last(log).Resumed? then 0
    else Takeovers(Init(log)) + (if Last(log).Started? && !Settled(Init(log)) then 1 else 0)
  }

  /** The chain as it was when the latest attempt began. */
  function Kept(log: seq<Entry>): seq<Entry>
    decreases |log|, 0
  {
    if log == [] || Restarts(Last(log)) then []
    else if Last(log).Started? then Continued(Init(log))
    else Kept(Init(log))
  }

  /**
    The entries since the run was created, last resumed or last recovered, without those of attempts that
    were taken over: one crash-free chain of attempts.
   */
  function Chain(log: seq<Entry>): seq<Entry>
    decreases |log|, 1
  {
    if log == [] || Restarts(Last(log)) then []
    else if Last(log).Started? then Kept(log) + [Last(log)]
    else Chain(Init(log)) + [Last(log)]
  }

  /** What the next attempt continues: a takeover goes back to where the abandoned attempt began. */
  function Continued(log: seq<Entry>): seq<Entry>
    decreases |log|, 2
  {
    if Settled(log) then Chain(log) else Kept(log)
  }

  function UsageOf(entries: seq<Entry>): Usage {
    if entries == [] then NO_USAGE
    else if Last(entries).Progress? then MergeUsage(UsageOf(Init(entries)), Last(entries).payload)
    else UsageOf(Init(entries))
  }

  function Breaches(log: seq<Entry>): seq<Entry> { Filter(log, Breach) }

  /** The first breach of a run's life pauses it and every later one escalates. */
  predicate PausedThenEscalated(breaches: seq<Entry>) {
    forall i | 0 <= i < |breaches| :: breaches[i] == if i == 0 then Paused else Escalated
  }

  /** All that the chain invariant reads off a log. */
  datatype Digest = Digest(settled: bool, recoveries: nat, takeovers: nat, chain: Usage, kept: Usage,
                           breaches: seq<Entry>)
  {
    /** The usage the next attempt continues from. */
    function Continued(): Usage { if settled then chain else kept }

    function Then(e: Entry): Digest {
      match e
      case Resumed => Digest(true, 0, 0, NO_USAGE, NO_USAGE, breaches)
      case Recovered => Digest(true, recoveries + 1, takeovers, NO_USAGE, NO_USAGE, breaches)
      case Started(_) =>
        Digest(false, recoveries, takeovers + (if settled then 0 else 1), Continued(), Continued(), breaches)
      case Progress(_, payload) => this.(chain := MergeUsage(chain, payload))
      case RetryMark(_) => this.(settled := true)
      case Paused => this.(breaches := breaches + [e])
      case Escalated => this.(breaches := breaches + [e])
      case _ => this
    }
  }

  function DigestOf(log: seq<Entry>): Digest {
    Digest(Settled(log), Recoveries(log), Takeovers(log), UsageOf(Chain(log)), UsageOf(Kept(log)), Breaches(log))
  }

  function Allowed(run: Run, g: Digest): nat { run.maxAttempts + g.recoveries + g.takeovers }

  /** The next attempt is within the limit, or is a takeover that raises the limit. */
  predicate HasRoom(run: Run, g: Digest) { g.settled ==> run.attempts < Allowed(run, g) }

  /** The row fits the digest of its log. */
  predicate RowOk(run: Run, g: Digest) {
    && run.maxAttempts >= 1 && NormalBudget(run.budget)
    && run.attempts <= Allowed(run, g)
    && WithinBudget(run.budget, g.chain) && WithinBudget(run.budget, g.kept)
    && (run.status in {Queued, Running} ==> HasRoom(run, g) && Below(g.Continued(), run.metrics))
    && (run.status == Queued ==> g.settled)
    && PausedThenEscalated(g.breaches)
  }

  /** The worker's snapshot still agrees with the row it claimed or started. */
  predicate WorkerOk(run: Run, g: Digest, w: Worker) {
    && w.maxAttempts == run.maxAttempts && w.budget == run.budget
    && (Waiting(w.phase) ==>
          && w.attempt == run.attempts + 1 && HasRoom(run, g)
          && Below(g.Continued(), run.metrics) && (!w.phase.Claimed? ==> Below(g.Continued(), w.live)))
    && (Active(w.phase) ==> w.attempt == run.attempts && !g.settled && Below(g.chain, w.live))
    && (w.phase.Closing? ==> w.phase.breaches == |g.breaches|)
  }

  predicate RowInv(run: Run) { RowOk(run, DigestOf(run.log)) }

  predicate Fits(run: Run, w: Worker) { WorkerOk(run, DigestOf(run.log), w) }

  predicate Alone(crew: map<Token, Worker>) {
    forall t, u | t in crew && u in crew :: Engaged(crew[t]) && Engaged(crew[u]) ==> t == u
  }

  predicate ChainInv(v: View) {
    RowInv(v.run) && Alone(v.crew) && forall t | t in v.crew :: Fits(v.run, v.crew[t])
  }

  // ---- How the log functions grow ----

  /** Entries that neither start or end an attempt, record usage nor record a breach. */
  predicate Plain(e: Entry) {
    !(Restarts(e) || e.RetryMark? || e.Started? || e.Progress? || Breach(e))
  }

  lemma PlainEntry(log: seq<Entry>, e: Entry)
    requires Plain(e)
    ensures DigestOf(log + [e]) == DigestOf(log) && Kept(log + [e]) == Kept(log)
  {
    InitLast(log, e);
    InitLast(Chain(log), e);
    FilterSnoc(log, e, Breach);
  }

  lemma RestartEntry(log: seq<Entry>, e: Entry)
    requires Restarts(e)
    ensures Settled(log + [e]) && Chain(log + [e]) == Kept(log + [e]) == [] && Breaches(log + [e]) == Breaches(log)
    ensures Recoveries(log + [e]) == if e.Resumed? then 0 else Recoveries(log) + 1
    ensures Takeovers(log + [e]) == if e.Resumed? then 0 else Takeovers(log)
  {
    InitLast(log, e);
    FilterSnoc(log, e, Breach);
  }

  lemma StartEntry(log: seq<Entry>, attempt: nat)
    ensures var log' := log + [Started(attempt)];
            && !Settled(log') && Recoveries(log') == Recoveries(log) && Breaches(log') == Breaches(log)
            && Takeovers(log') == Takeovers(log) + (if Settled(log) then 0 else 1)
            && Kept(log') == Continued(log) && UsageOf(Chain(log')) == UsageOf(Continued(log))
  {
    InitLast(log, Started(attempt));
    InitLast(Continued(log), Started(attempt));
    FilterSnoc(log, Started(attempt), Breach);
  }

  lemma ProgressEntry(log: seq<Entry>, t: Token, p: Payload)
    ensures var log' := log + [Progress(t, p)];
            && Settled(log') == Settled(log) && Recoveries(log') == Recoveries(log) && Breaches(log') == Breaches(log)
            && Takeovers(log') == Takeovers(log) && Kept(log') == Kept(log)
            && UsageOf(Chain(log')) == MergeUsage(UsageOf(Chain(log)), p)
  {
    InitLast(log, Progress(t, p));
    InitLast(Chain(log), Progress(t, p));
    FilterSnoc(log, Progress(t, p), Breach);
  }

  lemma RetryEntry(log: seq<Entry>, attempt: nat)
    ensures var log' := log + [RetryMark(attempt)];
            && Settled(log') && Recoveries(log') == Recoveries(log) && Breaches(log') == Breaches(log)
            && Takeovers(log') == Takeovers(log) && Kept(log') == Kept(log)
            && UsageOf(Chain(log')) == UsageOf(Chain(log))
  {
    InitLast(log, RetryMark(attempt));
    InitLast(Chain(log), RetryMark(attempt));
    FilterSnoc(log, RetryMark(attempt), Breach);
  }

  lemma BreachEntry(log: seq<Entry>, e: Entry)
    requires Breach(e)
    ensures var log' := log + [e];
            && Settled(log') == Settled(log) && Recoveries(log') == Recoveries(log) && Takeovers(log') == Takeovers(log)
            && UsageOf(Chain(log')) == UsageOf(Chain(log)) && Kept(log') == Kept(log)
            && Breaches(log') == Breaches(log) + [e]
  {
    InitLast(log, e);
    InitLast(Chain(log), e);
    FilterSnoc(log, e, Breach);
  }

  /** The digest of a log is a fold over its entries. */
  lemma DigestThen(log: seq<Entry>, e: Entry)
    ensures DigestOf(log + [e]) == DigestOf(log).Then(e)
  {
    match e
    case Resumed => RestartEntry(log, e);
    case Recovered => RestartEntry(log, e);
    case Started(attempt) => StartEntry(log, attempt);
    case Progress(t, p) => ProgressEntry(log, t, p);
    case RetryMark(attempt) => RetryEntry(log, attempt);
    case Paused => BreachEntry(log, e);
    case Escalated => BreachEntry(log, e);
    case _ => PlainEntry(log, e);
  }

  lemma {:induction false} PlainTail(log: seq<Entry>, tail: seq<Entry>)
    requires forall e | e in tail :: Plain(e)
    ensures DigestOf(log + tail) == DigestOf(log)
  {
    if tail == [] {
      assert log + tail == log;
    } else {
      assert Plain(Last(tail));
      assert log + tail == (log + Init(tail)) + [Last(tail)];
      PlainTail(log, Init(tail));
      PlainEntry(log + Init(tail), Last(tail));
    }
  }

  lemma DigestThenTwo(log: seq<Entry>, a: Entry, b: Entry)
    ensures DigestOf(log + [a, b]) == DigestOf(log).Then(a).Then(b)
  {
    assert log + [a, b] == log + [a] + [b];
    DigestThen(log, a);
    DigestThen(log + [a], b);
  }

  lemma DigestThenThree(log: seq<Entry>, a: Entry, b: Entry, c: Entry)
    ensures DigestOf(log + [a, b, c]) == DigestOf(log).Then(a).Then(b).Then(c)
  {
    assert log + [a, b, c] == log + [a, b] + [c];
    DigestThenTwo(log, a, b);
    DigestThen(log + [a, b], c);
  }

  // ---- Commands keep the invariant; the log enters only through its digest ----

  lemma CancelOk(run: Run, g: Digest, seenQueued: bool)
    requires RowOk(run, g)
    ensures RowOk(CanceledRow(run, seenQueued), g)
  {
  }

  lemma KillOk(run: Run, g: Digest)
    requires RowOk(run, g)
    ensures RowOk(KilledRow(run), g)
  {
  }

  lemma ResumeOk(run: Run, g: Digest)
    requires RowOk(run, g)
    ensures RowOk(ResumedRow(run), g.Then(Resumed))
  {
  }

  lemma RecoverOk(run: Run, g: Digest, seenRunning: bool)
    requires RowOk(run, g)
    ensures RowOk(RecoveredRow(run, seenRunning), if seenRunning then g.Then(Recovered) else g)
  {
  }

  /** What a command does to the digest. */
  lemma DigestOfCommand(run: Run, c: Command)
    ensures DigestOf(Commanded(run, c).log)
         == if c.Resume? then DigestOf(run.log).Then(Resumed)
            else if c == Recover(true) then DigestOf(run.log).Then(Recovered)
            else DigestOf(run.log)
  {
    CommandsGrow(run, c);
    if c.Resume? {
      DigestThen(run.log, Resumed);
    } else if c == Recover(true) {
      DigestThen(run.log, Recovered);
    } else {
      PlainTail(run.log, Noted(run, c));
    }
  }

  lemma CommandKeeps(run: Run, c: Command)
    requires RowInv(run)
    ensures RowInv(Commanded(run, c))
  {
    var g := DigestOf(run.log);
    DigestOfCommand(run, c);
    match c
    case Cancel(seenQueued) => CancelOk(run, g, seenQueued);
    case Kill => KillOk(run, g);
    case Resume => ResumeOk(run, g);
    case Recover(seenRunning) => RecoverOk(run, g, seenRunning);
  }

  lemma StrikeOk(run: Run, g: Digest, c: Command, w: Worker)
    requires WorkerOk(run, g, w) && (c.Cancel? || c.Kill?)
    ensures WorkerOk(Commanded(run, c), g, w)
  {
  }

  lemma RestOk(run: Run, g: Digest, c: Command, g': Digest, w: Worker)
    requires WorkerOk(run, g, w) && !Engaged(w)
    ensures WorkerOk(Commanded(run, c), g', w)
  {
  }

  lemma CommandFits(run: Run, c: Command, w: Worker)
    requires Fits(run, w) && (c.Cancel? || c.Kill? || !Engaged(w))
    ensures Fits(Commanded(run, c), w)
  {
    DigestOfCommand(run, c);
    if c.Cancel? || c.Kill? {
      StrikeOk(run, DigestOf(run.log), c, w);
    } else {
      RestOk(run, DigestOf(run.log), c, DigestOf(Commanded(run, c).log), w);
    }
  }

  // ---- Workers keep the invariant ----

  lemma MergeKeepsBelow(u: Usage, v: Usage, p: Payload)
    requires Below(u, v)
    ensures Below(MergeUsage(u, p), MergeUsage(v, p))
  {
  }

  /** Retries are below the attempt limit and never follow a breach; a breach is logged between plain entries. */
  predicate FairVerdict(d: Verdict, w: Worker)
    requires w.phase.Closing?
  {
    if d.status == Queued then
      && w.attempt < w.maxAttempts && d.metrics == w.live
      && |d.entries| == 2 && Plain(d.entries[0]) && d.entries[1].RetryMark?
    else
      || (forall e | e in d.entries :: Plain(e))
      || (|d.entries| == 3 && Plain(d.entries[0]) && Plain(d.entries[2])
          && d.entries[1] == if w.phase.breaches == 0 then Paused else Escalated)
  }

  lemma VerdictIsFair(w: Worker)
    requires w.phase.Closing?
    ensures FairVerdict(Decide(w), w)
  {
  }

  /** What a fair verdict does to the digest: a retry settles the attempt, a breach is added, or nothing. */
  function AfterVerdict(g: Digest, d: Verdict, w: Worker): Digest
    requires w.phase.Closing?
  {
    if d.status == Queued then g.(settled := true)
    else if forall e | e in d.entries :: Plain(e) then g
    else g.(breaches := g.breaches + [if w.phase.breaches == 0 then Paused else Escalated])
  }

  lemma DigestOfVerdict(log: seq<Entry>, w: Worker, d: Verdict)
    requires w.phase.Closing? && FairVerdict(d, w)
    ensures DigestOf(log + d.entries) == AfterVerdict(DigestOf(log), d, w)
  {
    if d.status == Queued {
      assert d.entries == [d.entries[0], d.entries[1]];
      DigestThenTwo(log, d.entries[0], d.entries[1]);
    } else if forall e | e in d.entries :: Plain(e) {
      PlainTail(log, d.entries);
    } else {
      assert d.entries == [d.entries[0], d.entries[1], d.entries[2]];
      DigestThenThree(log, d.entries[0], d.entries[1], d.entries[2]);
    }
  }

  lemma CloseOk(run: Run, g: Digest, w: Worker, d: Verdict)
    requires RowOk(run, g) && WorkerOk(run, g, w) && w.phase.Closing? && FairVerdict(d, w) && d.status != Running
    ensures RowOk(ClosedRow(run, d), AfterVerdict(g, d, w))
  {
  }

  lemma CloseKeeps(run: Run, t: Token, w: Worker)
    requires RowInv(run) && Fits(run, w) && w.phase.Closing?
    ensures RowInv(Worked(run, t, w, Close)) && Fits(Worked(run, t, w, Close), Advanced(run, t, w, Close))
  {
    VerdictIsFair(w);
    DigestOfVerdict(run.log, w, Decide(w));
    CloseOk(run, DigestOf(run.log), w, Decide(w));
    assert Worked(run, t, w, Close) == ClosedRow(run, Decide(w));
    assert !Engaged(Advanced(run, t, w, Close));
  }

  lemma PushOk(run: Run, g: Digest, t: Token, w: Worker, p: Payload)
    requires RowOk(run, g) && WorkerOk(run, g, w) && w.phase.Guarded?
    ensures var logged := WithinBudget(w.budget, MergeUsage(w.live, p));
            var g' := if logged then g.Then(Progress(t, p)) else g;
            && RowOk(Worked(run, t, w, Push(p)), g')
            && WorkerOk(Worked(run, t, w, Push(p)), g', Advanced(run, t, w, Push(p)))
  {
    MergeKeepsBelow(g.chain, w.live, p);
  }

  lemma PushKeeps(run: Run, t: Token, w: Worker, p: Payload)
    requires RowInv(run) && Fits(run, w) && w.phase.Guarded?
    ensures RowInv(Worked(run, t, w, Push(p))) && Fits(Worked(run, t, w, Push(p)), Advanced(run, t, w, Push(p)))
  {
    DigestThen(run.log, Progress(t, p));
    PushOk(run, DigestOf(run.log), t, w, p);
  }

  lemma StartOk(run: Run, g: Digest, t: Token, w: Worker)
    requires RowOk(run, g) && WorkerOk(run, g, w) && w.phase.Cleared?
    ensures var g' := g.Then(Started(w.attempt));
            && RowOk(Worked(run, t, w, Start), g')
            && WorkerOk(Worked(run, t, w, Start), g', Advanced(run, t, w, Start))
  {
  }

  lemma StartKeeps(run: Run, t: Token, w: Worker)
    requires RowInv(run) && Fits(run, w) && w.phase.Cleared?
    ensures RowInv(Worked(run, t, w, Start)) && Fits(Worked(run, t, w, Start), Advanced(run, t, w, Start))
  {
    DigestThen(run.log, Started(w.attempt));
    StartOk(run, DigestOf(run.log), t, w);
  }

  /** Actions that log plain entries or nothing. */
  predicate Quiet(a: Action) { !(a.Close? || a.Push? || a.Start?) }

  lemma QuietRowOk(run: Run, g: Digest, t: Token, w: Worker, a: Action)
    requires RowOk(run, g) && CanWork(run, t, w, a) && Quiet(a)
    ensures RowOk(Worked(run, t, w, a), g)
  {
  }

  lemma QuietWorkerOk(run: Run, g: Digest, t: Token, w: Worker, a: Action)
    requires WorkerOk(run, g, w) && CanWork(run, t, w, a) && Quiet(a)
    requires a.ReadLatest? ==> CountBreaches(run.log) == |g.breaches|
    ensures WorkerOk(Worked(run, t, w, a), g, Advanced(run, t, w, a))
  {
  }

  lemma DigestOfQuiet(run: Run, t: Token, w: Worker, a: Action)
    requires CanWork(run, t, w, a) && Quiet(a)
    ensures DigestOf(Worked(run, t, w, a).log) == DigestOf(run.log)
  {
    LogsGrow(run, t, w, a);
    PlainTail(run.log, Appended(t, w, a));
  }

  lemma QuietKeeps(run: Run, t: Token, w: Worker, a: Action)
    requires RowInv(run) && Fits(run, w) && CanWork(run, t, w, a) && Quiet(a)
    ensures RowInv(Worked(run, t, w, a)) && Fits(Worked(run, t, w, a), Advanced(run, t, w, a))
  {
    DigestOfQuiet(run, t, w, a);
    QuietRowOk(run, DigestOf(run.log), t, w, a);
    QuietWorkerOk(run, DigestOf(run.log), t, w, a);
  }

  lemma WorkKeeps(run: Run, t: Token, w: Worker, a: Action)
    requires RowInv(run) && Fits(run, w) && CanWork(run, t, w, a)
    ensures RowInv(Worked(run, t, w, a)) && Fits(Worked(run, t, w, a), Advanced(run, t, w, a))
  {
    match a
    case Close => CloseKeeps(run, t, w);
    case Push(p) => PushKeeps(run, t, w, p);
    case Start => StartKeeps(run, t, w);
    case _ => QuietKeeps(run, t, w, a);
  }

  lemma BystanderOk(run: Run, g: Digest, t: Token, w: Worker, a: Action, u: Worker)
    requires CanWork(run, t, w, a) && WorkerOk(run, g, u) && !Engaged(w) && Quiet(a)
    ensures WorkerOk(Worked(run, t, w, a), g, u)
  {
  }

  lemma RestingOk(run: Run, g: Digest, t: Token, w: Worker, a: Action, g': Digest, u: Worker)
    requires CanWork(run, t, w, a) && WorkerOk(run, g, u) && !Engaged(u)
    ensures WorkerOk(Worked(run, t, w, a), g', u)
  {
  }

  /** Nobody else is engaged while a worker acts on its attempt. */
  lemma OthersFit(run: Run, t: Token, w: Worker, a: Action, u: Worker)
    requires CanWork(run, t, w, a) && Fits(run, u) && !(Engaged(w) && Engaged(u))
    ensures Fits(Worked(run, t, w, a), u)
  {
    var g := DigestOf(run.log);
    if Engaged(u) {
      DigestOfQuiet(run, t, w, a);
      BystanderOk(run, g, t, w, a, u);
    } else {
      RestingOk(run, g, t, w, a, DigestOf(Worked(run, t, w, a).log), u);
    }
  }

  lemma EngagedStay(run: Run, t: Token, w: Worker, a: Action)
    requires CanWork(run, t, w, a) && Engaged(Advanced(run, t, w, a))
    ensures Engaged(w)
  {
  }

  lemma CrewKept(v: View, v': View, t: Token)
    requires ChainInv(v) && t in v.crew && RowInv(v'.run)
    requires v'.crew.Keys <= v.crew.Keys && forall u | u in v'.crew && u != t :: v'.crew[u] == v.crew[u]
    requires forall u | u in v.crew && u != t :: Fits(v'.run, v.crew[u])
    requires t in v'.crew ==> Fits(v'.run, v'.crew[t]) && (Engaged(v'.crew[t]) ==> Engaged(v.crew[t]))
    ensures ChainInv(v')
  {
  }

  lemma ActKeeps(v: View, t: Token, a: Action, r: RunId)
    requires ChainInv(v) && CanMove(v, Acted(t, a))
    ensures ChainInv(Moved(v, Acted(t, a), r))
  {
    var w, run' := v.crew[t], Worked(v.run, t, v.crew[t], a);
    WorkKeeps(v.run, t, w, a);
    forall u | u in v.crew && u != t ensures Fits(run', v.crew[u]) {
      OthersFit(v.run, t, w, a, v.crew[u]);
    }
    if Engaged(Advanced(v.run, t, w, a)) {
      EngagedStay(v.run, t, w, a);
    }
    CrewKept(v, Moved(v, Acted(t, a), r), t);
  }

  lemma ClaimKeeps(v: View, m: Move, r: RunId)
    requires ChainInv(v) && m.Taken? && CanMove(v, m) && Orderly(v, m)
    ensures ChainInv(Moved(v, m, r))
  {
  }

  lemma ChainStep(v: View, m: Move, r: RunId)
    requires ChainInv(v) && CanMove(v, m) && Orderly(v, m)
    ensures ChainInv(Moved(v, m, r))
  {
    match m
    case Told(c) =>
      CommandKeeps(v.run, c);
      forall t | t in v.crew ensures Fits(Commanded(v.run, c), v.crew[t]) {
        CommandFits(v.run, c, v.crew[t]);
      }
    case Acted(t, a) => ActKeeps(v, t, a, r);
    case Taken(_, _, _) => ClaimKeeps(v, m, r);
    case Elsewhere(_) =>
  }

  lemma ChainInvariant(steps: seq<Step>, r: RunId)
    requires LegalUnder(EMPTY, steps, r, Orderly)
    ensures Legal(EMPTY, steps) && HoldsOf(After(EMPTY, steps), r, ChainInv)
  {
    assert Starts(ChainInv) by {
      PlainEntry([], QueuedMark);
      assert [] + [QueuedMark] == [QueuedMark];
    }
    assert Keeps(ChainInv, Orderly) by {
      forall v, m, r | ChainInv(v) && CanMove(v, m) && Orderly(v, m) ensures ChainInv(Moved(v, m, r)) {
        ChainStep(v, m, r);
      }
    }
    Invariant(ChainInv, Orderly, EMPTY, steps, r);
  }

  // ---- Theorems over orderly histories ----

  /**
    `attempts` never exceeds `max_attempts` plus the crash recoveries and the takeovers since creation or
    the last resume, and a queued run is strictly below, so the attempt it is queued for is still within.
   */
  lemma AttemptsStayWithinLimit(steps: seq<Step>, r: RunId)
    requires LegalUnder(EMPTY, steps, r, Orderly)
    ensures Legal(EMPTY, steps)
    ensures r in After(EMPTY, steps).runs ==>
              var run := After(EMPTY, steps).runs[r];
              && run.attempts <= run.maxAttempts + Recoveries(run.log) + Takeovers(run.log)
              && (run.status == Queued ==> run.attempts < run.maxAttempts + Recoveries(run.log) + Takeovers(run.log))
  {
    ChainInvariant(steps, r);
    if r in After(EMPTY, steps).runs {
      assert ChainInv(ViewOf(After(EMPTY, steps), r));
    }
  }

  /** A tool call that was finished, did not come from the cache and was executed. */
  predicate IsCall(e: Entry) {
    e.Progress? && e.payload.finishesCall && !e.payload.cached && e.payload.executed
  }

  predicate IsFailedCall(e: Entry) {
    && IsCall(e)
    && (|| e.payload.status == "failed" || e.payload.status == "invalid_arguments"
        || e.payload.status == "blocked" || e.payload.status == "permission_required")
  }

  predicate ReportsTokens(e: Entry) { e.Progress? && e.payload.tokensTotal.Some? }

  predicate Reports(e: Entry, tokens: int) { ReportsTokens(e) && e.payload.tokensTotal.value == tokens }

  /** The running totals are counts, and the token total is a high-water mark: reached, and never exceeded. */
  lemma {:induction false} ChainUsageCounts(entries: seq<Entry>)
    ensures UsageOf(entries).toolCalls == Count(entries, IsCall)
    ensures UsageOf(entries).toolErrors == Count(entries, IsFailedCall)
    ensures forall e | e in entries && ReportsTokens(e) :: e.payload.tokensTotal.value <= UsageOf(entries).tokens
    ensures UsageOf(entries).tokens == 0 || exists e | e in entries :: Reports(e, UsageOf(entries).tokens)
  {
    if entries != [] {
      ChainUsageCounts(Init(entries));
      assert entries == Init(entries) + [Last(entries)];
      assert ReportsTokens(Last(entries)) ==> Reports(Last(entries), Last(entries).payload.tokensTotal.value);
    }
  }

  /**
    Counted over all attempts of a crash-free chain together, the persisted tool calls that were really
    executed, the failed ones among them and every reported token total stay within the run's budget.
   */
  lemma BudgetHoldsAcrossAttempts(steps: seq<Step>, r: RunId)
    requires LegalUnder(EMPTY, steps, r, Orderly)
    ensures Legal(EMPTY, steps)
    ensures r in After(EMPTY, steps).runs ==>
              var run := After(EMPTY, steps).runs[r];
              && Count(Chain(run.log), IsCall) <= run.budget.maxToolCalls
              && Count(Chain(run.log), IsFailedCall) <= run.budget.maxToolErrors
              && forall e | e in Chain(run.log) && ReportsTokens(e) ::
                   e.payload.tokensTotal.value <= run.budget.maxTokens
  {
    ChainInvariant(steps, r);
    if r in After(EMPTY, steps).runs {
      var v := ViewOf(After(EMPTY, steps), r);
      assert ChainInv(v);
      ChainUsageCounts(Chain(v.run.log));
    }
  }

  /** Read off the log: a breach is a pause if and only if no pause came before it. */
  predicate PausesOnceThenEscalates(log: seq<Entry>) {
    forall j | 0 <= j < |log| && Breach(log[j]) :: log[j] == if Paused in log[..j] then Escalated else Paused
  }

  lemma {:induction false} BreachesInPlace(log: seq<Entry>)
    requires PausedThenEscalated(Breaches(log))
    ensures PausesOnceThenEscalates(log)
  {
    if log != [] {
      var front := Init(log);
      assert log == front + [Last(log)];
      FilterSnoc(front, Last(log), Breach);
      assert PausedThenEscalated(Breaches(front)) by {
        assert forall k | 0 <= k < |Breaches(front)| :: Breaches(front)[k] == Breaches(log)[k];
      }
      BreachesInPlace(front);
      assert Paused in front <==> Breaches(front) != [] by {
        FilterMembers(front, Breach);
        assert Breaches(front) != [] ==> Breaches(front)[0] == Paused;
      }
      forall j | 0 <= j < |log| && Breach(log[j])
        ensures log[j] == if Paused in log[..j] then Escalated else Paused
      {
        if j < |front| {
          assert log[..j] == front[..j] && log[j] == front[j];
        } else {
          assert log[..j] == front && Breaches(log)[|Breaches(front)|] == log[j];
        }
      }
    }
  }

  /** Over the whole life of a run, across resumes and recoveries. */
  lemma GuardrailPausesOnce(steps: seq<Step>, r: RunId)
    requires LegalUnder(EMPTY, steps, r, Orderly)
    ensures Legal(EMPTY, steps)
    ensures r in After(EMPTY, steps).runs ==> PausesOnceThenEscalates(After(EMPTY, steps).runs[r].log)
  {
    ChainInvariant(steps, r);
    if r in After(EMPTY, steps).runs {
      var v := ViewOf(After(EMPTY, steps), r);
      assert ChainInv(v);
      BreachesInPlace(v.run.log);
    }
  }
}
