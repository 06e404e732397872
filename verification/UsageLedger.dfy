/**
  Live usage is what the log says. While attempts of a run do not overlap, none was recovered after a crash
  and no checkpoint was refused before, a worker's running totals are those of its chain of attempts, so the
  log alone decides whether its next checkpoint is accepted.
 */
module UsageLedger {
  import opened Common
  import opened RunProtocol
  import opened RunView
  import opened RunChains

  /** The checkpoint is merged into the live usage but not appended. */
  predicate Refused(run: Run, t: Token, w: Worker, p: Payload)
    requires CanWork(run, t, w, Push(p))
  {
    Worked(run, t, w, Push(p)).log == run.log
  }

  predicate Metered(v: View, m: Move) {
    && Orderly(v, m) && m != Told(Recover(true))
    && (m.Acted? && m.action.Push? && CanMove(v, m) ==> !Refused(v.run, m.t, v.crew[m.t], m.action.payload))
  }

  predicate RowExact(run: Run, g: Digest) { run.status in {Queued, Running} ==> run.metrics == g.Continued() }

  predicate WorkerExact(run: Run, g: Digest, w: Worker) {
    && (Waiting(w.phase) ==> run.metrics == g.Continued() && (!w.phase.Claimed? ==> w.live == g.Continued()))
    && (Active(w.phase) ==> w.live == g.chain)
  }

  predicate Exact(run: Run, w: Worker) { WorkerExact(run, DigestOf(run.log), w) }

  predicate LedgerInv(v: View) {
    ChainInv(v) && RowExact(v.run, DigestOf(v.run.log)) && forall t | t in v.crew :: Exact(v.run, v.crew[t])
  }

  lemma CommandExact(run: Run, c: Command)
    requires RowExact(run, DigestOf(run.log)) && c != Recover(true)
    ensures RowExact(Commanded(run, c), DigestOf(Commanded(run, c).log))
  {
    DigestOfCommand(run, c);
  }

  lemma CommandExactFor(run: Run, c: Command, w: Worker)
    requires Exact(run, w) && c != Recover(true) && (c.Resume? ==> !Engaged(w))
    ensures Exact(Commanded(run, c), w)
  {
    DigestOfCommand(run, c);
  }

  lemma CloseExact(run: Run, t: Token, w: Worker)
    requires RowExact(run, DigestOf(run.log)) && Exact(run, w) && w.phase.Closing?
    ensures RowExact(Worked(run, t, w, Close), DigestOf(Worked(run, t, w, Close).log))
    ensures Exact(Worked(run, t, w, Close), Advanced(run, t, w, Close))
  {
    VerdictIsFair(w);
    DigestOfVerdict(run.log, w, Decide(w));
    assert !Engaged(Advanced(run, t, w, Close));
  }

  lemma PushExact(run: Run, t: Token, w: Worker, p: Payload)
    requires RowExact(run, DigestOf(run.log)) && Exact(run, w) && Fits(run, w)
    requires w.phase.Guarded? && !Refused(run, t, w, p)
    ensures RowExact(Worked(run, t, w, Push(p)), DigestOf(Worked(run, t, w, Push(p)).log))
    ensures Exact(Worked(run, t, w, Push(p)), Advanced(run, t, w, Push(p)))
  {
    DigestThen(run.log, Progress(t, p));
  }

  lemma StartExact(run: Run, t: Token, w: Worker)
    requires RowExact(run, DigestOf(run.log)) && Exact(run, w) && w.phase.Cleared?
    ensures RowExact(Worked(run, t, w, Start), DigestOf(Worked(run, t, w, Start).log))
    ensures Exact(Worked(run, t, w, Start), Advanced(run, t, w, Start))
  {
    DigestThen(run.log, Started(w.attempt));
  }

  lemma QuietExact(run: Run, t: Token, w: Worker, a: Action)
    requires RowExact(run, DigestOf(run.log)) && Exact(run, w) && CanWork(run, t, w, a) && Quiet(a)
    ensures RowExact(Worked(run, t, w, a), DigestOf(Worked(run, t, w, a).log))
    ensures Exact(Worked(run, t, w, a), Advanced(run, t, w, a))
  {
    DigestOfQuiet(run, t, w, a);
  }

  lemma WorkExact(run: Run, t: Token, w: Worker, a: Action)
    requires RowExact(run, DigestOf(run.log)) && Exact(run, w) && Fits(run, w) && CanWork(run, t, w, a)
    requires a.Push? ==> !Refused(run, t, w, a.payload)
    ensures RowExact(Worked(run, t, w, a), DigestOf(Worked(run, t, w, a).log))
    ensures Exact(Worked(run, t, w, a), Advanced(run, t, w, a))
  {
    match a
    case Close => CloseExact(run, t, w);
    case Push(p) => PushExact(run, t, w, p);
    case Start => StartExact(run, t, w);
    case _ => QuietExact(run, t, w, a);
  }

  lemma OthersExact(run: Run, t: Token, w: Worker, a: Action, u: Worker)
    requires CanWork(run, t, w, a) && Exact(run, u) && !(Engaged(w) && Engaged(u))
    ensures Exact(Worked(run, t, w, a), u)
  {
    if Engaged(u) {
      DigestOfQuiet(run, t, w, a);
    }
  }

  lemma LedgerAct(v: View, t: Token, a: Action, r: RunId)
    requires LedgerInv(v) && CanMove(v, Acted(t, a)) && Metered(v, Acted(t, a))
    ensures LedgerInv(Moved(v, Acted(t, a), r))
  {
    ChainStep(v, Acted(t, a), r);
    WorkExact(v.run, t, v.crew[t], a);
    forall u | u in v.crew && u != t ensures Exact(Worked(v.run, t, v.crew[t], a), v.crew[u]) {
      OthersExact(v.run, t, v.crew[t], a, v.crew[u]);
    }
  }

  lemma LedgerStep(v: View, m: Move, r: RunId)
    requires LedgerInv(v) && CanMove(v, m) && Metered(v, m)
    ensures LedgerInv(Moved(v, m, r))
  {
    match m
    case Acted(t, a) => LedgerAct(v, t, a, r);
    case Told(c) =>
      ChainStep(v, m, r);
      CommandExact(v.run, c);
      forall t | t in v.crew ensures Exact(Commanded(v.run, c), v.crew[t]) {
        CommandExactFor(v.run, c, v.crew[t]);
      }
    case _ => ChainStep(v, m, r);
  }

  lemma LedgerInvariant(steps: seq<Step>, r: RunId)
    requires LegalUnder(EMPTY, steps, r, Metered)
    ensures Legal(EMPTY, steps) && HoldsOf(After(EMPTY, steps), r, LedgerInv)
  {
    assert Starts(LedgerInv) by {
      PlainEntry([], QueuedMark);
      assert [] + [QueuedMark] == [QueuedMark];
    }
    assert Keeps(LedgerInv, Metered) by {
      forall v, m, r | LedgerInv(v) && CanMove(v, m) && Metered(v, m) ensures LedgerInv(Moved(v, m, r)) {
        LedgerStep(v, m, r);
      }
    }
    Invariant(LedgerInv, Metered, EMPTY, steps, r);
  }

  /** Some reported total, or the number of calls or of failed calls, is beyond the budget. */
  predicate Overspent(entries: seq<Entry>, b: Budget) {
    || (exists e | e in entries :: ReportsTokens(e) && e.payload.tokensTotal.value > b.maxTokens)
    || Count(entries, IsCall) > b.maxToolCalls
    || Count(entries, IsFailedCall) > b.maxToolErrors
  }

  lemma OverspentIff(entries: seq<Entry>, b: Budget)
    requires NormalBudget(b)
    ensures Overspent(entries, b) <==> !WithinBudget(b, UsageOf(entries))
  {
    ChainUsageCounts(entries);
    if UsageOf(entries).tokens > b.maxTokens {
      var e :| e in entries && Reports(e, UsageOf(entries).tokens);
      assert ReportsTokens(e) && e.payload.tokensTotal.value > b.maxTokens;
    }
  }

  /** The next checkpoint is refused if and only if with it the logged chain of attempts would exceed the budget. */
  lemma RefusedIff(steps: seq<Step>, r: RunId, t: Token, p: Payload)
    requires LegalUnder(EMPTY, steps, r, Metered) && Legal(EMPTY, steps)
    requires var s := After(EMPTY, steps);
             s.InFlight(t) && s.workers[t].run == r && s.workers[t].phase.Guarded?
    ensures var s := After(EMPTY, steps);
            Refused(s.runs[r], t, s.workers[t], p) <==>
              Overspent(Chain(s.runs[r].log) + [Progress(t, p)], s.runs[r].budget)
  {
    LedgerInvariant(steps, r);
    var v := ViewOf(After(EMPTY, steps), r);
    var run, w := v.run, v.crew[t];
    assert LedgerInv(v) && Exact(run, w) && Fits(run, w);
    InitLast(Chain(run.log), Progress(t, p));
    OverspentIff(Chain(run.log) + [Progress(t, p)], run.budget);
    assert run.log + [Progress(t, p)] != run.log;
  }
}
