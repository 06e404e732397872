/**
  Guarantees that need no assumption about scheduling: they hold in every interleaving, including
  overlapping claims of one run and resumes under a running worker.
 */
module AnyHistory {
  import opened Common
  import opened RunPolicy
  import opened RunProtocol
  import opened RunView

  // ---- Retries ----

  predicate Retryable(failureClass: string) { TransientClass(failureClass) || failureClass == "lease_lost" }

  /** Every scheduled retry directly follows the transient error that caused it. */
  predicate RetriesAreEarned(log: seq<Entry>) {
    forall i | 0 <= i < |log| && log[i].RetryMark? ::
      0 < i && log[i - 1].ErrorMark? && Retryable(log[i - 1].failureClass)
  }

  lemma EarnedConcat(a: seq<Entry>, b: seq<Entry>)
    requires RetriesAreEarned(a) && RetriesAreEarned(b)
    ensures RetriesAreEarned(a + b)
  {
    forall i | 0 <= i < |a + b| && (a + b)[i].RetryMark?
      ensures 0 < i && (a + b)[i - 1].ErrorMark?
              && Retryable((a + b)[i - 1].failureClass)
    {
      if |a| <= i {
        assert b[i - |a|].RetryMark?;
      }
    }
  }

  lemma VerdictEarnsRetry(w: Worker)
    requires w.phase.Closing?
    ensures RetriesAreEarned(Decide(w).entries)
  {
  }

  ghost predicate RetryInv(v: View) { RetriesAreEarned(v.run.log) }

  lemma RetryStep(v: View, m: Move, r: RunId)
    requires RetryInv(v) && CanMove(v, m)
    ensures RetryInv(Moved(v, m, r))
  {
    match m
    case Told(c) =>
      CommandsGrow(v.run, c);
      EarnedConcat(v.run.log, Noted(v.run, c));
    case Acted(t, a) =>
      var w := v.crew[t];
      LogsGrow(v.run, t, w, a);
      if a.Close? {
        VerdictEarnsRetry(w);
      }
      EarnedConcat(v.run.log, Appended(t, w, a));
    case _ =>
  }

  /** No budget breach, guardrail rejection or invalid call is ever retried: only transient classes and lost leases. */
  lemma OnlyTransientFailuresRetry(steps: seq<Step>, r: RunId)
    requires Legal(EMPTY, steps) && r in After(EMPTY, steps).runs
    ensures RetriesAreEarned(After(EMPTY, steps).runs[r].log)
  {
    LegalIsUnrestricted(EMPTY, steps, r);
    assert Keeps(RetryInv, Anything) by {
      forall v, m, r | RetryInv(v) && CanMove(v, m) ensures RetryInv(Moved(v, m, r)) {
        RetryStep(v, m, r);
      }
    }
    Invariant(RetryInv, Anything, EMPTY, steps, r);
    assert RetryInv(ViewOf(After(EMPTY, steps), r));
  }

  // ---- The budget of one claim ----

  /** Usage recorded by the progress checkpoints of claim `t`. */
  function UsageBy(log: seq<Entry>, t: Token): Usage {
    if log == [] then NO_USAGE
    else if Last(log).Progress? && Last(log).token == t then MergeUsage(UsageBy(Init(log), t), Last(log).payload)
    else UsageBy(Init(log), t)
  }

  lemma {:induction false} UsageByTail(log: seq<Entry>, tail: seq<Entry>, t: Token)
    requires forall e | e in tail :: !(e.Progress? && e.token == t)
    ensures UsageBy(log + tail, t) == UsageBy(log, t)
  {
    if tail == [] {
      assert log + tail == log;
    } else {
      assert Last(tail) in tail;
      assert Init(log + tail) == log + Init(tail) && Last(log + tail) == Last(tail);
      UsageByTail(log, Init(tail), t);
    }
  }

  predicate Counts(run: Run, t: Token, w: Worker) {
    && w.budget == run.budget
    && (if Waiting(w.phase) then UsageBy(run.log, t) == NO_USAGE else Below(UsageBy(run.log, t), w.live))
  }

  ghost predicate ClaimInv(v: View) {
    && NormalBudget(v.run.budget)
    && (forall t | t in v.crew :: t < v.next && Counts(v.run, t, v.crew[t]))
    && (forall t: Token | v.next <= t :: UsageBy(v.run.log, t) == NO_USAGE)
    && (forall t: Token :: WithinBudget(v.run.budget, UsageBy(v.run.log, t)))
  }

  /** A push is recorded against its own claim, and only while within the budget. */
  lemma UsageOfPush(run: Run, t: Token, w: Worker, p: Payload)
    requires w.phase.Guarded? && Counts(run, t, w) && NormalBudget(run.budget)
    requires WithinBudget(run.budget, UsageBy(run.log, t))
    ensures WithinBudget(run.budget, UsageBy(Worked(run, t, w, Push(p)).log, t))
    ensures Counts(Worked(run, t, w, Push(p)), t, Advanced(run, t, w, Push(p)))
  {
    InitLast(run.log, Progress(t, p));
  }

  /** Everything else leaves the recorded usage of every claim alone. */
  lemma UsageElsewhere(run: Run, t: Token, w: Worker, a: Action, u: Token)
    requires CanWork(run, t, w, a) && (u != t || !a.Push?)
    ensures UsageBy(Worked(run, t, w, a).log, u) == UsageBy(run.log, u)
  {
    LogsGrow(run, t, w, a);
    UsageByTail(run.log, Appended(t, w, a), u);
  }

  lemma UsageOfWork(run: Run, t: Token, w: Worker, a: Action)
    requires CanWork(run, t, w, a) && Counts(run, t, w)
    requires NormalBudget(run.budget) && WithinBudget(run.budget, UsageBy(run.log, t))
    ensures WithinBudget(run.budget, UsageBy(Worked(run, t, w, a).log, t))
    ensures Worked(run, t, w, a).budget == run.budget
    ensures Counts(Worked(run, t, w, a), t, Advanced(run, t, w, a))
  {
    if a.Push? {
      UsageOfPush(run, t, w, a.payload);
    } else {
      UsageElsewhere(run, t, w, a, t);
    }
  }

  lemma ClaimKept(v: View, v': View, t: Token)
    requires ClaimInv(v) && t in v.crew && v'.next == v.next && v'.run.budget == v.run.budget
    requires v'.crew.Keys <= v.crew.Keys && forall u | u in v'.crew && u != t :: v'.crew[u] == v.crew[u]
    requires t in v'.crew ==> Counts(v'.run, t, v'.crew[t])
    requires forall u: Token ::
               && WithinBudget(v.run.budget, UsageBy(v'.run.log, u))
               && (u != t ==> UsageBy(v'.run.log, u) == UsageBy(v.run.log, u))
    ensures ClaimInv(v')
  {
  }

  lemma ClaimWork(v: View, t: Token, a: Action, r: RunId)
    requires ClaimInv(v) && CanMove(v, Acted(t, a))
    ensures ClaimInv(Moved(v, Acted(t, a), r))
  {
    var w, run' := v.crew[t], Worked(v.run, t, v.crew[t], a);
    forall u: Token | u != t ensures UsageBy(run'.log, u) == UsageBy(v.run.log, u) {
      UsageElsewhere(v.run, t, w, a, u);
    }
    UsageOfWork(v.run, t, w, a);
    ClaimKept(v, Moved(v, Acted(t, a), r), t);
  }

  lemma ClaimStep(v: View, m: Move, r: RunId)
    requires ClaimInv(v) && CanMove(v, m)
    ensures ClaimInv(Moved(v, m, r))
  {
    match m
    case Told(c) =>
      CommandsGrow(v.run, c);
      forall t: Token ensures UsageBy(v.run.log + Noted(v.run, c), t) == UsageBy(v.run.log, t) {
        UsageByTail(v.run.log, Noted(v.run, c), t);
      }
    case Acted(t, a) => ClaimWork(v, t, a, r);
    case _ =>
  }

  /** Whatever else happens to the run, no single claim persists more usage than the budget allows. */
  lemma EveryClaimWithinBudget(steps: seq<Step>, r: RunId, t: Token)
    requires Legal(EMPTY, steps) && r in After(EMPTY, steps).runs
    ensures WithinBudget(After(EMPTY, steps).runs[r].budget, UsageBy(After(EMPTY, steps).runs[r].log, t))
  {
    LegalIsUnrestricted(EMPTY, steps, r);
    assert Starts(ClaimInv) by {
      assert Init([QueuedMark]) == [];
      assert forall u: Token :: UsageBy([QueuedMark], u) == NO_USAGE;
    }
    assert Keeps(ClaimInv, Anything) by {
      forall v, m, r | ClaimInv(v) && CanMove(v, m) ensures ClaimInv(Moved(v, m, r)) {
        ClaimStep(v, m, r);
      }
    }
    Invariant(ClaimInv, Anything, EMPTY, steps, r);
    assert ClaimInv(ViewOf(After(EMPTY, steps), r));
  }
}
