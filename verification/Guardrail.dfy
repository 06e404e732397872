/**
  The budget guardrail without any assumption about scheduling. A closing worker counts the breaches it
  read earlier, so the guardrail depends on nothing but whether that count is still right as to the first.
 */
module Guardrail {
  import opened Common
  import opened RunPolicy
  import opened RunProtocol
  import opened RunView
  import opened Histories
  import opened RunChains

  /** The worker has seen a breach exactly when there is one. */
  predicate UpToDate(run: Run, w: Worker) {
    w.phase.Closing? ==> (w.phase.breaches == 0 <==> CountBreaches(run.log) == 0)
  }

  predicate FreshClose(v: View, m: Move) {
    m.Acted? && m.action.Close? && m.t in v.crew ==> UpToDate(v.run, v.crew[m.t])
  }

  /** The worker closes its attempt as a budget breach. */
  predicate Breaching(w: Worker) {
    w.phase.Closing? && !w.phase.canceled && w.phase.outcome.Failure? && Overspends(w.phase.outcome.error)
  }

  lemma BreachesOfTail(log: seq<Entry>, tail: seq<Entry>)
    requires forall e | e in tail :: !Breach(e)
    ensures Breaches(log + tail) == Breaches(log)
  {
    FilterConcat(log, tail, Breach);
    FilterNone(tail, Breach);
  }

  lemma BreachingVerdict(w: Worker)
    requires Breaching(w)
    ensures var es := Decide(w).entries;
            && |es| == 3 && !Breach(es[0]) && !Breach(es[2])
            && es[1] == if w.phase.breaches == 0 then Paused else Escalated
  {
  }

  lemma OtherVerdict(w: Worker)
    requires w.phase.Closing? && !Breaching(w)
    ensures forall e | e in Decide(w).entries :: !Breach(e)
  {
  }

  /** A worker goes on to the kill switch of its scope exactly when its breach is not the first it knows of. */
  lemma EscalatesIff(run: Run, t: Token, w: Worker)
    requires CanWork(run, t, w, Close)
    ensures Advanced(run, t, w, Close).phase.ScopeKilling? <==> Breaching(w) && w.phase.breaches > 0
    ensures Advanced(run, t, w, Close).phase.ScopeKilling? ==> Worked(run, t, w, Close).status == Canceled
  {
  }

  /** A breach logs one pause or one escalation, by what the worker had read. */
  lemma BreachesOfClose(run: Run, w: Worker)
    requires w.phase.Closing?
    ensures Breaches(ClosedRow(run, Decide(w)).log)
         == Breaches(run.log)
            + if Breaching(w) then [if w.phase.breaches == 0 then Paused else Escalated] else []
  {
    var es := Decide(w).entries;
    if Breaching(w) {
      BreachingVerdict(w);
      assert es == [es[0]] + [es[1]] + [es[2]];
      assert run.log + es == run.log + [es[0]] + [es[1]] + [es[2]];
      FilterSnoc(run.log, es[0], Breach);
      FilterSnoc(run.log + [es[0]], es[1], Breach);
      FilterSnoc(run.log + [es[0]] + [es[1]], es[2], Breach);
    } else {
      OtherVerdict(w);
      BreachesOfTail(run.log, es);
    }
  }

  /** Closing with a breach keeps the guardrail if and only if the worker's count was up to date. */
  lemma BreachKeepsGuardrailIff(run: Run, w: Worker)
    requires Breaching(w) && PausedThenEscalated(Breaches(run.log))
    ensures PausedThenEscalated(Breaches(ClosedRow(run, Decide(w)).log)) <==> UpToDate(run, w)
  {
    BreachesOfClose(run, w);
    var after := Breaches(ClosedRow(run, Decide(w)).log);
    assert after[|Breaches(run.log)|] == if w.phase.breaches == 0 then Paused else Escalated;
  }

  ghost predicate GuardInv(v: View) { PausedThenEscalated(Breaches(v.run.log)) }

  lemma GuardStep(v: View, m: Move, r: RunId)
    requires GuardInv(v) && CanMove(v, m) && FreshClose(v, m)
    ensures GuardInv(Moved(v, m, r))
  {
    match m
    case Told(c) =>
      CommandsGrow(v.run, c);
      BreachesOfTail(v.run.log, Noted(v.run, c));
    case Acted(t, a) =>
      var w := v.crew[t];
      LogsGrow(v.run, t, w, a);
      if a.Close? {
        BreachesOfClose(v.run, w);
      } else {
        BreachesOfTail(v.run.log, Appended(t, w, a));
      }
    case _ =>
  }

  /** In every interleaving whose closes are up to date, a run pauses once, first, and then only escalates. */
  lemma GuardrailHolds(steps: seq<Step>, r: RunId)
    requires LegalUnder(EMPTY, steps, r, FreshClose)
    ensures Legal(EMPTY, steps)
    ensures r in After(EMPTY, steps).runs ==> PausesOnceThenEscalates(After(EMPTY, steps).runs[r].log)
  {
    assert Starts(GuardInv) by {
      BreachesOfTail([], [QueuedMark]);
      assert [] + [QueuedMark] == [QueuedMark];
    }
    assert Keeps(GuardInv, FreshClose) by {
      forall v, m, r | GuardInv(v) && CanMove(v, m) && FreshClose(v, m) ensures GuardInv(Moved(v, m, r)) {
        GuardStep(v, m, r);
      }
    }
    Invariant(GuardInv, FreshClose, EMPTY, steps, r);
    if r in After(EMPTY, steps).runs {
      assert GuardInv(ViewOf(After(EMPTY, steps), r));
      BreachesInPlace(After(EMPTY, steps).runs[r].log);
    }
  }

  /** Two overlapping attempts of one run, both about to close as breaches and unaware of each other. */
  lemma BothBreaching(budget: Budget) returns (steps: seq<Step>, s: State)
    requires NormalBudget(budget)
    ensures Legal(EMPTY, steps) && s == After(EMPTY, steps)
    ensures s.runs.Keys == {"r"} && s.workers.Keys == {0, 1} && Breaches(s.runs["r"].log) == []
    ensures s.workers[0].run == "r" && Breaching(s.workers[0]) && s.workers[0].phase.breaches == 0
    ensures s.workers[1].run == "r" && Breaching(s.workers[1]) && s.workers[1].phase.breaches == 0
  {
    steps, s := TwoGuarded(budget);
    BreachesOfTail([], [QueuedMark, Started(1), Started(2)]);
    assert [] + [QueuedMark, Started(1), Started(2)] == s.runs["r"].log;
    steps, s := Extend(steps, s, Work(0, ReadLatest(Failure(BudgetError))));
    steps, s := Extend(steps, s, Work(1, ReadLatest(Failure(BudgetError))));
  }

  /** Overlapping attempts that both read before either closes do pause a run twice. */
  lemma TwoPausesReachable(budget: Budget) returns (steps: seq<Step>)
    requires NormalBudget(budget)
    ensures Legal(EMPTY, steps) && "r" in After(EMPTY, steps).runs
    ensures Breaches(After(EMPTY, steps).runs["r"].log) == [Paused, Paused]
  {
    var s: State;
    steps, s := BothBreaching(budget);
    BreachesOfClose(s.runs["r"], s.workers[0]);
    steps, s := Extend(steps, s, Work(0, Close));
    BreachesOfClose(s.runs["r"], s.workers[1]);
    steps, s := Extend(steps, s, Work(1, Close));
  }
}
