/**
  Cancellation over every interleaving. A cancel request only sets a flag; workers read the flag before
  an attempt and before closing one, and act on what they read in a later transaction. Once the flag is
  set, the only workers that can still start an attempt or close one as anything but canceled are those
  that had already read the flag as clear, and each of them can do so once.
 */
module Cancellation {
  import opened Common
  import opened RunPolicy
  import opened RunProtocol
  import opened RunView
  import opened Histories

  predicate IsStart(e: Entry) { e.Started? }

  /** The worker has read "not canceled" and has not yet acted on it. */
  predicate InWindow(w: Worker) { w.phase.Cleared? || (w.phase.Closing? && !w.phase.canceled) }

  function Window(v: View): set<Token> { set t | t in v.crew && InWindow(v.crew[t]) }

  function Attempts(run: Run): nat { Count(run.log, IsStart) }

  lemma CountTail(log: seq<Entry>, tail: seq<Entry>)
    requires forall e | e in tail :: !IsStart(e)
    ensures Count(log + tail, IsStart) == Count(log, IsStart)
  {
    FilterConcat(log, tail, IsStart);
    FilterNone(tail, IsStart);
  }

  lemma AttemptsOfCommand(run: Run, c: Command)
    ensures Attempts(Commanded(run, c)) == Attempts(run)
  {
    CommandsGrow(run, c);
    CountTail(run.log, Noted(run, c));
  }

  lemma CommandUnderCancel(run: Run, c: Command)
    requires run.cancelRequested && !c.Resume?
    ensures Commanded(run, c).cancelRequested
    ensures Commanded(run, c).status in {run.status, Canceled} || c == Recover(true)
    ensures c == Recover(true) ==> Commanded(run, c).status == Queued
  {
  }

  lemma NoStartAppended(t: Token, w: Worker, a: Action)
    requires !a.Start?
    ensures forall e | e in Appended(t, w, a) :: !IsStart(e)
  {
  }

  /** Only starting an attempt logs one. */
  lemma AttemptsOfWork(run: Run, t: Token, w: Worker, a: Action)
    requires CanWork(run, t, w, a)
    ensures Attempts(Worked(run, t, w, a)) == Attempts(run) + (if a.Start? then 1 else 0)
  {
    LogsGrow(run, t, w, a);
    if a.Start? {
      FilterSnoc(run.log, Started(w.attempt), IsStart);
    } else {
      NoStartAppended(t, w, a);
      CountTail(run.log, Appended(t, w, a));
    }
  }

  /** Acting under a set flag: a worker outside the window can only cancel, and nobody new enters it. */
  lemma WorkUnderCancel(run: Run, t: Token, w: Worker, a: Action)
    requires run.cancelRequested && CanWork(run, t, w, a)
    ensures var run', w' := Worked(run, t, w, a), Advanced(run, t, w, a);
            && run'.cancelRequested
            && (InWindow(w') ==> InWindow(w))
            && (a.Start? || run'.status !in {run.status, Canceled} ==> InWindow(w) && !InWindow(w'))
  {
  }

  lemma {:induction false} SubsetSize(a: set<Token>, b: set<Token>)
    requires a <= b
    ensures |a| <= |b|
    ensures a < b ==> |a| < |b|
  {
    assert b == a + (b - a);
  }

  lemma WindowShrinks(v: View, v': View, t: Token, w': Worker, ends: bool)
    requires t in v.crew && v'.crew == if ends then v.crew - {t} else v.crew[t := w']
    requires InWindow(w') ==> InWindow(v.crew[t])
    ensures Window(v') <= Window(v)
    ensures InWindow(v.crew[t]) && !InWindow(w') ==> Window(v') < Window(v) && |Window(v')| < |Window(v)|
    ensures |Window(v')| <= |Window(v)|
  {
    if InWindow(v.crew[t]) && !InWindow(w') {
      assert t in Window(v) && t !in Window(v');
    }
    SubsetSize(Window(v'), Window(v));
  }

  lemma MoveUnderCancel(v: View, m: Move, r: RunId)
    requires v.run.cancelRequested && CanMove(v, m) && m != Told(Resume)
    requires forall t | t in v.crew :: t < v.next
    ensures var v' := Moved(v, m, r);
            && v'.run.cancelRequested
            && Window(v') <= Window(v)
            && Attempts(v.run) <= Attempts(v'.run)
            && Attempts(v'.run) + |Window(v')| <= Attempts(v.run) + |Window(v)|
            && (v'.run.status in {v.run.status, Canceled} || m == Told(Recover(true)) || |Window(v')| < |Window(v)|)
  {
    match m
    case Told(c) =>
      CommandUnderCancel(v.run, c);
      AttemptsOfCommand(v.run, c);
      assert Window(Moved(v, m, r)) == Window(v);
    case Acted(t, a) =>
      WorkUnderCancel(v.run, t, v.crew[t], a);
      AttemptsOfWork(v.run, t, v.crew[t], a);
      WindowShrinks(v, Moved(v, m, r), t, Advanced(v.run, t, v.crew[t], a), Ends(a));
    case _ =>
      assert Window(Moved(v, m, r)) == Window(v);
  }

  ghost predicate NeverResumed(steps: seq<Step>, r: RunId) {
    forall i | 0 <= i < |steps| :: steps[i] != Order(r, Resume)
  }

  /**
    After a cancel request and until a resume: the flag stays set, and the attempts that start plus the
    workers left in the window never exceed the workers that were in the window when it was set.
   */
  lemma {:induction false} CancelBoundsAttempts(s: State, steps: seq<Step>, r: RunId)
    requires Sound(s) && Legal(s, steps) && r in s.runs && s.runs[r].cancelRequested && NeverResumed(steps, r)
    ensures r in After(s, steps).runs && After(s, steps).runs[r].cancelRequested
    ensures Window(ViewOf(After(s, steps), r)) <= Window(ViewOf(s, r))
    ensures Attempts(After(s, steps).runs[r]) + |Window(ViewOf(After(s, steps), r))|
         <= Attempts(s.runs[r]) + |Window(ViewOf(s, r))|
    decreases |steps|
  {
    if steps != [] {
      SoundStep(s, steps[0]);
      Projects(s, steps[0], r);
      MoveUnderCancel(ViewOf(s, r), MoveOf(s, steps[0], r), r);
      CancelBoundsAttempts(Apply(s, steps[0]), steps[1..], r);
    }
  }

  lemma MoveOutsideWindow(v: View, m: Move, r: RunId)
    requires v.run.cancelRequested && CanMove(v, m) && m != Told(Resume) && Window(v) == {}
    requires forall t | t in v.crew :: t < v.next
    ensures var v' := Moved(v, m, r);
            && v'.run.cancelRequested && Window(v') == {} && Attempts(v'.run) == Attempts(v.run)
            && v'.run.status in {v.run.status, Queued, Canceled}
  {
    MoveUnderCancel(v, m, r);
  }

  /**
    With nobody in the window when the flag is set, no attempt ever starts again, through retries, kill
    switches and crash recoveries, and the run never ends succeeded or failed: only canceled.
   */
  lemma {:induction false} CancelIsFinal(s: State, steps: seq<Step>, r: RunId)
    requires Sound(s) && Legal(s, steps) && r in s.runs && s.runs[r].cancelRequested && NeverResumed(steps, r)
    requires Window(ViewOf(s, r)) == {}
    ensures r in After(s, steps).runs
    ensures Attempts(After(s, steps).runs[r]) == Attempts(s.runs[r])
    ensures After(s, steps).runs[r].status in {s.runs[r].status, Queued, Canceled}
    decreases |steps|
  {
    if steps != [] {
      SoundStep(s, steps[0]);
      Projects(s, steps[0], r);
      MoveOutsideWindow(ViewOf(s, r), MoveOf(s, steps[0], r), r);
      CancelIsFinal(Apply(s, steps[0]), steps[1..], r);
    }
  }

  // ---- Exactly when a cancel can be overtaken ----

  /** The worker is about to start its attempt, having read the flag as clear. */
  predicate Ready(w: Worker) { w.phase.Cleared? }

  /** The outcome a worker holds is final: a success, a first budget breach or a failure it may not retry. */
  predicate FinalOutcome(w: Worker)
    requires w.phase.Closing?
  {
    match w.phase.outcome
    case Success(_) => true
    case Failure(error) =>
      if Overspends(error) then w.phase.breaches == 0
      else Transient(error) ==> w.attempt >= w.maxAttempts
  }

  /** Unless it has seen a cancel, a worker ends its run succeeded or failed exactly on a final outcome. */
  lemma FinalOutcomesEnd(w: Worker)
    requires w.phase.Closing?
    ensures Decide(w).status in {Succeeded, Failed} <==> !w.phase.canceled && FinalOutcome(w)
  {
  }

  /** The worker can still end the run as succeeded or failed on what it read before the flag was set. */
  predicate Overtaking(w: Worker) {
    Ready(w) || (w.phase.Closing? && !w.phase.canceled && FinalOutcome(w))
  }

  ghost predicate Nobody(v: View, p: Worker -> bool) { forall t | t in v.crew :: !p(v.crew[t]) }

  /** Under a set flag workers only leave these phases, and only from them do the forbidden writes come. */
  lemma WorkByOthers(run: Run, t: Token, w: Worker, a: Action)
    requires run.cancelRequested && CanWork(run, t, w, a)
    ensures Ready(Advanced(run, t, w, a)) ==> Ready(w)
    ensures Overtaking(Advanced(run, t, w, a)) ==> Overtaking(w)
    ensures a.Start? ==> Ready(w)
    ensures Worked(run, t, w, a).status in {Succeeded, Failed} && run.status !in {Succeeded, Failed} ==> Overtaking(w)
    ensures Worked(run, t, w, a).cancelRequested
  {
    if a.Close? {
      FinalOutcomesEnd(w);
    }
  }

  lemma MoveByOthers(v: View, m: Move, r: RunId)
    requires v.run.cancelRequested && CanMove(v, m) && m != Told(Resume)
    ensures var v' := Moved(v, m, r);
            && v'.run.cancelRequested
            && (Nobody(v, Ready) ==> Nobody(v', Ready) && Attempts(v'.run) == Attempts(v.run))
            && (Nobody(v, Overtaking) ==> Nobody(v', Overtaking))
            && (Nobody(v, Overtaking) && v.run.status !in {Succeeded, Failed} ==> v'.run.status !in {Succeeded, Failed})
  {
    match m
    case Told(c) =>
      CommandUnderCancel(v.run, c);
      AttemptsOfCommand(v.run, c);
    case Acted(t, a) =>
      WorkByOthers(v.run, t, v.crew[t], a);
      AttemptsOfWork(v.run, t, v.crew[t], a);
    case _ =>
  }

  lemma {:induction false} WithoutOvertakers(s: State, steps: seq<Step>, r: RunId)
    requires Sound(s) && Legal(s, steps) && r in s.runs && s.runs[r].cancelRequested && NeverResumed(steps, r)
    ensures r in After(s, steps).runs
    ensures Nobody(ViewOf(s, r), Ready) ==> Attempts(After(s, steps).runs[r]) == Attempts(s.runs[r])
    ensures Nobody(ViewOf(s, r), Overtaking) && s.runs[r].status !in {Succeeded, Failed} ==>
              After(s, steps).runs[r].status !in {Succeeded, Failed}
    decreases |steps|
  {
    if steps != [] {
      SoundStep(s, steps[0]);
      Projects(s, steps[0], r);
      MoveByOthers(ViewOf(s, r), MoveOf(s, steps[0], r), r);
      WithoutOvertakers(Apply(s, steps[0]), steps[1..], r);
    }
  }

  ghost predicate StartsLater(s: State, steps: seq<Step>, r: RunId, resumed: bool)
    requires r in s.runs
  {
    && Legal(s, steps) && (resumed <==> !NeverResumed(steps, r))
    && r in After(s, steps).runs && Attempts(After(s, steps).runs[r]) > Attempts(s.runs[r])
  }

  /** Once resumed, a run can be started again, whatever its state and its lease. */
  lemma ResumeStartsAgain(s: State, r: RunId) returns (steps: seq<Step>)
    requires r in s.runs
    ensures StartsLater(s, steps, r, true)
  {
    var run, t, s' := s.runs[r], s.nextToken, s;
    var now := if run.lease.Some? then run.lease.value.expires else 0;
    steps, s' := Proceed(s, [], s, Order(r, Resume));
    AttemptsOfCommand(run, Resume);
    steps, s' := Proceed(s, steps, s', Claim(r, "", now, now));
    steps, s' := Proceed(s, steps, s', Work(t, CheckCancel));
    AttemptsOfWork(s'.runs[r], t, s'.workers[t], Start);
    steps, s' := Proceed(s, steps, s', Work(t, Start));
    assert steps[0] == Order(r, Resume);
  }

  /**
    An attempt can start after the cancel if and only if a worker had read the flag as clear before it, or
    the run is resumed.
   */
  lemma AttemptStartsIff(s: State, r: RunId, resumed: bool)
    requires Sound(s) && r in s.runs && s.runs[r].cancelRequested
    ensures (exists steps :: StartsLater(s, steps, r, resumed)) <==> resumed || !Nobody(ViewOf(s, r), Ready)
  {
    if resumed {
      var steps := ResumeStartsAgain(s, r);
    } else {
      if steps :| StartsLater(s, steps, r, false) {
        WithoutOvertakers(s, steps, r);
      }
      if !Nobody(ViewOf(s, r), Ready) {
        var t :| t in ViewOf(s, r).crew && Ready(s.workers[t]);
        AttemptsOfWork(s.runs[r], t, s.workers[t], Start);
        assert StartsLater(s, OneStep(s, Work(t, Start)), r, false);
      }
    }
  }

  ghost predicate EndsUncanceled(s: State, steps: seq<Step>, r: RunId) {
    && Legal(s, steps) && NeverResumed(steps, r)
    && r in After(s, steps).runs && After(s, steps).runs[r].status in {Succeeded, Failed}
  }

  /** A canceled run can still end succeeded or failed if and only if an overtaking worker is in flight. */
  lemma UncanceledEndIff(s: State, r: RunId)
    requires Sound(s) && r in s.runs && s.runs[r].cancelRequested && s.runs[r].status !in {Succeeded, Failed}
    ensures (exists steps :: EndsUncanceled(s, steps, r)) <==> !Nobody(ViewOf(s, r), Overtaking)
  {
    if steps :| EndsUncanceled(s, steps, r) {
      WithoutOvertakers(s, steps, r);
    }
    if !Nobody(ViewOf(s, r), Overtaking) {
      var t :| t in ViewOf(s, r).crew && Overtaking(s.workers[t]);
      if s.workers[t].phase.Closing? {
        FinalOutcomesEnd(s.workers[t]);
      }
      var a := if Ready(s.workers[t]) then FailBeforeStart("agent_not_found") else Close;
      assert EndsUncanceled(s, OneStep(s, Work(t, a)), r);
    }
  }

  /** The window is real: a run canceled while its worker is closing can still end succeeded. */
  lemma CancelCanBeOvertaken(budget: Budget) returns (steps: seq<Step>)
    requires NormalBudget(budget)
    ensures Legal(EMPTY, steps) && "r" in After(EMPTY, steps).runs
    ensures After(EMPTY, steps).runs["r"].cancelRequested && After(EMPTY, steps).runs["r"].status == Succeeded
  {
    var s: State;
    steps, s := GuardedHistory(budget);
    steps, s := Extend(steps, s, Work(0, ReadLatest(Success(None))));
    steps, s := Extend(steps, s, Order("r", Cancel(false)));
    steps, s := Extend(steps, s, Work(0, Close));
  }
}
