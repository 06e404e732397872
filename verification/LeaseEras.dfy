/**
  What leases guarantee about the checkpoint log of one run. The lease guard and the append it
  protects are two database calls, so a worker can lose its lease between them: the theorems bound
  that window exactly and show that nothing else ever gets past a revoked lease.
 */
module LeaseEras {
  import opened Common
  import opened RunProtocol
  import opened RunView
  import opened Histories

  /** The claim tokens under which the progress checkpoints of a log were written, in order. */
  function Eras(log: seq<Entry>): seq<Token> {
    if log == [] then []
    else Eras(Init(log)) + (if Last(log).Progress? then [Last(log).token] else [])
  }

  lemma ErasLogged(log: seq<Entry>, e: Entry)
    ensures Eras(log + [e]) == Eras(log) + (if e.Progress? then [e.token] else [])
  {
    InitLast(log, e);
  }

  /** Appending bookkeeping entries adds no era. */
  lemma {:induction false} ErasSuffix(log: seq<Entry>, log': seq<Entry>)
    requires |log| <= |log'| && log'[..|log|] == log
    requires forall i | |log| <= i < |log'| :: !log'[i].Progress?
    ensures Eras(log') == Eras(log)
    decreases |log'|
  {
    if |log| < |log'| {
      assert Init(log')[..|log|] == log;
      ErasSuffix(log, Init(log'));
    } else {
      assert log' == log;
    }
  }

  lemma ErasOfCommand(run: Run, c: Command)
    ensures Eras(Commanded(run, c).log) == Eras(run.log)
  {
    CommandsGrow(run, c);
    assert (run.log + Noted(run, c))[..|run.log|] == run.log;
    ErasSuffix(run.log, run.log + Noted(run, c));
  }

  /** Only a push by a guarded worker adds to the eras of a run, and then its own token. */
  lemma ErasOfWork(run: Run, t: Token, w: Worker, a: Action)
    requires CanWork(run, t, w, a)
    ensures Eras(Worked(run, t, w, a).log)
         == Eras(run.log) + (if a.Push? && WithinBudget(w.budget, MergeUsage(w.live, a.payload)) then [t] else [])
  {
    LogsGrow(run, t, w, a);
    if a.Push? && Appended(t, w, a) != [] {
      ErasLogged(run.log, Progress(t, a.payload));
    } else {
      assert (run.log + Appended(t, w, a))[..|run.log|] == run.log;
      ErasSuffix(run.log, run.log + Appended(t, w, a));
    }
  }

  ghost predicate Holds(run: Run, t: Token) { run.lease.Some? && run.lease.value.token == t }

  ghost predicate IsGuarded(v: View, t: Token) { t in v.crew && v.crew[t].phase.Guarded? }

  /** The lease is the newest claim: no worker or checkpoint of the run has a later token. */
  ghost predicate Newest(v: View) {
    var eras := Eras(v.run.log);
    && (forall t | t in v.crew :: t < v.next)
    && (forall k | 0 <= k < |eras| :: eras[k] < v.next)
    && (v.run.lease.Some? ==>
          var top := v.run.lease.value.token;
          && top < v.next
          && (forall t | t in v.crew :: t <= top)
          && (forall k | 0 <= k < |eras| :: eras[k] <= top))
  }

  ghost predicate Late(eras: seq<Token>, i: int, j: int) { 0 <= i < j < |eras| && eras[j] < eras[i] }

  /** A token that wrote after a newer one is not guarded, and that write was its last. */
  ghost predicate LateIsLast(v: View) {
    var eras := Eras(v.run.log);
    forall i, j | Late(eras, i, j) ::
      !IsGuarded(v, eras[j]) && forall k | j < k < |eras| :: eras[k] != eras[j]
  }

  ghost predicate EraInv(v: View) { Newest(v) && LateIsLast(v) }

  /** The lease is gone or still the same claim's. */
  predicate SameClaim(run: Run, run': Run) {
    run'.lease.Some? ==> run.lease.Some? && run'.lease.value.token == run.lease.value.token
  }

  lemma CommandsKeepClaim(run: Run, c: Command)
    ensures SameClaim(run, Commanded(run, c))
  {
  }

  lemma WorkKeepsClaim(run: Run, t: Token, w: Worker, a: Action)
    requires CanWork(run, t, w, a)
    ensures SameClaim(run, Worked(run, t, w, a))
  {
  }

  /** Tokens only come in through claims, so they stay below the newest one. */
  lemma NewestKept(v: View, v': View, t: Token)
    requires Newest(v) && v'.next == v.next && v'.crew.Keys <= v.crew.Keys && SameClaim(v.run, v'.run)
    requires Eras(v'.run.log) == Eras(v.run.log) || (t in v.crew && Eras(v'.run.log) == Eras(v.run.log) + [t])
    ensures Newest(v')
  {
  }

  lemma NewestStep(v: View, m: Move, r: RunId)
    requires Newest(v) && CanMove(v, m)
    ensures Newest(Moved(v, m, r))
  {
    match m
    case Told(c) =>
      ErasOfCommand(v.run, c);
      CommandsKeepClaim(v.run, c);
      NewestKept(v, Moved(v, m, r), 0);
    case Acted(t, a) =>
      ErasOfWork(v.run, t, v.crew[t], a);
      WorkKeepsClaim(v.run, t, v.crew[t], a);
      NewestKept(v, Moved(v, m, r), t);
    case _ =>
  }

  /** A late token is not the lease's, so it cannot pass the guard again. */
  lemma LateWork(v: View, t: Token, a: Action, v': View)
    requires EraInv(v) && CanMove(v, Acted(t, a))
    requires v'.crew == if Ends(a) then v.crew - {t} else v.crew[t := Advanced(v.run, t, v.crew[t], a)]
    requires Eras(v'.run.log) == Eras(v.run.log)
          || (a.Push? && Eras(v'.run.log) == Eras(v.run.log) + [t])
    ensures LateIsLast(v')
  {
    var eras, eras' := Eras(v.run.log), Eras(v'.run.log);
    forall i, j | Late(eras', i, j)
      ensures !IsGuarded(v', eras'[j]) && forall k | j < k < |eras'| :: eras'[k] != eras'[j]
    {
      if j < |eras| {
        assert Late(eras, i, j) && !IsGuarded(v, eras[j]);
        assert a.Push? ==> eras[j] != t;
        assert a.Guard? ==> eras[i] <= t && eras[j] != t;
      }
    }
  }

  lemma LateStep(v: View, m: Move, r: RunId)
    requires EraInv(v) && CanMove(v, m)
    ensures LateIsLast(Moved(v, m, r))
  {
    match m
    case Told(c) => ErasOfCommand(v.run, c);
    case Acted(t, a) =>
      ErasOfWork(v.run, t, v.crew[t], a);
      LateWork(v, t, a, Moved(v, m, r));
    case _ =>
  }

  lemma EraStep(v: View, m: Move, r: RunId)
    requires EraInv(v) && CanMove(v, m)
    ensures EraInv(Moved(v, m, r))
  {
    NewestStep(v, m, r);
    LateStep(v, m, r);
  }

  lemma EraInvariant(steps: seq<Step>, r: RunId)
    requires Legal(EMPTY, steps)
    ensures HoldsOf(After(EMPTY, steps), r, EraInv)
  {
    LegalIsUnrestricted(EMPTY, steps, r);
    assert Starts(EraInv) by {
      assert Init([QueuedMark]) == [];
    }
    assert Keeps(EraInv, Anything) by {
      forall v, m, r | EraInv(v) && CanMove(v, m) ensures EraInv(Moved(v, m, r)) {
        EraStep(v, m, r);
      }
    }
    Invariant(EraInv, Anything, EMPTY, steps, r);
  }

  /**
    Lease eras, in every interleaving and under any clocks: once a token writes progress after a newer
    token did, it never writes again. So the log of a run is sorted by claim except for at most one
    straggler per claim, the append whose guard had passed when the lease was lost.
   */
  lemma LeaseErasHold(steps: seq<Step>, r: RunId, i: int, j: int, k: int)
    requires Legal(EMPTY, steps) && r in After(EMPTY, steps).runs
    requires var eras := Eras(After(EMPTY, steps).runs[r].log); 0 <= i < j < k < |eras|
    ensures var eras := Eras(After(EMPTY, steps).runs[r].log); eras[j] < eras[i] ==> eras[k] != eras[j]
  {
    EraInvariant(steps, r);
    var v := ViewOf(After(EMPTY, steps), r);
    assert EraInv(v) && (Late(Eras(v.run.log), i, j) ==> !IsGuarded(v, Eras(v.run.log)[j]));
  }

  // ---- A revoked worker ----

  /** The worker has passed its guard and its usage is within the budget, so its next append goes through. */
  predicate CanAppend(w: Worker) { w.phase.Guarded? && WithinBudget(w.budget, w.live) }

  ghost predicate IsPending(v: View, t: Token) { t in v.crew && CanAppend(v.crew[t]) }

  /** Progress checkpoints of token `t`, plus the one it may still be about to append. */
  ghost function WrittenOrPending(v: View, t: Token): nat {
    multiset(Eras(v.run.log))[t] + (if IsPending(v, t) then 1 else 0)
  }

  lemma PotentialFalls(v: View, v': View, u: Token, w': Worker, ends: bool, t: Token)
    requires u in v.crew && v'.crew == if ends then v.crew - {u} else v.crew[u := w']
    requires u == t ==> !CanAppend(w')
    requires multiset(Eras(v'.run.log))[t]
          <= multiset(Eras(v.run.log))[t] + (if u == t && CanAppend(v.crew[u]) then 1 else 0)
    ensures WrittenOrPending(v', t) <= WrittenOrPending(v, t)
  {
  }

  lemma RevokedCommand(run: Run, c: Command, t: Token)
    requires !Holds(run, t)
    ensures !Holds(Commanded(run, c), t) && Eras(Commanded(run, c).log) == Eras(run.log)
  {
    ErasOfCommand(run, c);
  }

  lemma RevokedWork(run: Run, u: Token, w: Worker, a: Action, t: Token)
    requires CanWork(run, u, w, a) && !Holds(run, t)
    ensures !Holds(Worked(run, u, w, a), t)
    ensures multiset(Eras(Worked(run, u, w, a).log))[t]
         <= multiset(Eras(run.log))[t] + (if u == t && CanAppend(w) then 1 else 0)
    ensures u == t ==> !CanAppend(Advanced(run, u, w, a))
  {
    ErasOfWork(run, u, w, a);
  }

  lemma RevokedMove(v: View, m: Move, r: RunId, t: Token)
    requires CanMove(v, m) && t < v.next && !Holds(v.run, t)
    ensures var v' := Moved(v, m, r);
            t < v'.next && !Holds(v'.run, t) && WrittenOrPending(v', t) <= WrittenOrPending(v, t)
  {
    match m
    case Told(c) => RevokedCommand(v.run, c, t);
    case Acted(u, a) =>
      var w' := Advanced(v.run, u, v.crew[u], a);
      RevokedWork(v.run, u, v.crew[u], a, t);
      PotentialFalls(v, Moved(v, m, r), u, w', Ends(a), t);
    case _ =>
  }

  lemma {:induction false} RevokedPotential(s: State, steps: seq<Step>, r: RunId, t: Token)
    requires Sound(s) && Legal(s, steps) && r in s.runs && t < s.nextToken && !Holds(s.runs[r], t)
    ensures r in After(s, steps).runs && !Holds(After(s, steps).runs[r], t)
    ensures WrittenOrPending(ViewOf(After(s, steps), r), t) <= WrittenOrPending(ViewOf(s, r), t)
    decreases |steps|
  {
    if steps != [] {
      SoundStep(s, steps[0]);
      Projects(s, steps[0], r);
      RevokedMove(ViewOf(s, r), MoveOf(s, steps[0], r), r, t);
      RevokedPotential(Apply(s, steps[0]), steps[1..], r, t);
    }
  }

  /**
    A claim whose lease was revoked or replaced never holds the run again, whatever the other actors
    do, and adds at most one progress checkpoint: none at all unless it had already passed its guard.
   */
  lemma RevokedWritesAtMostOnce(s: State, steps: seq<Step>, r: RunId, t: Token)
    requires Sound(s) && Legal(s, steps) && r in s.runs && t < s.nextToken && !Holds(s.runs[r], t)
    ensures r in After(s, steps).runs && !Holds(After(s, steps).runs[r], t)
    ensures multiset(Eras(After(s, steps).runs[r].log))[t]
         <= multiset(Eras(s.runs[r].log))[t] + (if IsPending(ViewOf(s, r), t) then 1 else 0)
  {
    RevokedPotential(s, steps, r, t);
  }

  /** A payload without usage. */
  const PLAIN := Payload(None, false, false, true, "")

  ghost predicate WritesLater(s: State, steps: seq<Step>, r: RunId, t: Token)
    requires r in s.runs
  {
    && Legal(s, steps) && r in After(s, steps).runs
    && multiset(Eras(After(s, steps).runs[r].log))[t] > multiset(Eras(s.runs[r].log))[t]
  }

  /** A revoked claim can still write progress if and only if its worker is past the guard and within budget. */
  lemma RevokedWritesIff(s: State, r: RunId, t: Token)
    requires Sound(s) && r in s.runs && t < s.nextToken && !Holds(s.runs[r], t)
    ensures (exists steps :: WritesLater(s, steps, r, t)) <==> IsPending(ViewOf(s, r), t)
  {
    if steps :| WritesLater(s, steps, r, t) {
      RevokedWritesAtMostOnce(s, steps, r, t);
    }
    if IsPending(ViewOf(s, r), t) {
      ErasOfWork(s.runs[r], t, s.workers[t], Push(PLAIN));
      assert WritesLater(s, OneStep(s, Work(t, Push(PLAIN))), r, t);
    }
  }

  // ---- When the eras are sorted ----

  /** No lease is lost between a guard and the append it protects. */
  ghost predicate Timely(v: View, m: Move) {
    m.Acted? && m.action.Push? ==> Holds(v.run, m.t)
  }

  ghost predicate Ascending(eras: seq<Token>) { forall i, j | 0 <= i < j < |eras| :: eras[i] <= eras[j] }

  ghost predicate SortedInv(v: View) { Newest(v) && Ascending(Eras(v.run.log)) }

  lemma AscendingKept(v: View, v': View, t: Token)
    requires SortedInv(v)
    requires Eras(v'.run.log) == Eras(v.run.log) || (Holds(v.run, t) && Eras(v'.run.log) == Eras(v.run.log) + [t])
    ensures Ascending(Eras(v'.run.log))
  {
  }

  lemma SortedStep(v: View, m: Move, r: RunId)
    requires SortedInv(v) && CanMove(v, m) && Timely(v, m)
    ensures SortedInv(Moved(v, m, r))
  {
    NewestStep(v, m, r);
    match m
    case Told(c) =>
      ErasOfCommand(v.run, c);
      AscendingKept(v, Moved(v, m, r), 0);
    case Acted(t, a) =>
      ErasOfWork(v.run, t, v.crew[t], a);
      AscendingKept(v, Moved(v, m, r), t);
    case _ =>
  }

  /** With guard and append uninterrupted, all checkpoints of an earlier claim precede those of a later one. */
  lemma TimelyErasAreSorted(steps: seq<Step>, r: RunId)
    requires LegalUnder(EMPTY, steps, r, Timely)
    ensures Legal(EMPTY, steps)
    ensures r in After(EMPTY, steps).runs ==> Ascending(Eras(After(EMPTY, steps).runs[r].log))
  {
    assert Starts(SortedInv) by {
      assert Init([QueuedMark]) == [];
    }
    assert Keeps(SortedInv, Timely) by {
      forall v, m, r | SortedInv(v) && CanMove(v, m) && Timely(v, m) ensures SortedInv(Moved(v, m, r)) {
        SortedStep(v, m, r);
      }
    }
    Invariant(SortedInv, Timely, EMPTY, steps, r);
    if r in After(EMPTY, steps).runs {
      assert SortedInv(ViewOf(After(EMPTY, steps), r));
    }
  }

  /** Stragglers do occur: without `Timely` the eras of a reachable run need not be sorted. */
  lemma StragglerReachable(budget: Budget) returns (steps: seq<Step>)
    requires NormalBudget(budget)
    ensures Legal(EMPTY, steps) && "r" in After(EMPTY, steps).runs
    ensures Eras(After(EMPTY, steps).runs["r"].log) == [1, 0]
  {
    var s: State;
    steps, s := TwoGuarded(budget);
    ErasSuffix([], s.runs["r"].log);
    ErasLogged(s.runs["r"].log, Progress(1, PLAIN));
    steps, s := Extend(steps, s, Work(1, Push(PLAIN)));
    ErasLogged(s.runs["r"].log, Progress(0, PLAIN));
    steps, s := Extend(steps, s, Work(0, Push(PLAIN)));
  }
}
