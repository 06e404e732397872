/**
  How a queued run gets back to a worker: the in-process queue beside the lease. A worker that schedules
  a retry puts the run back on the queue and only afterwards releases its lease, and a worker whose claim
  is refused drops the queue entry. One run is modelled, with the protocol of `RunView` underneath.
 */
module Handoff {
  import opened Common
  import opened RunPolicy
  import opened RunProtocol
  import opened RunView

  /** The run, its queue entries, puts promised by create, resume and recovery, and puts owed by retrying workers. */
  datatype Desk = Desk(view: View, queue: nat, promised: nat, owing: set<Token>)

  datatype Turn =
    | Tell(command: Command)
    | Deliver
    | Pick(owner: string, now: int, expires: int)
    | Act(t: Token, action: Action)
    | Requeue(t: Token)
    | Pass(next: Token)

  predicate CanTurn(d: Desk, turn: Turn) {
    match turn
    case Tell(c) => c.Resume? ==> d.view.run.status in {Failed, Canceled}
    case Deliver => d.promised > 0
    case Pick(_, _, _) => d.queue > 0
    case Act(t, a) => CanMove(d.view, Acted(t, a)) && (a.Release? ==> t !in d.owing)
    case Requeue(t) => t in d.owing
    case Pass(next) => CanMove(d.view, Elsewhere(next))
  }

  predicate Retries(d: Desk, t: Token, a: Action)
    requires CanMove(d.view, Acted(t, a))
  {
    a.Close? && Decide(d.view.crew[t]).status == Queued
  }

  function Turned(d: Desk, turn: Turn, r: RunId): Desk
    requires CanTurn(d, turn)
  {
    match turn
    case Tell(c) =>
      d.(view := Moved(d.view, Told(c), r), promised := d.promised + if c.Resume? || c.Recover? then 1 else 0)
    case Deliver => d.(promised := d.promised - 1, queue := d.queue + 1)
    case Pick(owner, now, expires) =>
      if Claimable(d.view.run, owner, d.view.next, now)
      then d.(queue := d.queue - 1, view := Moved(d.view, Taken(owner, now, expires), r))
      else d.(queue := d.queue - 1)
    case Act(t, a) =>
      d.(view := Moved(d.view, Acted(t, a), r),
         owing := if Ends(a) then d.owing - {t} else if Retries(d, t, a) then d.owing + {t} else d.owing)
    case Requeue(t) => d.(queue := d.queue + 1, owing := d.owing - {t})
    case Pass(next) => d.(view := Moved(d.view, Elsewhere(next), r))
  }

  predicate LegalTurns(d: Desk, turns: seq<Turn>, r: RunId)
    decreases |turns|
  {
    turns == [] || (CanTurn(d, turns[0]) && LegalTurns(Turned(d, turns[0], r), turns[1..], r))
  }

  function AfterTurns(d: Desk, turns: seq<Turn>, r: RunId): Desk
    requires LegalTurns(d, turns, r)
    decreases |turns|
  {
    if turns == [] then d else AfterTurns(Turned(d, turns[0], r), turns[1..], r)
  }

  lemma {:induction false} ThenTurn(d: Desk, turns: seq<Turn>, r: RunId, turn: Turn)
    requires LegalTurns(d, turns, r) && CanTurn(AfterTurns(d, turns, r), turn)
    ensures LegalTurns(d, turns + [turn], r)
    ensures AfterTurns(d, turns + [turn], r) == Turned(AfterTurns(d, turns, r), turn, r)
    decreases |turns|
  {
    if turns == [] {
      assert LegalTurns(Turned(d, turn, r), [], r);
    } else {
      ThenTurn(Turned(d, turns[0], r), turns[1..], r, turn);
      assert (turns + [turn])[1..] == turns[1..] + [turn];
    }
  }

  // ---- Attended runs ----

  predicate SomeoneWaiting(v: View) { exists t | t in v.crew :: Waiting(v.crew[t].phase) }

  /** A queued run is on the queue, about to be put there, or claimed by a worker about to start it. */
  predicate Attended(d: Desk) {
    d.view.run.status == Queued ==> d.queue > 0 || d.promised > 0 || d.owing != {} || SomeoneWaiting(d.view)
  }

  predicate LastHope(d: Desk) { d.queue == 1 && d.promised == 0 && d.owing == {} && !SomeoneWaiting(d.view) }

  /** The queue entry is taken while the lease is still live. */
  predicate PickedTooEarly(d: Desk, turn: Turn) {
    turn.Pick? && d.view.run.status == Queued && !Claimable(d.view.run, turn.owner, d.view.next, turn.now)
  }

  predicate Crashes(turn: Turn) { turn.Act? && turn.action.Abandon? }

  /** A run's workers leave the waiting phases only by writing another status, and only a retry requeues. */
  lemma WorkKeepsHope(run: Run, t: Token, w: Worker, a: Action)
    requires CanWork(run, t, w, a) && !a.Abandon?
    ensures var run', w' := Worked(run, t, w, a), Advanced(run, t, w, a);
            && (Waiting(w.phase) && !Waiting(w'.phase) ==> run'.status != Queued)
            && (Waiting(w.phase) ==> !Ends(a))
            && (run'.status == Queued ==> run.status == Queued || (a.Close? && Decide(w).status == Queued))
  {
  }

  lemma ActKeepsHope(d: Desk, t: Token, a: Action, r: RunId)
    requires Attended(d) && CanTurn(d, Act(t, a)) && !a.Abandon?
    ensures Attended(Turned(d, Act(t, a), r))
  {
    var d' := Turned(d, Act(t, a), r);
    var w := d.view.crew[t];
    WorkKeepsHope(d.view.run, t, w, a);
    if d'.view.run.status == Queued && SomeoneWaiting(d.view) {
      var u :| u in d.view.crew && Waiting(d.view.crew[u].phase);
      assert u in d'.view.crew && Waiting(d'.view.crew[u].phase);
    }
  }

  lemma ClaimIsHope(d: Desk, turn: Turn, r: RunId)
    requires CanTurn(d, turn) && turn.Pick? && Claimable(d.view.run, turn.owner, d.view.next, turn.now)
    ensures SomeoneWaiting(Turned(d, turn, r).view)
  {
    assert Waiting(Turned(d, turn, r).view.crew[d.view.next].phase);
  }

  /** Short of a crash, a turn loses the run if and only if it takes the last queue entry under a live lease. */
  lemma TurnLosesIff(d: Desk, turn: Turn, r: RunId)
    requires Attended(d) && CanTurn(d, turn) && !Crashes(turn)
    ensures !Attended(Turned(d, turn, r)) <==> PickedTooEarly(d, turn) && LastHope(d)
  {
    match turn
    case Act(t, a) => ActKeepsHope(d, t, a, r);
    case Pick(owner, now, _) =>
      if Claimable(d.view.run, owner, d.view.next, now) {
        ClaimIsHope(d, turn, r);
      }
    case _ =>
  }

  predicate Careful(d: Desk, turns: seq<Turn>, r: RunId)
    decreases |turns|
  {
    turns == [] ||
    (&& CanTurn(d, turns[0]) && !Crashes(turns[0]) && !PickedTooEarly(d, turns[0])
     && Careful(Turned(d, turns[0], r), turns[1..], r))
  }

  /** While no entry is taken under a live lease and no worker crashes, a queued run is never forgotten. */
  lemma {:induction false} CarefulRunsAreAttended(d: Desk, turns: seq<Turn>, r: RunId)
    requires Attended(d) && Careful(d, turns, r)
    ensures LegalTurns(d, turns, r) && Attended(AfterTurns(d, turns, r))
    decreases |turns|
  {
    if turns != [] {
      TurnLosesIff(d, turns[0], r);
      CarefulRunsAreAttended(Turned(d, turns[0], r), turns[1..], r);
    }
  }

  // ---- Queue entries are conserved ----

  function Entries(d: Desk): nat { d.queue + d.promised + |d.owing| }

  function One(b: bool): nat { if b then 1 else 0 }

  /** Only workers that are done with their attempt still owe a put. */
  predicate OwersDone(d: Desk) {
    forall t | t in d.owing :: t < d.view.next && t in d.view.crew && d.view.crew[t].phase.Done?
  }

  predicate TokensDrawn(d: Desk) { forall t | t in d.view.crew :: t < d.view.next }

  /** The turn asks for a queue entry: a resume, a recovery, or the close of an attempt that is to be retried. */
  predicate Asks(d: Desk, turn: Turn)
    requires CanTurn(d, turn)
  {
    match turn
    case Tell(c) => c.Resume? || c.Recover?
    case Act(t, a) => Retries(d, t, a)
    case _ => false
  }

  /** The turn uses an entry up: it is picked, or the worker that owed it dies. */
  predicate Spends(d: Desk, turn: Turn) { turn.Pick? || (Crashes(turn) && turn.t in d.owing) }

  lemma DoneWork(run: Run, t: Token, w: Worker, a: Action)
    requires CanWork(run, t, w, a)
    ensures w.phase.Done? && !Ends(a) ==> Advanced(run, t, w, a).phase.Done? && !a.Close?
    ensures a.Close? && Decide(w).status == Queued ==> Advanced(run, t, w, a).phase.Done? && !w.phase.Done?
  {
  }

  lemma ActConserves(d: Desk, t: Token, a: Action, r: RunId)
    requires OwersDone(d) && TokensDrawn(d) && CanTurn(d, Act(t, a))
    ensures OwersDone(Turned(d, Act(t, a), r))
    ensures Entries(Turned(d, Act(t, a), r)) + One(Spends(d, Act(t, a))) == Entries(d) + One(Asks(d, Act(t, a)))
  {
    DoneWork(d.view.run, t, d.view.crew[t], a);
  }

  /** A resume, recovery or retry makes one queue entry, and each entry is used once. */
  lemma EntriesConserved(d: Desk, turn: Turn, r: RunId)
    requires OwersDone(d) && TokensDrawn(d) && CanTurn(d, turn)
    ensures OwersDone(Turned(d, turn, r)) && TokensDrawn(Turned(d, turn, r))
    ensures Entries(Turned(d, turn, r)) + One(Spends(d, turn)) == Entries(d) + One(Asks(d, turn))
  {
    match turn
    case Act(t, a) => ActConserves(d, t, a, r);
    case _ =>
  }

  // ---- Lost runs ----

  predicate AllDone(v: View) { forall t | t in v.crew :: v.crew[t].phase.Done? }

  /** Queued, with nobody left who would ever run it. */
  predicate Lost(d: Desk) { !Attended(d) && AllDone(d.view) }

  lemma LostTurn(d: Desk, turn: Turn, r: RunId)
    requires Lost(d) && CanTurn(d, turn) && !turn.Tell?
    ensures Lost(Turned(d, turn, r))
  {
    var d' := Turned(d, turn, r);
    assert d'.view.run.status == Queued;
    assert forall t | t in d'.view.crew :: t in d.view.crew && d'.view.crew[t] == d.view.crew[t];
  }

  /** A lost run stays queued for ever unless it is canceled, killed or recovered by a restart. */
  lemma {:induction false} LostForGood(d: Desk, turns: seq<Turn>, r: RunId)
    requires Lost(d) && LegalTurns(d, turns, r) && forall i | 0 <= i < |turns| :: !turns[i].Tell?
    ensures Lost(AfterTurns(d, turns, r)) && AfterTurns(d, turns, r).view.run.status == Queued
    decreases |turns|
  {
    if turns != [] {
      LostTurn(d, turns[0], r);
      LostForGood(Turned(d, turns[0], r), turns[1..], r);
    }
  }

  /** A restart finds a lost run: recovery puts it back on the queue and the next worker gets it, at any time. */
  lemma RecoveryFindsLostRun(d: Desk, r: RunId, owner: string, now: int, expires: int)
    requires Lost(d)
    ensures var turns := [Tell(Recover(false)), Deliver, Pick(owner, now, expires)];
            && LegalTurns(d, turns, r)
            && var v := AfterTurns(d, turns, r).view;
               && v.run == d.view.run.(lease := Some(Lease(owner, d.view.next, expires)))
               && d.view.next in v.crew && v.crew[d.view.next].phase == Claimed
  {
    var pick := Pick(owner, now, expires);
    ThenTurn(d, [], r, Tell(Recover(false)));
    ThenTurn(d, [Tell(Recover(false))], r, Deliver);
    ThenTurn(d, [Tell(Recover(false)), Deliver], r, pick);
    assert [] + [Tell(Recover(false))] == [Tell(Recover(false))];
    assert [Tell(Recover(false))] + [Deliver] == [Tell(Recover(false)), Deliver];
    assert [Tell(Recover(false)), Deliver] + [pick] == [Tell(Recover(false)), Deliver, pick];
  }

  /** A new run, before `create_run` has put it on the queue. */
  function Opening(budget: Budget): Desk { Desk(View(Created("u", "g", 2, budget), map[], 0), 0, 1, {}) }

  lemma Next(budget: Budget, turns: seq<Turn>, d: Desk, turn: Turn) returns (turns': seq<Turn>, d': Desk)
    requires LegalTurns(Opening(budget), turns, "r") && d == AfterTurns(Opening(budget), turns, "r") && CanTurn(d, turn)
    ensures LegalTurns(Opening(budget), turns', "r")
    ensures d' == AfterTurns(Opening(budget), turns', "r") == Turned(d, turn, "r")
  {
    ThenTurn(Opening(budget), turns, "r", turn);
    turns', d' := turns + [turn], Turned(d, turn, "r");
  }

  /** The first attempt of a run has started under the lease of worker 0. */
  lemma FirstAttempt(budget: Budget) returns (turns: seq<Turn>, d: Desk)
    ensures LegalTurns(Opening(budget), turns, "r") && d == AfterTurns(Opening(budget), turns, "r")
    ensures d.queue == 0 && d.promised == 0 && d.owing == {} && d.view.next == 1
    ensures d.view.crew == map[0 := Worker("r", "a", 1, 2, budget, NO_USAGE, Executing)]
    ensures d.view.run.status == Running && d.view.run.lease == Some(Lease("a", 0, 10)) && !d.view.run.cancelRequested
  {
    turns, d := [], Opening(budget);
    turns, d := Next(budget, turns, d, Deliver);
    turns, d := Next(budget, turns, d, Pick("a", 0, 10));
    turns, d := Next(budget, turns, d, Act(0, CheckCancel));
    turns, d := Next(budget, turns, d, Act(0, Start));
  }

  /** The attempt timed out and was requeued; its lease is not released yet. */
  lemma Requeued(budget: Budget) returns (turns: seq<Turn>, d: Desk)
    ensures LegalTurns(Opening(budget), turns, "r") && d == AfterTurns(Opening(budget), turns, "r")
    ensures d.queue == 1 && d.promised == 0 && d.owing == {} && d.view.next == 1
    ensures d.view.crew.Keys == {0} && d.view.crew[0].phase == Done && d.view.crew[0].owner == "a"
    ensures d.view.run.status == Queued && d.view.run.lease == Some(Lease("a", 0, 10))
  {
    turns, d := FirstAttempt(budget);
    turns, d := Next(budget, turns, d, Act(0, ReadLatest(Failure(TimeoutError))));
    turns, d := Next(budget, turns, d, Act(0, Close));
    turns, d := Next(budget, turns, d, Requeue(0));
  }

  /** It happens: another thread takes the entry before the lease is released. */
  lemma RetryCanBeLost(budget: Budget) returns (turns: seq<Turn>)
    ensures LegalTurns(Opening(budget), turns, "r") && Lost(AfterTurns(Opening(budget), turns, "r"))
  {
    var d: Desk;
    turns, d := Requeued(budget);
    turns, d := Next(budget, turns, d, Pick("a", 1, 11));
    turns, d := Next(budget, turns, d, Act(0, Release));
  }
}
