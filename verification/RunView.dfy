/**
  One run seen on its own: its row, the workers in flight on it and the token counter. Every step of
  the whole system is, for that run, a command, a claim, a worker action or nothing but time passing,
  so invariants of single runs are proved on this smaller system and carried back by `Projects`.
 */
module RunView {
  import opened Common
  import opened RunProtocol

  datatype View = View(run: Run, crew: map<Token, Worker>, next: Token)

  datatype Move =
    | Elsewhere(next: Token)
    | Told(command: Command)
    | Taken(owner: string, now: int, expires: int)
    | Acted(t: Token, action: Action)

  function ViewOf(s: State, r: RunId): View
    requires r in s.runs
  {
    View(s.runs[r], map t | t in s.workers && s.workers[t].run == r :: s.workers[t], s.nextToken)
  }

  predicate CanMove(v: View, m: Move) {
    match m
    case Elsewhere(next) => v.next <= next
    case Told(_) => true
    case Taken(owner, now, _) => Claimable(v.run, owner, v.next, now)
    case Acted(t, a) => t in v.crew && CanWork(v.run, t, v.crew[t], a)
  }

  function Moved(v: View, m: Move, r: RunId): View
    requires CanMove(v, m)
  {
    match m
    case Elsewhere(next) => v.(next := next)
    case Told(c) => v.(run := Commanded(v.run, c))
    case Taken(owner, _, expires) =>
      View(v.run.(lease := Some(Lease(owner, v.next, expires))),
           v.crew[v.next := ClaimedBy(v.run, r, owner)], v.next + 1)
    case Acted(t, a) =>
      v.(run := Worked(v.run, t, v.crew[t], a),
         crew := if Ends(a) then v.crew - {t} else v.crew[t := Advanced(v.run, t, v.crew[t], a)])
  }

  /** What a step of the whole system means for run `r`. */
  function MoveOf(s: State, step: Step, r: RunId): Move
    requires Enabled(s, step)
  {
    match step
    case Create(_, _, _, _, _) => Elsewhere(s.nextToken)
    case Order(r', c) => if r' == r then Told(c) else Elsewhere(s.nextToken)
    case KillSwitch(targets) => if r in targets then Told(Kill) else Elsewhere(s.nextToken)
    case Escalate(t, targets) =>
      if s.workers[t].run == r then Acted(t, Strike)
      else if r in targets then Told(Kill)
      else Elsewhere(s.nextToken)
    case Claim(r', owner, now, expires) =>
      if r' == r then Taken(owner, now, expires) else Elsewhere(s.nextToken + 1)
    case Work(t, a) => if s.workers[t].run == r then Acted(t, a) else Elsewhere(s.nextToken)
  }

  /** Worker tokens have been handed out, and workers are on stored runs. */
  ghost predicate Sound(s: State) {
    forall t | t in s.workers :: t < s.nextToken && s.workers[t].run in s.runs
  }

  lemma SoundStep(s: State, step: Step)
    requires Sound(s) && Enabled(s, step)
    ensures Sound(Apply(s, step))
  {
  }

  lemma WorkProjects(s: State, step: Step, r: RunId)
    requires Sound(s) && step.Work? && Enabled(s, step) && r in s.runs
    ensures r in Apply(s, step).runs && CanMove(ViewOf(s, r), MoveOf(s, step, r))
    ensures ViewOf(Apply(s, step), r) == Moved(ViewOf(s, r), MoveOf(s, step, r), r)
  {
    assert ViewOf(Apply(s, step), r).crew == Moved(ViewOf(s, r), MoveOf(s, step, r), r).crew;
  }

  lemma ClaimProjects(s: State, step: Step, r: RunId)
    requires Sound(s) && step.Claim? && Enabled(s, step) && r in s.runs
    ensures r in Apply(s, step).runs && CanMove(ViewOf(s, r), MoveOf(s, step, r))
    ensures ViewOf(Apply(s, step), r) == Moved(ViewOf(s, r), MoveOf(s, step, r), r)
  {
    assert ViewOf(Apply(s, step), r).crew == Moved(ViewOf(s, r), MoveOf(s, step, r), r).crew;
  }

  lemma EscalationProjects(s: State, step: Step, r: RunId)
    requires Sound(s) && step.Escalate? && Enabled(s, step) && r in s.runs
    ensures r in Apply(s, step).runs && CanMove(ViewOf(s, r), MoveOf(s, step, r))
    ensures ViewOf(Apply(s, step), r) == Moved(ViewOf(s, r), MoveOf(s, step, r), r)
  {
    assert ViewOf(Apply(s, step), r).crew == Moved(ViewOf(s, r), MoveOf(s, step, r), r).crew;
  }

  /** Steps of the system project to moves of each run. */
  lemma Projects(s: State, step: Step, r: RunId)
    requires Sound(s) && Enabled(s, step) && r in s.runs
    ensures r in Apply(s, step).runs
    ensures CanMove(ViewOf(s, r), MoveOf(s, step, r))
    ensures ViewOf(Apply(s, step), r) == Moved(ViewOf(s, r), MoveOf(s, step, r), r)
  {
    match step
    case Work(_, _) => WorkProjects(s, step, r);
    case Claim(_, _, _, _) => ClaimProjects(s, step, r);
    case Escalate(_, _) => EscalationProjects(s, step, r);
    case _ => assert ViewOf(Apply(s, step), r).crew == ViewOf(s, r).crew;
  }

  /** A new run starts queued, with no workers on it. */
  lemma CreatedAlone(s: State, step: Step, r: RunId)
    requires Sound(s) && Enabled(s, step) && r in Apply(s, step).runs && r !in s.runs
    ensures step.Create? && step.r == r
    ensures ViewOf(Apply(s, step), r)
         == View(Created(step.user, step.agent, step.maxAttempts, step.budget), map[], s.nextToken)
  {
  }

  predicate Anything(v: View, m: Move) { true }

  /** A legal history in which run `r` only makes moves that `allowed` admits. */
  ghost predicate LegalUnder(s: State, steps: seq<Step>, r: RunId, allowed: (View, Move) -> bool)
    decreases |steps|
  {
    steps == [] ||
    (&& Enabled(s, steps[0])
     && (r in s.runs ==> allowed(ViewOf(s, r), MoveOf(s, steps[0], r)))
     && LegalUnder(Apply(s, steps[0]), steps[1..], r, allowed))
  }

  ghost predicate HoldsOf(s: State, r: RunId, inv: View -> bool) {
    Sound(s) && (r in s.runs ==> inv(ViewOf(s, r)))
  }

  ghost predicate Starts(inv: View -> bool) {
    forall user, agent, maxAttempts: nat, budget, next: Token | maxAttempts >= 1 && NormalBudget(budget) ::
      inv(View(Created(user, agent, maxAttempts, budget), map[], next))
  }

  ghost predicate Keeps(inv: View -> bool, allowed: (View, Move) -> bool) {
    forall v, m, r | inv(v) && CanMove(v, m) && allowed(v, m) :: inv(Moved(v, m, r))
  }

  /** The induction principle: an invariant of a run's own moves holds of the run after every history. */
  lemma {:induction false} Invariant(inv: View -> bool, allowed: (View, Move) -> bool, s: State, steps: seq<Step>,
                                     r: RunId)
    requires Starts(inv) && Keeps(inv, allowed)
    requires HoldsOf(s, r, inv) && LegalUnder(s, steps, r, allowed)
    ensures Legal(s, steps) && HoldsOf(After(s, steps), r, inv)
    decreases |steps|
  {
    if steps != [] {
      var s' := Apply(s, steps[0]);
      SoundStep(s, steps[0]);
      if r in s.runs {
        Projects(s, steps[0], r);
        assert inv(Moved(ViewOf(s, r), MoveOf(s, steps[0], r), r));
      } else if r in s'.runs {
        CreatedAlone(s, steps[0], r);
      }
      Invariant(inv, allowed, s', steps[1..], r);
    }
  }

  /** Every legal history is one in which anything is allowed. */
  lemma {:induction false} LegalIsUnrestricted(s: State, steps: seq<Step>, r: RunId)
    requires Legal(s, steps)
    ensures LegalUnder(s, steps, r, Anything)
    decreases |steps|
  {
    if steps != [] {
      LegalIsUnrestricted(Apply(s, steps[0]), steps[1..], r);
    }
  }

  /** Restricted histories extend at the end, too. */
  lemma {:induction false} ThenAllowed(s: State, steps: seq<Step>, r: RunId, allowed: (View, Move) -> bool, step: Step)
    requires LegalUnder(s, steps, r, allowed) && Legal(s, steps) && Enabled(After(s, steps), step)
    requires r in After(s, steps).runs ==>
               allowed(ViewOf(After(s, steps), r), MoveOf(After(s, steps), step, r))
    ensures LegalUnder(s, steps + [step], r, allowed)
    ensures Legal(s, steps + [step]) && After(s, steps + [step]) == Apply(After(s, steps), step)
    decreases |steps|
  {
    ThenStep(s, steps, step);
    if steps == [] {
      assert LegalUnder(Apply(s, step), [], r, allowed);
    } else {
      ThenAllowed(Apply(s, steps[0]), steps[1..], r, allowed, step);
      assert (steps + [step])[1..] == steps[1..] + [step];
    }
  }
}
