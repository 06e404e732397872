/** Building concrete histories of the run protocol, one step at a time. */
module Histories {
  import opened Common
  import opened RunProtocol

  lemma Extend(steps: seq<Step>, s: State, step: Step) returns (steps': seq<Step>, s': State)
    requires Legal(EMPTY, steps) && s == After(EMPTY, steps) && Enabled(s, step)
    ensures Legal(EMPTY, steps') && s' == After(EMPTY, steps') == Apply(s, step)
  {
    ThenStep(EMPTY, steps, step);
    steps', s' := steps + [step], Apply(s, step);
  }

  /** The same from any state. */
  lemma Proceed(start: State, steps: seq<Step>, s: State, step: Step) returns (steps': seq<Step>, s': State)
    requires Legal(start, steps) && s == After(start, steps) && Enabled(s, step)
    ensures steps' == steps + [step] && Legal(start, steps') && s' == After(start, steps') == Apply(s, step)
  {
    ThenStep(start, steps, step);
    steps', s' := steps + [step], Apply(s, step);
  }

  /** A run whose only worker is executing its first attempt and has just passed its lease guard. */
  lemma GuardedHistory(budget: Budget) returns (steps: seq<Step>, s: State)
    requires NormalBudget(budget)
    ensures Legal(EMPTY, steps) && s == After(EMPTY, steps)
    ensures s.nextToken == 1 && s.runs.Keys == {"r"} && s.workers.Keys == {0}
    ensures s.workers[0] == Worker("r", "a", 1, 2, budget, NO_USAGE, Guarded)
    ensures s.runs["r"] == Run("u", "g", Running, 1, 2, false, "", Some(Lease("a", 0, 10)), budget, NO_USAGE,
                               [QueuedMark, Started(1)])
  {
    steps := [];
    s := EMPTY;
    steps, s := Extend(steps, s, Create("r", "u", "g", 2, budget));
    steps, s := Extend(steps, s, Claim("r", "a", 0, 10));
    steps, s := Extend(steps, s, Work(0, CheckCancel));
    steps, s := Extend(steps, s, Work(0, Start));
    steps, s := Extend(steps, s, Work(0, Guard(0, 10)));
  }

  /** Two workers of one run, both past their guards: the first lost its lease right after. */
  lemma TwoGuarded(budget: Budget) returns (steps: seq<Step>, s: State)
    requires NormalBudget(budget)
    ensures Legal(EMPTY, steps) && s == After(EMPTY, steps)
    ensures s.runs.Keys == {"r"} && s.workers.Keys == {0, 1}
    ensures s.workers[0] == Worker("r", "a", 1, 2, budget, NO_USAGE, Guarded)
    ensures s.workers[1] == Worker("r", "b", 2, 2, budget, NO_USAGE, Guarded)
    ensures s.runs["r"].log == [QueuedMark, Started(1), Started(2)]
    ensures s.runs["r"].status == Running && !s.runs["r"].cancelRequested
  {
    steps, s := GuardedHistory(budget);
    steps, s := Extend(steps, s, Claim("r", "b", 11, 20));
    steps, s := Extend(steps, s, Work(1, CheckCancel));
    steps, s := Extend(steps, s, Work(1, Start));
    steps, s := Extend(steps, s, Work(1, Guard(11, 20)));
  }
}
