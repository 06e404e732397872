/**
  Slot deduplication of the automation scheduler: any number of schedulers race to register a dispatch
  key, create its run, record it and clean up (`_trigger`, automation/automation_scheduler.py; the
  `automation_dispatches` table, storage/database.py). Each database call and each run creation is one
  step, and a trigger may crash between any two.
 */
module Dispatch {
  import opened Common

  datatype Slot = Slot(automation: string, key: string)

  datatype Row = Row(runId: Option<nat>, createdAt: int)

  /** A trigger that holds a registration: before creation, after a failed one, or with a run to record. */
  datatype Phase = Registered | CreateFailed | Made(run: nat)

  datatype Trigger = Trigger(slot: Slot, phase: Phase)

  /** Automation ids are drawn once, so an automation that was deleted never comes back. */
  datatype Life = Stored | Deleted

  /**
    The automations, the table, the triggers in flight, and what has happened per slot: runs made, rows
    taken over as stale, and runs whose creation raised after committing.
   */
  datatype State = State(automations: map<string, Life>, table: map<Slot, Row>, triggers: map<nat, Trigger>,
                         nextRun: nat, made: multiset<Slot>, reclaimed: multiset<Slot>, orphaned: multiset<Slot>)
  {
    predicate Has(automation: string) { automation in automations && automations[automation].Stored? }

    predicate Lost(automation: string) { automation in automations && automations[automation].Deleted? }
  }

  datatype Step =
    | CreateAutomation(automation: string)
    | Register(id: nat, slot: Slot, now: int, staleBefore: Option<int>)
    | CreateRun(id: nat)
    | FailCreate(id: nat, committed: bool)
    | Record(id: nat, now: int)
    | CleanUp(id: nat)
    | GiveUp(id: nat)
    | DeleteAutomation(automation: string)

  const EMPTY := State(map[], map[], map[], 0, multiset{}, multiset{}, multiset{})

  /** An existing row may be taken over only by a scheduled trigger, if it has no run and is old enough. */
  predicate Stale(row: Row, staleBefore: Option<int>) {
    staleBefore.Some? && row.runId.None? && row.createdAt <= staleBefore.value
  }

  predicate Enabled(s: State, step: Step) {
    match step
    case CreateAutomation(automation) => automation !in s.automations
    case Register(id, _, _, _) => id !in s.triggers
    case CreateRun(id) => id in s.triggers && s.triggers[id].phase.Registered?
    case FailCreate(id, _) => id in s.triggers && s.triggers[id].phase.Registered?
    case Record(id, _) => id in s.triggers && s.triggers[id].phase.Made?
    case CleanUp(id) => id in s.triggers && s.triggers[id].phase.CreateFailed?
    case GiveUp(id) => id in s.triggers
    case DeleteAutomation(_) => true
  }

  function Belonging(table: map<Slot, Row>, automation: string): set<Slot> {
    set k | k in table && k.automation == automation
  }

  /**
    A registration fails without the automation, by the foreign key, and on a row that is not stale.
    Deleting an automation takes its rows with it.
   */
  function Apply(s: State, step: Step): State
    requires Enabled(s, step)
  {
    match step
    case CreateAutomation(automation) => s.(automations := s.automations[automation := Stored])
    case Register(id, slot, now, staleBefore) =>
      var taken := s.(table := s.table[slot := Row(None, now)],
                      triggers := s.triggers[id := Trigger(slot, Registered)]);
      if !s.Has(slot.automation) then s
      else if slot !in s.table then taken
      else if Stale(s.table[slot], staleBefore) then taken.(reclaimed := s.reclaimed + multiset{slot})
      else s
    case CreateRun(id) =>
      var slot := s.triggers[id].slot;
      s.(triggers := s.triggers[id := Trigger(slot, Made(s.nextRun))], nextRun := s.nextRun + 1,
         made := s.made + multiset{slot})
    case FailCreate(id, committed) =>
      var slot := s.triggers[id].slot;
      var failed := s.(triggers := s.triggers[id := Trigger(slot, CreateFailed)]);
      if committed then failed.(nextRun := s.nextRun + 1, made := s.made + multiset{slot},
                                orphaned := s.orphaned + multiset{slot})
      else failed
    case Record(id, now) =>
      var t := s.triggers[id];
      var recorded := if t.slot in s.table then s.table[t.slot := Row(Some(t.phase.run), now)] else s.table;
      s.(table := recorded, triggers := s.triggers - {id})
    case CleanUp(id) =>
      s.(table := s.table - {s.triggers[id].slot}, triggers := s.triggers - {id})
    case GiveUp(id) => s.(triggers := s.triggers - {id})
    case DeleteAutomation(automation) =>
      if !s.Has(automation) then s
      else s.(automations := s.automations[automation := Deleted],
              table := s.table - Belonging(s.table, automation))
  }

  predicate Legal(s: State, steps: seq<Step>)
    decreases |steps|
  {
    steps == [] || (Enabled(s, steps[0]) && Legal(Apply(s, steps[0]), steps[1..]))
  }

  function After(s: State, steps: seq<Step>): State
    requires Legal(s, steps)
    decreases |steps|
  {
    if steps == [] then s else After(Apply(s, steps[0]), steps[1..])
  }

  // ---- Single steps ----

  /** A registration succeeds if and only if its automation is stored and the row is missing or may be taken over. */
  lemma RegistersIff(s: State, step: Step)
    requires step.Register? && Enabled(s, step)
    ensures var s', slot := Apply(s, step), step.slot;
            && (step.id in s'.triggers <==>
                  && slot.automation in s.automations && s.automations[slot.automation] == Stored
                  && (slot in s.table ==>
                        && step.staleBefore.Some? && s.table[slot].runId.None?
                        && s.table[slot].createdAt <= step.staleBefore.value))
            && (step.id in s'.triggers ==>
                  s'.table == s.table[slot := Row(None, step.now)]
                  && s'.triggers == s.triggers[step.id := Trigger(slot, Registered)])
            && (step.id !in s'.triggers ==> s' == s)
  {
  }

  /** A run is made exactly by a creation that returns or that raises after committing. */
  lemma RunMadeIff(s: State, step: Step, k: Slot)
    requires Enabled(s, step)
    ensures Apply(s, step).made[k]
         == s.made[k] + if (step.CreateRun? || (step.FailCreate? && step.committed)) && s.triggers[step.id].slot == k
                        then 1 else 0
  {
  }

  /** Deleting a stored automation loses its rows for good and touches no other; deleting another does nothing. */
  lemma DeletionTakesRows(s: State, automation: string, k: Slot)
    ensures var s' := Apply(s, DeleteAutomation(automation));
            if s.Has(automation) then
              && s'.Lost(automation)
              && (k in s'.table <==> k in s.table && k.automation != automation)
              && (k in s'.table ==> s'.table[k] == s.table[k])
            else s' == s
  {
  }

  // ---- Conservation ----

  /** Triggers that may still create a run for `k`, or remove its row having created none. */
  function Licensed(s: State, k: Slot): set<nat> {
    set id | id in s.triggers && s.triggers[id].slot == k && !s.triggers[id].phase.Made?
  }

  function Excess(s: State, k: Slot): nat { s.reclaimed[k] + s.orphaned[k] }

  /** The slot has no row and may still get one. */
  predicate Free(s: State, k: Slot) { k !in s.table && !s.Lost(k.automation) }

  /**
    Runs made, licences out and a free row are conserved: each registration turns the free row into a
    licence, each creation a licence into a run, each clean-up a licence back into a free row.
   */
  predicate Conserved(s: State, k: Slot) {
    s.made[k] + |Licensed(s, k)| + (if Free(s, k) then 1 else 0) <= 1 + Excess(s, k)
  }

  lemma OneMore(a: set<nat>, b: set<nat>, id: nat)
    requires b <= a + {id}
    ensures |b| <= |a| + 1
  {
    assert a + {id} == b + (a + {id} - b);
  }

  lemma NoMore(a: set<nat>, b: set<nat>)
    requires b <= a
    ensures |b| <= |a|
  {
    assert a == b + (a - b);
  }

  /** A registration may turn the free row into a licence; a takeover is paid for. */
  lemma RegisterConserves(s: State, step: Step, k: Slot)
    requires step.Register? && Enabled(s, step) && Conserved(s, k)
    ensures Conserved(Apply(s, step), k)
  {
    var s' := Apply(s, step);
    assert Licensed(s', k) <= Licensed(s, k) + {step.id};
    assert step.slot != k ==> Licensed(s', k) == Licensed(s, k);
    OneMore(Licensed(s, k), Licensed(s', k), step.id);
  }

  /** A creation uses up its licence. */
  lemma CreationConserves(s: State, step: Step, k: Slot)
    requires step.CreateRun? && Enabled(s, step) && Conserved(s, k)
    ensures Conserved(Apply(s, step), k)
  {
    assert Licensed(Apply(s, step), k) == Licensed(s, k) - {step.id};
    assert step.id in Licensed(s, k) <==> s.triggers[step.id].slot == k;
  }

  /** A creation that fails keeps its licence; one that raises after committing is paid for. */
  lemma FailureConserves(s: State, step: Step, k: Slot)
    requires step.FailCreate? && Enabled(s, step) && Conserved(s, k)
    ensures Conserved(Apply(s, step), k)
  {
    assert Licensed(Apply(s, step), k) == Licensed(s, k);
  }

  /** A clean-up turns its licence back into a free row; recording and giving up give nothing back. */
  lemma EndConserves(s: State, step: Step, k: Slot)
    requires (step.Record? || step.CleanUp? || step.GiveUp?) && Enabled(s, step) && Conserved(s, k)
    ensures Conserved(Apply(s, step), k)
  {
    assert Licensed(Apply(s, step), k) == Licensed(s, k) - {step.id};
    NoMore(Licensed(s, k), Licensed(s, k) - {step.id});
  }

  /** A row that goes with its automation leaves no free one behind. */
  lemma LifeConserves(s: State, step: Step, k: Slot)
    requires (step.CreateAutomation? || step.DeleteAutomation?) && Enabled(s, step) && Conserved(s, k)
    ensures Conserved(Apply(s, step), k)
  {
    assert Licensed(Apply(s, step), k) == Licensed(s, k);
  }

  lemma ConservedStep(s: State, step: Step, k: Slot)
    requires Enabled(s, step) && Conserved(s, k)
    ensures Conserved(Apply(s, step), k)
  {
    match step
    case Register(_, _, _, _) => RegisterConserves(s, step, k);
    case CreateRun(_) => CreationConserves(s, step, k);
    case FailCreate(_, _) => FailureConserves(s, step, k);
    case CreateAutomation(_) => LifeConserves(s, step, k);
    case DeleteAutomation(_) => LifeConserves(s, step, k);
    case _ => EndConserves(s, step, k);
  }

  /**
    At most one run per dispatch key, over every interleaving, crash, failed creation, failed write and
    deletion of the automation: each extra run needs its own stale takeover or creation that raised after
    committing the run.
   */
  lemma {:induction false} RunsPerSlot(s: State, steps: seq<Step>, k: Slot)
    requires Conserved(s, k) && Legal(s, steps)
    ensures Conserved(After(s, steps), k)
    ensures After(s, steps).made[k] <= 1 + Excess(After(s, steps), k)
    decreases |steps|
  {
    if steps != [] {
      ConservedStep(s, steps[0], k);
      RunsPerSlot(Apply(s, steps[0]), steps[1..], k);
    }
  }

  lemma AtMostOneRunPerSlot(steps: seq<Step>, k: Slot)
    requires Legal(EMPTY, steps) && Excess(After(EMPTY, steps), k) == 0
    ensures After(EMPTY, steps).made[k] <= 1
  {
    RunsPerSlot(EMPTY, steps, k);
  }

  // ---- Run ids ----

  /** Every run a trigger holds has been drawn and is no other trigger's. */
  predicate OwnByTrigger(s: State) {
    forall id | id in s.triggers && s.triggers[id].phase.Made? ::
      && s.triggers[id].phase.run < s.nextRun
      && forall other | other in s.triggers && other != id :: s.triggers[other].phase != s.triggers[id].phase
  }

  /** Every run on record has been drawn and is no other row's. */
  predicate OwnByRow(s: State) {
    forall k | k in s.table && s.table[k].runId.Some? ::
      && s.table[k].runId.value < s.nextRun
      && forall other | other in s.table && other != k :: s.table[other].runId != s.table[k].runId
  }

  /** No run is both on record and held. */
  predicate OwnApart(s: State) {
    forall id, k | id in s.triggers && k in s.table :: s.table[k].runId.Some? ==>
      s.triggers[id].phase != Made(s.table[k].runId.value)
  }

  lemma OwnByTriggerStep(s: State, step: Step)
    requires Enabled(s, step) && OwnByTrigger(s)
    ensures OwnByTrigger(Apply(s, step))
  {
  }

  lemma OwnByRowStep(s: State, step: Step)
    requires Enabled(s, step) && OwnByTrigger(s) && OwnByRow(s) && OwnApart(s)
    ensures OwnByRow(Apply(s, step))
  {
  }

  lemma OwnApartStep(s: State, step: Step)
    requires Enabled(s, step) && OwnByTrigger(s) && OwnByRow(s) && OwnApart(s)
    ensures OwnApart(Apply(s, step))
  {
  }

  /** In every history no two rows name the same run. */
  lemma {:induction false} RunsHaveOneRow(s: State, steps: seq<Step>)
    requires Legal(s, steps) && OwnByTrigger(s) && OwnByRow(s) && OwnApart(s)
    ensures OwnByRow(After(s, steps))
    decreases |steps|
  {
    if steps != [] {
      OwnByTriggerStep(s, steps[0]);
      OwnByRowStep(s, steps[0]);
      OwnApartStep(s, steps[0]);
      RunsHaveOneRow(Apply(s, steps[0]), steps[1..]);
    }
  }

  // ---- Recorded slots ----

  /** Rows belong to stored automations. */
  predicate RowsBelong(s: State) { forall k | k in s.table :: s.Has(k.automation) }

  lemma RowsBelongStep(s: State, step: Step)
    requires Enabled(s, step) && RowsBelong(s)
    ensures RowsBelong(Apply(s, step))
  {
  }

  /** The slot's run is on record or its automation is gone, and nobody may create another. */
  predicate Finished(s: State, k: Slot) {
    && (forall id | id in s.triggers && s.triggers[id].slot == k :: s.triggers[id].phase.Made?)
    && (s.Lost(k.automation) || (k in s.table && s.table[k].runId.Some?))
  }

  lemma NoLicenceGranted(s: State, step: Step, k: Slot)
    requires Enabled(s, step) && Finished(s, k) && (k in s.table ==> s.Has(k.automation))
    ensures forall id | id in Apply(s, step).triggers && Apply(s, step).triggers[id].slot == k ::
              Apply(s, step).triggers[id].phase.Made?
  {
  }

  lemma RecordKept(s: State, step: Step, k: Slot)
    requires Enabled(s, step) && Finished(s, k)
    ensures Apply(s, step).Lost(k.automation) || (k in Apply(s, step).table && Apply(s, step).table[k].runId.Some?)
  {
  }

  lemma FinishedStep(s: State, step: Step, k: Slot)
    requires Enabled(s, step) && RowsBelong(s) && Finished(s, k)
    ensures Finished(Apply(s, step), k) && Apply(s, step).made[k] == s.made[k]
  {
    assert k in s.table ==> s.Has(k.automation);
    NoLicenceGranted(s, step, k);
    RecordKept(s, step, k);
    RunMadeIff(s, step, k);
  }

  /** A slot whose run is on record, with no other trigger on it, makes no further run, whatever looks stale. */
  lemma {:induction false} RecordedSlotIsFinal(s: State, steps: seq<Step>, k: Slot)
    requires Legal(s, steps) && RowsBelong(s) && Finished(s, k)
    ensures Finished(After(s, steps), k) && After(s, steps).made[k] == s.made[k]
    decreases |steps|
  {
    if steps != [] {
      RowsBelongStep(s, steps[0]);
      FinishedStep(s, steps[0], k);
      RecordedSlotIsFinal(Apply(s, steps[0]), steps[1..], k);
    }
  }

  /** A trigger that is alone on its slot finishes it by recording its run. */
  lemma RecordFinishes(s: State, id: nat, now: int)
    requires Enabled(s, Record(id, now)) && s.triggers[id].slot in s.table
    requires forall other | other in s.triggers && s.triggers[other].slot == s.triggers[id].slot :: other == id
    ensures var s', k := Apply(s, Record(id, now)), s.triggers[id].slot;
            Finished(s', k) && id !in s'.triggers && s'.table[k].runId == Some(s.triggers[id].phase.run)
  {
  }

  // ---- After a deletion ----

  /** Triggers that are about to create their run. */
  function Pending(s: State, k: Slot): set<nat> {
    set id | id in s.triggers && s.triggers[id].slot == k && s.triggers[id].phase.Registered?
  }

  lemma CreationUsesPending(s: State, step: Step, k: Slot)
    requires (step.CreateRun? || step.FailCreate?) && Enabled(s, step)
    ensures Pending(Apply(s, step), k) == Pending(s, k) - {step.id}
    ensures step.id in Pending(s, k) <==> s.triggers[step.id].slot == k
  {
  }

  lemma CreationMakesOne(s: State, step: Step, k: Slot)
    requires (step.CreateRun? || step.FailCreate?) && Enabled(s, step)
    ensures Apply(s, step).made[k] <= s.made[k] + if s.triggers[step.id].slot == k then 1 else 0
    ensures Apply(s, step).automations == s.automations
  {
  }

  lemma NothingPendingAdded(s: State, step: Step, k: Slot)
    requires !step.CreateRun? && !step.FailCreate? && Enabled(s, step) && s.Lost(k.automation)
    ensures Apply(s, step).made == s.made && |Pending(Apply(s, step), k)| <= |Pending(s, k)|
  {
    assert Pending(Apply(s, step), k) <= Pending(s, k);
    NoMore(Pending(s, k), Pending(Apply(s, step), k));
  }

  lemma DeletedStep(s: State, step: Step, k: Slot)
    requires Enabled(s, step) && s.Lost(k.automation)
    ensures Apply(s, step).Lost(k.automation)
    ensures Apply(s, step).made[k] + |Pending(Apply(s, step), k)| <= s.made[k] + |Pending(s, k)|
  {
    if step.CreateRun? || step.FailCreate? {
      CreationUsesPending(s, step, k);
      CreationMakesOne(s, step, k);
    } else {
      NothingPendingAdded(s, step, k);
    }
  }

  /** Once its automation is deleted a slot gets no more runs than triggers were about to create one. */
  lemma {:induction false} RunsAfterDeletion(s: State, steps: seq<Step>, k: Slot)
    requires Legal(s, steps) && s.Lost(k.automation)
    ensures After(s, steps).Lost(k.automation)
    ensures After(s, steps).made[k] + |Pending(After(s, steps), k)| <= s.made[k] + |Pending(s, k)|
    decreases |steps|
  {
    if steps != [] {
      DeletedStep(s, steps[0], k);
      RunsAfterDeletion(Apply(s, steps[0]), steps[1..], k);
    }
  }

  // ---- The bound is tight ----

  lemma {:induction false} ThenStep(s: State, steps: seq<Step>, step: Step)
    requires Legal(s, steps) && Enabled(After(s, steps), step)
    ensures Legal(s, steps + [step]) && After(s, steps + [step]) == Apply(After(s, steps), step)
    decreases |steps|
  {
    if steps == [] {
      assert Legal(Apply(s, step), []);
    } else {
      ThenStep(Apply(s, steps[0]), steps[1..], step);
      assert (steps + [step])[1..] == steps[1..] + [step];
    }
  }

  lemma Extend(steps: seq<Step>, s: State, step: Step) returns (steps': seq<Step>, s': State)
    requires Legal(EMPTY, steps) && s == After(EMPTY, steps) && Enabled(s, step)
    ensures Legal(EMPTY, steps') && s' == After(EMPTY, steps') == Apply(s, step)
  {
    ThenStep(EMPTY, steps, step);
    steps', s' := steps + [step], Apply(s, step);
  }

  /** Creations that raise after committing let the clean-up free the row each time. */
  lemma {:induction false} OrphansDuplicateRuns(k: Slot, n: nat) returns (steps: seq<Step>, s: State)
    ensures Legal(EMPTY, steps) && s == After(EMPTY, steps)
    ensures s.made[k] == n && Excess(s, k) == s.orphaned[k] == n
    ensures s.Has(k.automation) && s.triggers == map[] && k !in s.table
  {
    if n == 0 {
      steps, s := Extend([], EMPTY, CreateAutomation(k.automation));
    } else {
      steps, s := OrphansDuplicateRuns(k, n - 1);
      steps, s := Extend(steps, s, Register(0, k, 0, None));
      steps, s := Extend(steps, s, FailCreate(0, true));
      steps, s := Extend(steps, s, CleanUp(0));
    }
  }

  /**
    For all numbers some history makes one run of one slot more than it has orphans and stale takeovers: each
    trigger creates its run and dies before recording it, which leaves the row looking abandoned.
   */
  lemma {:induction false} BoundAttained(k: Slot, takeovers: nat, orphans: nat) returns (steps: seq<Step>, s: State)
    ensures Legal(EMPTY, steps) && s == After(EMPTY, steps)
    ensures s.reclaimed[k] == takeovers && s.orphaned[k] == orphans && s.made[k] == 1 + takeovers + orphans
    ensures s.Has(k.automation) && s.triggers == map[] && k in s.table && s.table[k] == Row(None, takeovers)
  {
    if takeovers == 0 {
      steps, s := OrphansDuplicateRuns(k, orphans);
      steps, s := Extend(steps, s, Register(0, k, 0, None));
    } else {
      steps, s := BoundAttained(k, takeovers - 1, orphans);
      steps, s := Extend(steps, s, Register(0, k, takeovers, Some(takeovers)));
    }
    steps, s := Extend(steps, s, CreateRun(0));
    steps, s := Extend(steps, s, GiveUp(0));
  }

  // ---- Dispatch keys ----

  /** `_build_dispatch_key` for a source and schedule type already in normal form. */
  function DispatchKey(source: string, scheduleType: string, slot: string): string {
    source + ":" + scheduleType + ":" + (if slot == "" then "unknown" else slot)
  }

  predicate Plain(s: string) { ':' !in s }

  lemma SplitAtColon(a: string, b: string, c: string, d: string)
    requires Plain(a) && Plain(c) && a + ":" + b == c + ":" + d
    ensures a == c && b == d
  {
    var s := a + ":" + b;
    assert s == c + ":" + d;
    assert s[|a|] == ':' && s[|c|] == ':';
    assert forall i | 0 <= i < |a| :: s[i] == a[i] && a[i] in a;
    assert forall i | 0 <= i < |c| :: s[i] == c[i] && c[i] in c;
    assert |a| == |c|;
    assert a == s[..|a|] == c;
    assert b == s[|a| + 1..] == d;
  }

  /** Two triggers share a dispatch key if and only if they share source, type and slot; a blank slot is "unknown". */
  lemma DispatchKeyInjective(source: string, scheduleType: string, slot: string,
                             source': string, scheduleType': string, slot': string)
    requires Plain(source) && Plain(source') && Plain(scheduleType) && Plain(scheduleType')
    ensures DispatchKey(source, scheduleType, slot) == DispatchKey(source', scheduleType', slot') <==>
              && source == source' && scheduleType == scheduleType'
              && (slot == slot' || (slot in {"", "unknown"} && slot' in {"", "unknown"}))
  {
    var named, named' := if slot == "" then "unknown" else slot, if slot' == "" then "unknown" else slot';
    var rest, rest' := scheduleType + ":" + named, scheduleType' + ":" + named';
    assert source + ":" + rest == DispatchKey(source, scheduleType, slot);
    assert source' + ":" + rest' == DispatchKey(source', scheduleType', slot');
    if source + ":" + rest == source' + ":" + rest' {
      SplitAtColon(source, rest, source', rest');
      SplitAtColon(scheduleType, named, scheduleType', named');
    }
  }
}
