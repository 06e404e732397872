/**
  Consolidation passes and upserts that write to one store at the same time. A pass lists facts, ranks them
  and then retires the losers in separate database calls with no lock around them, so any number of passes
  and upserts interleave, and each may stop anywhere.
 */
module MemoryWriters {
  import opened Common
  import opened Consolidation
  import opened ConsolidationLaws
  import opened Grouping
  import opened Memory
  import opened Supersession
  import opened Tournament
  import opened Upserts
  import U = UpsertOverlap

  /** A retirement that a pass has decided on. */
  datatype Edge = Edge(loser: nat, winner: nat)

  /** What a pass over the listed facts is going to write, in whatever order. */
  function PlanOf(items: seq<Fact>, now: real): set<Edge> {
    set f | f in items && Placed(Rivals(items, f), f, now) != f ::
      Edge(f.id, Placed(Rivals(items, f), f, now).supersededBy.value)
  }

  /** The store with the upserts in flight, and what each pass in flight has yet to write. */
  datatype Desk = Desk(shelf: U.Shelf, passes: map<nat, set<Edge>>)

  datatype Step =
    | Upsert(step: U.Step)
    | Scan(p: nat, items: seq<Fact>, now: real)
    | Write(p: nat, e: Edge)
    | Quit(p: nat)

  predicate Sound(d: Desk) {
    && U.Sound(d.shelf)
    && forall p, e | p in d.passes && e in d.passes[p] :: e.loser in d.shelf.store && e.winner in d.shelf.store
  }

  predicate CanDo(d: Desk, step: Step) {
    match step
    case Upsert(u) => U.CanTake(d.shelf, u)
    case Scan(p, items, _) => p !in d.passes && Listed(d.shelf.store, items)
    case Write(p, e) => p in d.passes && e in d.passes[p]
    case Quit(p) => p in d.passes
  }

  function Do(d: Desk, step: Step): Desk
    requires Sound(d) && CanDo(d, step)
  {
    match step
    case Upsert(u) => d.(shelf := U.Take(d.shelf, u))
    case Scan(p, items, now) => d.(passes := d.passes[p := PlanOf(items, now)])
    case Write(p, e) =>
      Desk(d.shelf.(store := Retire(d.shelf.store, e.loser, e.winner)), d.passes[p := d.passes[p] - {e}])
    case Quit(p) => d.(passes := d.passes - {p})
  }

  /** A planned retirement is of a listed fact for a listed one of higher rank. */
  lemma PlanRises(store: Store, items: seq<Fact>, now: real, e: Edge)
    requires Keyed(store) && Listed(store, items) && e in PlanOf(items, now)
    ensures e.loser in store && e.winner in store && store[e.loser] in items && store[e.winner] in items
    ensures Beats(store[e.winner], store[e.loser], now)
  {
    var f :| f in items && Placed(Rivals(items, f), f, now) != f &&
             e == Edge(f.id, Placed(Rivals(items, f), f, now).supersededBy.value);
    var rows := Rivals(items, f);
    PlaceOf(store, items, f, now);
    ValueBestBeats(rows, f, now);
    BestIsBest(rows, now);
    assert Best(rows, now).id == f.id ==> Best(rows, now) == f;
  }

  lemma SoundDo(d: Desk, step: Step)
    requires Sound(d) && CanDo(d, step)
    ensures Sound(Do(d, step))
  {
    match step
    case Upsert(u) => U.SoundStep(d.shelf, u);
    case Scan(_, items, now) =>
      forall e | e in PlanOf(items, now) ensures e.loser in d.shelf.store && e.winner in d.shelf.store {
        PlanRises(d.shelf.store, items, now, e);
      }
    case _ =>
  }

  /** Each write takes one retirement off the plan of its pass, so a pass writes no more than it planned. */
  lemma WriteShortensPlan(d: Desk, step: Step)
    requires Sound(d) && CanDo(d, step) && step.Write?
    ensures step.p in Do(d, step).passes && |Do(d, step).passes[step.p]| == |d.passes[step.p]| - 1
  {
  }

  // ---- A pass on its own ----

  predicate Planned(plan: set<Edge>, id: nat) { exists e | e in plan :: e.loser == id }

  /** The plan takes the one store to the other. */
  predicate LeadsTo(store: Store, plan: set<Edge>, after: Store) {
    && store.Keys == after.Keys
    && (forall e | e in plan :: e.loser in store && after[e.loser] == store[e.loser].Retired(e.winner))
    && (forall id | id in store && !Planned(plan, id) :: after[id] == store[id])
  }

  lemma PlanPlaces(store: Store, items: seq<Fact>, now: real, e: Edge)
    requires Keyed(store) && Listed(store, items) && e in PlanOf(items, now)
    ensures e.loser in store && Consolidated(store, items, now)[e.loser] == store[e.loser].Retired(e.winner)
  {
    var f :| f in items && Placed(Rivals(items, f), f, now) != f &&
             e == Edge(f.id, Placed(Rivals(items, f), f, now).supersededBy.value);
    PlaceOf(store, items, f, now);
  }

  lemma UnplannedStays(store: Store, items: seq<Fact>, now: real, id: nat)
    requires Keyed(store) && Listed(store, items) && id in store
    ensures Planned(PlanOf(items, now), id) || Consolidated(store, items, now)[id] == store[id]
  {
    var f := store[id];
    if f in items && Placed(Rivals(items, f), f, now) != f {
      assert Edge(id, Placed(Rivals(items, f), f, now).supersededBy.value) in PlanOf(items, now);
    }
  }

  lemma PlanLeadsToConsolidated(store: Store, items: seq<Fact>, now: real)
    requires Keyed(store) && Listed(store, items)
    ensures LeadsTo(store, PlanOf(items, now), Consolidated(store, items, now))
  {
    forall e | e in PlanOf(items, now)
      ensures e.loser in store && Consolidated(store, items, now)[e.loser] == store[e.loser].Retired(e.winner)
    {
      PlanPlaces(store, items, now, e);
    }
    forall id | id in store && !Planned(PlanOf(items, now), id)
      ensures Consolidated(store, items, now)[id] == store[id]
    {
      UnplannedStays(store, items, now, id);
    }
  }

  function Written(store: Store, edges: seq<Edge>): (r: Store)
    requires forall e | e in edges :: e.loser in store
    ensures r.Keys == store.Keys
  {
    if edges == [] then store else Retire(Written(store, Init(edges)), Last(edges).loser, Last(edges).winner)
  }

  /** The facts whose retirement is written are where the plan takes them, the others where they were. */
  lemma {:induction false} WrittenSoFar(store: Store, plan: set<Edge>, after: Store, edges: seq<Edge>, id: nat)
    requires LeadsTo(store, plan, after) && id in store
    requires forall e | e in edges :: e in plan && e.loser in store
    ensures Written(store, edges)[id] == if exists e | e in edges :: e.loser == id then after[id] else store[id]
  {
    if edges != [] {
      var front, last := Init(edges), Last(edges);
      assert edges == front + [last] && last in edges;
      assert forall e | e in front :: e in edges;
      WrittenSoFar(store, plan, after, front, id);
    }
  }

  /** A plan written out alone, in any order, consolidates the listed facts. */
  lemma PassAloneConsolidates(store: Store, items: seq<Fact>, now: real, edges: seq<Edge>)
    requires Keyed(store) && Listed(store, items)
    requires (set e | e in edges) == PlanOf(items, now) && forall e | e in edges :: e.loser in store
    ensures Written(store, edges) == Consolidated(store, items, now)
  {
    PlanLeadsToConsolidated(store, items, now);
    assert forall e :: e in edges <==> e in PlanOf(items, now);
    forall id | id in store ensures Written(store, edges)[id] == Consolidated(store, items, now)[id] {
      WrittenSoFar(store, PlanOf(items, now), Consolidated(store, items, now), edges, id);
    }
  }

  // ---- Histories ----

  /** A history of writers in which every step is one that `allowed` admits. */
  predicate LegalUnder(d: Desk, steps: seq<Step>, allowed: (Desk, Step) -> bool)
    decreases |steps|
  {
    steps == [] ||
    (&& Sound(d) && CanDo(d, steps[0]) && allowed(d, steps[0])
     && LegalUnder(Do(d, steps[0]), steps[1..], allowed))
  }

  function After(d: Desk, steps: seq<Step>, allowed: (Desk, Step) -> bool): Desk
    requires LegalUnder(d, steps, allowed)
    decreases |steps|
  {
    if steps == [] then d else After(Do(d, steps[0]), steps[1..], allowed)
  }

  predicate Anything(d: Desk, step: Step) { true }

  function Idle(store: Store): Desk { Desk(U.Shelf(store, map[]), map[]) }

  // ---- The exact condition, write by write ----

  /** The step retires a fact, if any, for one that leads to an active fact without passing the retired one. */
  ghost predicate Safe(d: Desk, step: Step)
    requires Sound(d) && CanDo(d, step)
  {
    match step
    case Write(_, e) => GoesAround(d.shelf.store, e.winner, e.loser)
    case Upsert(Replace(u)) => GoesAround(d.shelf.store, d.shelf.flights[u].id, d.shelf.flights[u].holder)
    case _ => true
  }

  lemma StepKeepsGroundedIff(d: Desk, step: Step)
    requires Sound(d) && CanDo(d, step) && Grounded(d.shelf.store)
    ensures Grounded(Do(d, step).shelf.store) <==> Safe(d, step)
  {
    var store := d.shelf.store;
    match step
    case Write(_, e) =>
      RetireKeepsGroundedIff(store, e.loser, e.winner);
    case Upsert(Replace(u)) =>
      assert U.FlightOk(store, d.shelf.flights[u]);
      RetireKeepsGroundedIff(store, d.shelf.flights[u].holder, d.shelf.flights[u].id);
    case Upsert(Add(u, id, created)) =>
      if !d.shelf.flights[u].declines {
        AddKeepsGrounded(store, NewFact(d.shelf.flights[u].c, id, created));
      }
    case _ =>
  }

  ghost predicate GroundedThroughout(d: Desk, steps: seq<Step>)
    requires LegalUnder(d, steps, Anything)
    decreases |steps|
  {
    Grounded(d.shelf.store) && (steps == [] || GroundedThroughout(Do(d, steps[0]), steps[1..]))
  }

  ghost predicate SafeThroughout(d: Desk, steps: seq<Step>)
    requires LegalUnder(d, steps, Anything)
    decreases |steps|
  {
    steps == [] || (Safe(d, steps[0]) && SafeThroughout(Do(d, steps[0]), steps[1..]))
  }

  /** From a grounded store on, a history stays grounded if and only if every write of it is safe when it comes. */
  lemma {:induction false} StaysGroundedIff(d: Desk, steps: seq<Step>)
    requires LegalUnder(d, steps, Anything) && Grounded(d.shelf.store)
    ensures GroundedThroughout(d, steps) <==> SafeThroughout(d, steps)
    decreases |steps|
  {
    if steps != [] {
      StepKeepsGroundedIff(d, steps[0]);
      if Safe(d, steps[0]) {
        StaysGroundedIff(Do(d, steps[0]), steps[1..]);
      }
    }
  }

  // ---- Writers that agree on the ranks ----

  /** The retirement is of a fact that was active at the start for one of higher rank. */
  predicate Rises(store: Store, frozen: set<nat>, loser: nat, winner: nat, clock: real) {
    && loser in store && winner in store && loser !in frozen && winner !in frozen
    && Beats(store[winner], store[loser], clock)
  }

  /** Facts retired at the start are frozen; the others are active or point to one of higher rank. */
  predicate RisingStore(store: Store, frozen: set<nat>, clock: real) {
    && (forall id | id in frozen :: id in store && !store[id].active)
    && forall id | id in store && id !in frozen && !store[id].active ::
         store[id].supersededBy.Some? && Rises(store, frozen, id, store[id].supersededBy.value, clock)
  }

  predicate RisingFlight(store: Store, frozen: set<nat>, f: U.Flight, clock: real) {
    match f
    case Looked(_, found, _) => found.Some? ==> found.value.id !in frozen
    case Added(holder, id) => Rises(store, frozen, holder, id, clock)
  }

  predicate Ranked(d: Desk, frozen: set<nat>, clock: real) {
    && RisingStore(d.shelf.store, frozen, clock)
    && (forall u | u in d.shelf.flights :: RisingFlight(d.shelf.store, frozen, d.shelf.flights[u], clock))
    && forall p, e | p in d.passes && e in d.passes[p] :: Rises(d.shelf.store, frozen, e.loser, e.winner, clock)
  }

  predicate Outranks(store: Store, c: Candidate, found: Option<Fact>, id: nat, created: real, clock: real) {
    found.Some? && found.value.id in store ==> Beats(NewFact(c, id, created), store[found.value.id], clock)
  }

  /** Passes rank what they list as at the given clock, and an upsert adds a fact that outranks what it replaces. */
  predicate InStep(d: Desk, step: Step, clock: real) {
    match step
    case Scan(_, items, now) => forall f, g | f in items && g in items :: Beats(f, g, now) <==> Beats(f, g, clock)
    case Upsert(Add(u, id, created)) =>
      u in d.shelf.flights && d.shelf.flights[u].Looked? && !d.shelf.flights[u].declines ==>
        Outranks(d.shelf.store, d.shelf.flights[u].c, d.shelf.flights[u].found, id, created, clock)
    case _ => true
  }

  /** Retiring changes nobody's rank. */
  lemma RisesAfterRetire(store: Store, frozen: set<nat>, l: nat, w: nat, a: nat, b: nat, clock: real)
    requires l in store && Rises(store, frozen, a, b, clock)
    ensures Rises(Retire(store, l, w), frozen, a, b, clock)
  {
  }

  lemma RetireKeepsRising(store: Store, frozen: set<nat>, l: nat, w: nat, clock: real)
    requires RisingStore(store, frozen, clock) && Rises(store, frozen, l, w, clock)
    ensures RisingStore(Retire(store, l, w), frozen, clock)
  {
    RisesAfterRetire(store, frozen, l, w, l, w, clock);
    forall id | id in store && id != l && id !in frozen && !store[id].active
      ensures Rises(Retire(store, l, w), frozen, id, store[id].supersededBy.value, clock)
    {
      RisesAfterRetire(store, frozen, l, w, id, store[id].supersededBy.value, clock);
    }
  }

  /** Following rising edges never comes back, so a rising retirement keeps the store grounded. */
  lemma RisingRetireKeepsGrounded(store: Store, frozen: set<nat>, l: nat, w: nat, clock: real)
    requires Grounded(store) && RisingStore(store, frozen, clock) && Rises(store, frozen, l, w, clock)
    ensures Grounded(Retire(store, l, w))
  {
    var up := set id | id in store && id !in frozen && Beats(store[id], store[l], clock);
    forall id | id in up && !store[id].active ensures store[id].supersededBy.value in up {
      var next := store[id].supersededBy.value;
      AboveIsStrictOrder(RankOf(store[next], clock), RankOf(store[id], clock), RankOf(store[l], clock));
    }
    AboveIsStrictOrder(RankOf(store[l], clock), RankOf(store[l], clock), RankOf(store[l], clock));
    RetireOutsideClosed(store, up, l, w);
  }

  /** A retirement that rises keeps everything else rising, too. */
  lemma RetireKeepsRanked(d: Desk, frozen: set<nat>, l: nat, w: nat, clock: real)
    requires Ranked(d, frozen, clock) && Rises(d.shelf.store, frozen, l, w, clock)
    ensures Ranked(d.(shelf := d.shelf.(store := Retire(d.shelf.store, l, w))), frozen, clock)
  {
    RetireKeepsRising(d.shelf.store, frozen, l, w, clock);
    forall u | u in d.shelf.flights && d.shelf.flights[u].Added?
      ensures Rises(Retire(d.shelf.store, l, w), frozen, d.shelf.flights[u].holder, d.shelf.flights[u].id, clock)
    {
      assert RisingFlight(d.shelf.store, frozen, d.shelf.flights[u], clock);
      RisesAfterRetire(d.shelf.store, frozen, l, w, d.shelf.flights[u].holder, d.shelf.flights[u].id, clock);
    }
    forall p, e | p in d.passes && e in d.passes[p]
      ensures Rises(Retire(d.shelf.store, l, w), frozen, e.loser, e.winner, clock)
    {
      RisesAfterRetire(d.shelf.store, frozen, l, w, e.loser, e.winner, clock);
    }
  }

  lemma RankedWrite(d: Desk, step: Step, frozen: set<nat>, clock: real)
    requires Sound(d) && CanDo(d, step) && step.Write?
    requires Ranked(d, frozen, clock) && Grounded(d.shelf.store)
    ensures Ranked(Do(d, step), frozen, clock) && Grounded(Do(d, step).shelf.store)
  {
    RetireKeepsRanked(d, frozen, step.e.loser, step.e.winner, clock);
    RisingRetireKeepsGrounded(d.shelf.store, frozen, step.e.loser, step.e.winner, clock);
  }

  lemma RankedReplace(d: Desk, u: nat, frozen: set<nat>, clock: real)
    requires Sound(d) && CanDo(d, Upsert(U.Replace(u)))
    requires Ranked(d, frozen, clock) && Grounded(d.shelf.store)
    ensures Ranked(Do(d, Upsert(U.Replace(u))), frozen, clock)
    ensures Grounded(Do(d, Upsert(U.Replace(u))).shelf.store)
  {
    var f := d.shelf.flights[u];
    assert RisingFlight(d.shelf.store, frozen, f, clock);
    RetireKeepsRanked(d, frozen, f.holder, f.id, clock);
    RisingRetireKeepsGrounded(d.shelf.store, frozen, f.holder, f.id, clock);
  }

  lemma RankedScan(d: Desk, step: Step, frozen: set<nat>, clock: real)
    requires Sound(d) && CanDo(d, step) && step.Scan? && InStep(d, step, clock) && Ranked(d, frozen, clock)
    ensures Ranked(Do(d, step), frozen, clock)
  {
    forall e | e in PlanOf(step.items, step.now) ensures Rises(d.shelf.store, frozen, e.loser, e.winner, clock) {
      PlanRises(d.shelf.store, step.items, step.now, e);
    }
  }

  lemma RankedLook(d: Desk, step: Step, frozen: set<nat>, clock: real)
    requires Sound(d) && CanDo(d, step) && step.Upsert? && step.step.Look? && Ranked(d, frozen, clock)
    ensures Ranked(Do(d, step), frozen, clock)
  {
  }

  lemma RisesAfterAdd(store: Store, frozen: set<nat>, f: Fact, a: nat, b: nat, clock: real)
    requires f.id !in store && Rises(store, frozen, a, b, clock)
    ensures Rises(store[f.id := f], frozen, a, b, clock)
  {
  }

  lemma AddKeepsRising(store: Store, frozen: set<nat>, f: Fact, clock: real)
    requires RisingStore(store, frozen, clock) && f.id !in store && f.active
    ensures RisingStore(store[f.id := f], frozen, clock) && f.id !in frozen
  {
    forall id | id in store && id !in frozen && !store[id].active
      ensures Rises(store[f.id := f], frozen, id, store[id].supersededBy.value, clock)
    {
      RisesAfterAdd(store, frozen, f, id, store[id].supersededBy.value, clock);
    }
  }

  lemma AddKeepsRanked(d: Desk, frozen: set<nat>, f: Fact, clock: real)
    requires Ranked(d, frozen, clock) && f.id !in d.shelf.store && f.active
    ensures Ranked(d.(shelf := d.shelf.(store := d.shelf.store[f.id := f])), frozen, clock) && f.id !in frozen
  {
    AddKeepsRising(d.shelf.store, frozen, f, clock);
    forall u | u in d.shelf.flights ensures RisingFlight(d.shelf.store[f.id := f], frozen, d.shelf.flights[u], clock) {
      assert RisingFlight(d.shelf.store, frozen, d.shelf.flights[u], clock);
    }
    forall p, e | p in d.passes && e in d.passes[p]
      ensures Rises(d.shelf.store[f.id := f], frozen, e.loser, e.winner, clock)
    {
      RisesAfterAdd(d.shelf.store, frozen, f, e.loser, e.winner, clock);
    }
  }

  lemma RankedAdd(d: Desk, step: Step, frozen: set<nat>, clock: real)
    requires Sound(d) && CanDo(d, step) && step.Upsert? && step.step.Add? && InStep(d, step, clock)
    requires Ranked(d, frozen, clock) && Grounded(d.shelf.store)
    ensures Ranked(Do(d, step), frozen, clock) && Grounded(Do(d, step).shelf.store)
  {
    var f, id := d.shelf.flights[step.step.u], step.step.id;
    assert U.FlightOk(d.shelf.store, f) && RisingFlight(d.shelf.store, frozen, f, clock);
    if !f.declines {
      assert id !in d.shelf.store;
      AddKeepsGrounded(d.shelf.store, NewFact(f.c, id, step.step.created));
      AddKeepsRanked(d, frozen, NewFact(f.c, id, step.step.created), clock);
    }
  }

  lemma RankedStep(d: Desk, step: Step, frozen: set<nat>, clock: real)
    requires Sound(d) && CanDo(d, step) && InStep(d, step, clock)
    requires Ranked(d, frozen, clock) && Grounded(d.shelf.store)
    ensures Ranked(Do(d, step), frozen, clock) && Grounded(Do(d, step).shelf.store)
  {
    match step
    case Write(_, _) => RankedWrite(d, step, frozen, clock);
    case Scan(_, _, _) => RankedScan(d, step, frozen, clock);
    case Upsert(Replace(u)) => RankedReplace(d, u, frozen, clock);
    case Upsert(Look(_, _, _, _)) => RankedLook(d, step, frozen, clock);
    case Upsert(Add(_, _, _)) => RankedAdd(d, step, frozen, clock);
    case _ =>
  }

  lemma {:induction false} RankedHistory(d: Desk, steps: seq<Step>, frozen: set<nat>, clock: real)
    requires LegalUnder(d, steps, (d, step) => InStep(d, step, clock))
    requires Sound(d) && Ranked(d, frozen, clock) && Grounded(d.shelf.store)
    ensures Grounded(After(d, steps, (d, step) => InStep(d, step, clock)).shelf.store)
    decreases |steps|
  {
    if steps != [] {
      SoundDo(d, steps[0]);
      RankedStep(d, steps[0], frozen, clock);
      RankedHistory(Do(d, steps[0]), steps[1..], frozen, clock);
    }
  }

  /**
    Any number of overlapping passes and upserts keep the store grounded, wherever they stop, as long as all
    passes rank alike and every upsert adds a fact that outranks the one it replaces.
   */
  lemma WritersInStepStayGrounded(store: Store, steps: seq<Step>, clock: real)
    requires Keyed(store) && Grounded(store)
    requires LegalUnder(Idle(store), steps, (d, step) => InStep(d, step, clock))
    ensures Grounded(After(Idle(store), steps, (d, step) => InStep(d, step, clock)).shelf.store)
  {
    var frozen := set id | id in store && !store[id].active;
    RankedHistory(Idle(store), steps, frozen, clock);
  }
}
