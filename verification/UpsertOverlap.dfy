/**
  Overlapping upserts, of any keys. An upsert lists the newest facts, later adds its own and later still
  retires the fact it had found: three database calls with no lock around them, so any number of upserts
  interleave, and one may die between any two calls.
 */
module UpsertOverlap {
  import opened Common
  import opened Memory
  import opened Supersession
  import opened Upserts

  /** An upsert after its lookup, or after adding a fact that is to replace `holder`. */
  datatype Flight = Looked(c: Candidate, found: Option<Fact>, declines: bool) | Added(holder: nat, id: nat)

  datatype Shelf = Shelf(store: Store, flights: map<nat, Flight>)

  datatype Step =
    | Look(u: nat, c: Candidate, rows: seq<Fact>, found: Option<Fact>)
    | Add(u: nat, id: nat, created: real)
    | Replace(u: nat)
    | Die(u: nat)

  /** All ids are below the given one, as those the database has assigned so far are. */
  predicate Below(store: Store, id: nat) { forall k | k in store :: k < id }

  /** The newest listed fact with the candidate's key; a missing or empty key is not looked up. */
  predicate Finding(rows: seq<Fact>, c: Candidate, found: Option<Fact>) {
    if c.key.None? || c.key.value == "" then found.None? else IsLatest(rows, c.key.value, found)
  }

  predicate CanTake(s: Shelf, step: Step) {
    match step
    case Look(u, c, rows, found) =>
      u !in s.flights && Newest(s.store, rows, LOOKUP_LIMIT) && Finding(rows, c, found)
    case Add(u, id, _) => u in s.flights && s.flights[u].Looked? && id > 0 && Below(s.store, id)
    case Replace(u) => u in s.flights && s.flights[u].Added?
    case Die(u) => u in s.flights
  }

  /** The upsert will answer with the fact it found and write nothing. */
  predicate Declines(c: Candidate, found: Option<Fact>) { found.Some? && Keeps(found.value, c) }

  /** What an upsert in flight refers to is stored and has its key, and its own fact is newer. */
  predicate FlightOk(store: Store, f: Flight) {
    match f
    case Looked(c, found, _) =>
      found.Some? ==> found.value.id in store && c.key.Some? && Holds(store[found.value.id], c.key.value)
    case Added(holder, id) =>
      holder in store && id in store && holder < id && Holds(store[holder], store[id].factKey.Printed())
  }

  predicate Sound(s: Shelf) {
    Keyed(s.store) && forall u | u in s.flights :: FlightOk(s.store, s.flights[u])
  }

  function Take(s: Shelf, step: Step): Shelf
    requires Sound(s) && CanTake(s, step)
  {
    match step
    case Look(u, c, _, found) => s.(flights := s.flights[u := Looked(c, found, Declines(c, found))])
    case Add(u, id, created) =>
      var f := s.flights[u];
      if f.declines then s.(flights := s.flights - {u})
      else
        Shelf(s.store[id := NewFact(f.c, id, created)],
              if f.found.None? then s.flights - {u} else s.flights[u := Added(f.found.value.id, id)])
    case Replace(u) =>
      Shelf(Retire(s.store, s.flights[u].holder, s.flights[u].id), s.flights - {u})
    case Die(u) => s.(flights := s.flights - {u})
  }

  lemma SoundStep(s: Shelf, step: Step)
    requires Sound(s) && CanTake(s, step)
    ensures Sound(Take(s, step))
  {
  }

  // ---- Counting the holders that will stay ----

  /** Some upsert in flight is about to retire the fact. */
  predicate Doomed(flights: map<nat, Flight>, id: nat) {
    exists u | u in flights :: flights[u].Added? && flights[u].holder == id
  }

  /** The key a stored candidate holds; without one it holds the word a null prints as. */
  function KeyOf(c: Candidate): string { NewFact(c, 0, 0.0).factKey.Printed() }

  function Holders(store: Store, key: string): set<nat> { set id | id in store && ActiveHolder(store, key, id) }

  /** The active holders that no upsert in flight is about to retire. */
  function Staying(s: Shelf, key: string): set<nat> {
    set id | id in s.store && ActiveHolder(s.store, key, id) && !Doomed(s.flights, id)
  }

  /**
    The step leaves one more staying holder. An upsert adds one too many exactly when it had found none, or when
    what it found is by now retired or about to be; one that dies in the middle, when nobody else retires what
    it was to retire.
   */
  predicate Misses(s: Shelf, key: string, step: Step)
    requires CanTake(s, step)
  {
    match step
    case Add(u, _, _) =>
      var f := s.flights[u];
      !f.declines && KeyOf(f.c) == key && (f.found.None? || f.found.value.id !in Staying(s, key))
    case Die(u) =>
      var f := s.flights[u];
      f.Added? && ActiveHolder(s.store, key, f.holder) && !Doomed(s.flights - {u}, f.holder)
    case _ => false
  }

  function One(b: bool): nat { if b then 1 else 0 }

  lemma LookKeeps(s: Shelf, key: string, step: Step)
    requires Sound(s) && CanTake(s, step) && step.Look?
    ensures Sound(Take(s, step)) && Staying(Take(s, step), key) == Staying(s, key)
  {
    var s' := Take(s, step);
    forall id ensures Doomed(s'.flights, id) <==> Doomed(s.flights, id) {
      if u :| u in s.flights && s.flights[u].Added? && s.flights[u].holder == id {
        assert s'.flights[u] == s.flights[u];
      }
    }
  }

  /** Without one of its flights a shelf dooms what it did, but for that flight's holder. */
  lemma DoomedWithout(flights: map<nat, Flight>, u: nat, id: nat)
    requires u in flights && !(flights[u].Added? && flights[u].holder == id)
    ensures Doomed(flights - {u}, id) <==> Doomed(flights, id)
  {
    if v :| v in flights && flights[v].Added? && flights[v].holder == id {
      assert v in flights - {u} && (flights - {u})[v] == flights[v];
    }
  }

  lemma ReplaceKeeps(s: Shelf, key: string, step: Step)
    requires Sound(s) && CanTake(s, step) && step.Replace?
    ensures Sound(Take(s, step)) && Staying(Take(s, step), key) == Staying(s, key)
  {
    var s', f := Take(s, step), s.flights[step.u];
    assert Doomed(s.flights, f.holder);
    forall id | id != f.holder ensures Doomed(s'.flights, id) <==> Doomed(s.flights, id) {
      DoomedWithout(s.flights, step.u, id);
    }
  }

  lemma DieChanges(s: Shelf, key: string, step: Step)
    requires Sound(s) && CanTake(s, step) && step.Die?
    ensures Sound(Take(s, step))
    ensures Staying(Take(s, step), key)
         == if Misses(s, key, step) then Staying(s, key) + {s.flights[step.u].holder} else Staying(s, key)
    ensures Misses(s, key, step) ==> s.flights[step.u].holder !in Staying(s, key)
  {
    var s', f := Take(s, step), s.flights[step.u];
    if f.Added? {
      assert Doomed(s.flights, f.holder);
    }
    forall id | !(f.Added? && f.holder == id) ensures Doomed(s'.flights, id) <==> Doomed(s.flights, id) {
      DoomedWithout(s.flights, step.u, id);
    }
  }

  lemma DeclineKeeps(s: Shelf, key: string, step: Step)
    requires Sound(s) && CanTake(s, step) && step.Add? && s.flights[step.u].declines
    ensures Sound(Take(s, step)) && Staying(Take(s, step), key) == Staying(s, key)
  {
    forall id ensures Doomed(s.flights - {step.u}, id) <==> Doomed(s.flights, id) {
      DoomedWithout(s.flights, step.u, id);
    }
  }

  /** What is doomed once an upsert has added its fact: what was, and the fact it found. */
  lemma DoomedAfterAdd(s: Shelf, step: Step, id: nat)
    requires Sound(s) && CanTake(s, step) && step.Add? && !s.flights[step.u].declines
    ensures Doomed(Take(s, step).flights, id) <==>
              Doomed(s.flights, id) || (s.flights[step.u].found.Some? && s.flights[step.u].found.value.id == id)
  {
    var f, flights' := s.flights[step.u], Take(s, step).flights;
    if f.found.None? {
      DoomedWithout(s.flights, step.u, id);
    } else {
      if v :| v in s.flights && s.flights[v].Added? && s.flights[v].holder == id {
        assert v in flights' && flights'[v] == s.flights[v];
      }
      if f.found.value.id == id {
        assert flights'[step.u].holder == id;
      }
    }
  }

  /** An added fact of the key stays, and what it is to replace does not; one of another key changes nothing. */
  lemma AddChanges(s: Shelf, key: string, step: Step)
    requires Sound(s) && CanTake(s, step) && step.Add? && !s.flights[step.u].declines
    ensures Sound(Take(s, step)) && step.id !in Staying(s, key)
    ensures var f := s.flights[step.u];
            Staying(Take(s, step), key)
            == if KeyOf(f.c) != key then Staying(s, key)
               else Staying(s, key) - (if f.found.Some? then {f.found.value.id} else {}) + {step.id}
  {
    var s', f := Take(s, step), s.flights[step.u];
    forall id ensures Doomed(s'.flights, id) <==>
        Doomed(s.flights, id) || (f.found.Some? && f.found.value.id == id)
    {
      DoomedAfterAdd(s, step, id);
    }
    assert step.id !in s.store;
    assert !Doomed(s.flights, step.id);
    assert FlightOk(s.store, f);
  }

  /** Every step leaves as many staying holders as before, and one more exactly when it misses. */
  lemma StepCounts(s: Shelf, key: string, step: Step)
    requires Sound(s) && CanTake(s, step)
    ensures Sound(Take(s, step))
    ensures |Staying(Take(s, step), key)| == |Staying(s, key)| + One(Misses(s, key, step))
  {
    match step
    case Look(_, _, _, _) => LookKeeps(s, key, step);
    case Replace(_) => ReplaceKeeps(s, key, step);
    case Die(_) => DieChanges(s, key, step);
    case Add(u, id, _) =>
      if s.flights[u].declines {
        DeclineKeeps(s, key, step);
      } else {
        AddChanges(s, key, step);
      }
  }

  // ---- Histories ----

  predicate Legal(s: Shelf, steps: seq<Step>)
    decreases |steps|
  {
    steps == [] ||
    (Sound(s) && CanTake(s, steps[0]) && Legal(Take(s, steps[0]), steps[1..]))
  }

  function After(s: Shelf, steps: seq<Step>): Shelf
    requires Legal(s, steps)
    decreases |steps|
  {
    if steps == [] then s else After(Take(s, steps[0]), steps[1..])
  }

  /** How many steps of a history missed. */
  function Missed(s: Shelf, key: string, steps: seq<Step>): nat
    requires Legal(s, steps)
    decreases |steps|
  {
    if steps == [] then 0
    else One(Misses(s, key, steps[0])) + Missed(Take(s, steps[0]), key, steps[1..])
  }

  lemma {:induction false} HistoryCounts(s: Shelf, key: string, steps: seq<Step>)
    requires Sound(s) && Legal(s, steps)
    ensures Sound(After(s, steps))
    ensures |Staying(After(s, steps), key)| == |Staying(s, key)| + Missed(s, key, steps)
    decreases |steps|
  {
    if steps != [] {
      StepCounts(s, key, steps[0]);
      HistoryCounts(Take(s, steps[0]), key, steps[1..]);
    }
  }

  lemma AtRestAllStay(s: Shelf, key: string)
    requires s.flights == map[]
    ensures Staying(s, key) == Holders(s.store, key)
  {
  }

  lemma AllTheSame(holders: set<nat>)
    requires forall a, b | a in holders && b in holders :: a == b
    ensures |holders| <= 1
  {
    if holders != {} {
      var a :| a in holders;
      assert holders == {a};
    }
  }

  lemma TwoAreTwo(holders: set<nat>, a: nat, b: nat)
    requires a in holders && b in holders && |holders| <= 1
    ensures a == b
  {
    assert holders == {a, b} + (holders - {a, b});
  }

  lemma OneHolderIff(store: Store, key: string)
    ensures AtMostOneHolder(store, key) <==> |Holders(store, key)| <= 1
  {
    var holders := Holders(store, key);
    if AtMostOneHolder(store, key) {
      AllTheSame(holders);
    }
    if |holders| <= 1 {
      forall a, b | a in holders && b in holders ensures a == b {
        TwoAreTwo(holders, a, b);
      }
      assert forall a | ActiveHolder(store, key, a) :: a in holders;
    }
  }

  /**
    In every interleaving of upserts of any keys, once all have ended, a key has as many active holders as before plus
    the steps that missed; so it has at most one if and only if those are at most one together.
   */
  lemma HoldersAfterUpserts(store: Store, key: string, steps: seq<Step>)
    requires Keyed(store) && Legal(Shelf(store, map[]), steps)
    requires After(Shelf(store, map[]), steps).flights == map[]
    ensures var s := Shelf(store, map[]);
            var after := After(s, steps).store;
            && |Holders(after, key)| == |Holders(store, key)| + Missed(s, key, steps)
            && (AtMostOneHolder(after, key) <==> |Holders(store, key)| + Missed(s, key, steps) <= 1)
  {
    var s := Shelf(store, map[]);
    HistoryCounts(s, key, steps);
    AtRestAllStay(s, key);
    AtRestAllStay(After(s, steps), key);
    OneHolderIff(After(s, steps).store, key);
  }

  // ---- It happens ----

  lemma {:induction false} ThenTake(s: Shelf, steps: seq<Step>, step: Step)
    requires Legal(s, steps)
    requires Sound(After(s, steps)) && CanTake(After(s, steps), step)
    ensures Legal(s, steps + [step])
    ensures After(s, steps + [step]) == Take(After(s, steps), step)
    decreases |steps|
  {
    if steps == [] {
      assert Legal(Take(s, step), []);
    } else {
      ThenTake(Take(s, steps[0]), steps[1..], step);
      assert (steps + [step])[1..] == steps[1..] + [step];
    }
  }

  lemma Next(start: Shelf, steps: seq<Step>, s: Shelf, step: Step) returns (steps': seq<Step>, s': Shelf)
    requires Legal(start, steps) && s == After(start, steps) && Sound(s) && CanTake(s, step)
    ensures Legal(start, steps') && s' == After(start, steps') == Take(s, step) && Sound(s')
  {
    ThenTake(start, steps, step);
    SoundStep(s, step);
    steps', s' := steps + [step], Take(s, step);
  }

  /** Both upserts have found the same holder, and neither declines. */
  predicate Rivals(store: Store, key: string, rows: seq<Fact>, h: Fact, c: Candidate, d: Candidate) {
    && Keyed(store) && Newest(store, rows, LOOKUP_LIMIT) && key != "" && IsLatest(rows, key, Some(h))
    && c.key == Some(key) && d.key == Some(key) && !Keeps(h, c) && !Keeps(h, d)
  }

  lemma BothLook(store: Store, key: string, rows: seq<Fact>, h: Fact, c: Candidate, d: Candidate)
      returns (steps: seq<Step>, s: Shelf)
    requires Rivals(store, key, rows, h, c, d)
    ensures Legal(Shelf(store, map[]), steps) && s == After(Shelf(store, map[]), steps) && Sound(s)
    ensures s == Shelf(store, map[0 := Looked(c, Some(h), false), 1 := Looked(d, Some(h), false)])
  {
    steps, s := [], Shelf(store, map[]);
    steps, s := Next(Shelf(store, map[]), steps, s, Look(0, c, rows, Some(h)));
    steps, s := Next(Shelf(store, map[]), steps, s, Look(1, d, rows, Some(h)));
  }

  /** The upsert found the fact and is going to replace it. */
  predicate Finds(f: Flight, key: string, h: nat) {
    f.Looked? && f.c.key == Some(key) && f.found.Some? && f.found.value.id == h && !f.declines
  }

  /** An upsert that found `h` and does not decline adds its fact. */
  lemma Adds(start: Shelf, key: string, steps: seq<Step>, s: Shelf, u: nat, h: nat, id: nat, other: nat)
      returns (steps': seq<Step>, s': Shelf)
    requires Legal(start, steps) && s == After(start, steps) && Sound(s)
    requires u in s.flights && Finds(s.flights[u], key, h)
    requires id > 0 && Below(s.store, id)
    ensures Legal(start, steps') && s' == After(start, steps') && Sound(s')
    ensures s'.flights == s.flights[u := Added(h, id)]
    ensures Below(s'.store, id + 1) && ActiveHolder(s'.store, key, id)
    ensures ActiveHolder(s.store, key, other) ==> ActiveHolder(s'.store, key, other)
  {
    steps', s' := Next(start, steps, s, Add(u, id, 0.0));
  }

  lemma SecondAdds(start: Shelf, key: string, steps: seq<Step>, s: Shelf, h: nat, id: nat)
      returns (steps': seq<Step>, s': Shelf)
    requires Legal(start, steps) && s == After(start, steps) && Sound(s)
    requires s.flights.Keys == {0, 1} && s.flights[0] == Added(h, id) && Finds(s.flights[1], key, h)
    requires Below(s.store, id + 1) && ActiveHolder(s.store, key, id)
    ensures Legal(start, steps') && s' == After(start, steps') && Sound(s')
    ensures s'.flights.Keys == {0, 1} && s'.flights[0] == Added(h, id) && s'.flights[1] == Added(h, id + 1)
    ensures ActiveHolder(s'.store, key, id) && ActiveHolder(s'.store, key, id + 1)
  {
    steps', s' := Adds(start, key, steps, s, 1, h, id + 1, id);
  }

  /** Two upserts that have found the same holder both add their facts. */
  lemma BothAdd(start: Shelf, key: string, steps: seq<Step>, s: Shelf, h: nat, id: nat)
      returns (steps': seq<Step>, s': Shelf)
    requires Legal(start, steps) && s == After(start, steps) && Sound(s)
    requires s.flights.Keys == {0, 1} && id > 0 && Below(s.store, id)
    requires Finds(s.flights[0], key, h) && Finds(s.flights[1], key, h)
    ensures Legal(start, steps') && s' == After(start, steps') && Sound(s')
    ensures s'.flights.Keys == {0, 1} && s'.flights[0] == Added(h, id) && s'.flights[1] == Added(h, id + 1)
    ensures ActiveHolder(s'.store, key, id) && ActiveHolder(s'.store, key, id + 1)
  {
    var mid;
    steps', mid := Adds(start, key, steps, s, 0, h, id, id);
    assert mid.flights.Keys == {0, 1} && mid.flights[0] == Added(h, id) && mid.flights[1] == s.flights[1];
    steps', s' := SecondAdds(start, key, steps', mid, h, id);
  }

  lemma Replaces(start: Shelf, key: string, steps: seq<Step>, s: Shelf, u: nat) returns (steps': seq<Step>, s': Shelf)
    requires Legal(start, steps) && s == After(start, steps) && Sound(s)
    requires u in s.flights && s.flights[u].Added?
    ensures Legal(start, steps') && s' == After(start, steps') && Sound(s')
    ensures s'.flights == s.flights - {u}
    ensures forall id | ActiveHolder(s.store, key, id) && id != s.flights[u].holder :: ActiveHolder(s'.store, key, id)
  {
    steps', s' := Next(start, steps, s, Replace(u));
  }

  lemma BothReplace(start: Shelf, key: string, steps: seq<Step>, s: Shelf, h: nat, id: nat)
      returns (steps': seq<Step>, s': Shelf)
    requires Legal(start, steps) && s == After(start, steps) && Sound(s)
    requires s.flights.Keys == {0, 1} && s.flights[0] == Added(h, id) && s.flights[1] == Added(h, id + 1)
    requires ActiveHolder(s.store, key, id) && ActiveHolder(s.store, key, id + 1)
    ensures Legal(start, steps') && s' == After(start, steps') && s'.flights == map[]
    ensures ActiveHolder(s'.store, key, id) && ActiveHolder(s'.store, key, id + 1)
  {
    assert FlightOk(s.store, s.flights[0]);
    steps', s' := Replaces(start, key, steps, s, 0);
    steps', s' := Replaces(start, key, steps', s', 1);
  }

  /** Two upserts that both list before either writes leave both their facts active, whatever the page hides. */
  lemma OverlapDuplicatesHolder(store: Store, key: string, rows: seq<Fact>, h: Fact, c: Candidate, d: Candidate,
                                id: nat)
      returns (steps: seq<Step>)
    requires Rivals(store, key, rows, h, c, d) && id > 0 && Below(store, id)
    ensures Legal(Shelf(store, map[]), steps)
    ensures var after := After(Shelf(store, map[]), steps);
            && after.flights == map[]
            && ActiveHolder(after.store, key, id) && ActiveHolder(after.store, key, id + 1)
  {
    var start, s := Shelf(store, map[]), Shelf(store, map[]);
    steps, s := BothLook(store, key, rows, h, c, d);
    steps, s := BothAdd(start, key, steps, s, h.id, id);
    steps, s := BothReplace(start, key, steps, s, h.id, id);
  }

  // ---- No cycles ----

  /** Retired facts point to newer ones. */
  predicate Climbing(store: Store) {
    forall id | id in store && !store[id].active ::
      store[id].supersededBy.Some? && store[id].supersededBy.value in store && id < store[id].supersededBy.value
  }

  lemma ClimbingStep(s: Shelf, step: Step)
    requires Sound(s) && CanTake(s, step) && Climbing(s.store)
    ensures Climbing(Take(s, step).store)
  {
  }

  lemma {:induction false} ClimbingLeads(store: Store, id: nat, top: nat)
    requires Climbing(store) && id in store && id <= top && forall other | other in store :: other <= top
    ensures Leads(store, id, top - id)
    decreases top - id
  {
    if !store[id].active {
      var next := store[id].supersededBy.value;
      ClimbingLeads(store, next, top);
      LeadsLonger(store, next, top - next, top - id - 1);
    }
  }

  lemma {:induction false} HasTop(ids: set<nat>) returns (top: nat)
    ensures forall id | id in ids :: id <= top
    decreases |ids|
  {
    top := 0;
    if ids != {} {
      var id :| id in ids;
      var below := HasTop(ids - {id});
      top := Max(below, id);
      assert forall other | other in ids :: other == id || other in ids - {id};
    }
  }

  /** Upserts alone never form a cycle or a dead end, however they overlap and wherever they die. */
  lemma {:induction false} UpsertsStayGrounded(s: Shelf, steps: seq<Step>)
    requires Sound(s) && Climbing(s.store) && Legal(s, steps)
    ensures Climbing(After(s, steps).store) && Grounded(After(s, steps).store)
    decreases |steps|
  {
    if steps == [] {
      var top := HasTop(s.store.Keys);
      forall id | id in s.store ensures exists n: nat :: Leads(s.store, id, n) {
        ClimbingLeads(s.store, id, top);
      }
    } else {
      SoundStep(s, steps[0]);
      ClimbingStep(s, steps[0]);
      UpsertsStayGrounded(Take(s, steps[0]), steps[1..]);
    }
  }
}
