/**
  When consolidation and upserts may share a store: passes that take turns keep it grounded at any clocks,
  and a pass that lists in the middle of an upsert can break it.
 */
module WriterTurns {
  import opened Backoff
  import opened Common
  import opened Consolidation
  import opened ConsolidationLaws
  import opened Memory
  import opened MemoryWriters
  import opened Supersession
  import opened Tournament
  import opened Upserts
  import U = UpsertOverlap

  // ---- One pass at a time ----

  /** A pass lists only while no other pass is in flight and no upsert is between its add and its retirement. */
  predicate InTurn(d: Desk, step: Step) {
    step.Scan? ==> d.passes == map[] && forall u | u in d.shelf.flights :: !d.shelf.flights[u].Added?
  }

  /** A way up from a fact added since the last listing: to a newer one. */
  predicate Onward(store: Store, known: set<nat>, id: nat, next: nat) { next in store && next !in known && id < next }

  /** A way up from a listed fact: to a listed one of higher rank, or to one added since. */
  predicate Upward(store: Store, known: set<nat>, listed: set<nat>, now: real, id: nat, next: nat) {
    && id in store && next in store
    && (next !in known || (next in listed && Beats(store[next], store[id], now)))
  }

  /** `known` are the facts stored at the last listing; `listed` those it listed, ranked at `now`. */
  predicate TurnStore(store: Store, known: set<nat>, listed: set<nat>, now: real) {
    && listed <= known <= store.Keys
    && (forall id | id in store && id !in known && !store[id].active ::
          store[id].supersededBy.Some? && Onward(store, known, id, store[id].supersededBy.value))
    && (forall id | id in listed && !store[id].active ::
          store[id].supersededBy.Some? && Upward(store, known, listed, now, id, store[id].supersededBy.value))
  }

  predicate TurnEdge(store: Store, listed: set<nat>, now: real, e: Edge) {
    && e.loser in listed && e.winner in listed && e.loser in store && e.winner in store
    && Beats(store[e.winner], store[e.loser], now)
  }

  predicate TakesTurns(d: Desk, known: set<nat>, listed: set<nat>, now: real) {
    && TurnStore(d.shelf.store, known, listed, now)
    && (forall u | u in d.shelf.flights && d.shelf.flights[u].Added? ::
          Onward(d.shelf.store, known, d.shelf.flights[u].holder, d.shelf.flights[u].id))
    && (forall p, e | p in d.passes && e in d.passes[p] :: TurnEdge(d.shelf.store, listed, now, e))
  }

  lemma TurnStoreAfterRetire(store: Store, known: set<nat>, listed: set<nat>, now: real, l: nat, w: nat)
    requires TurnStore(store, known, listed, now) && l in store
    requires Onward(store, known, l, w) || TurnEdge(store, listed, now, Edge(l, w))
    ensures TurnStore(Retire(store, l, w), known, listed, now)
  {
    var store' := Retire(store, l, w);
    forall id | id in listed && !store'[id].active
      ensures store'[id].supersededBy.Some? && Upward(store', known, listed, now, id, store'[id].supersededBy.value)
    {
      assert id != l ==> Upward(store, known, listed, now, id, store[id].supersededBy.value);
    }
  }

  /** Retiring changes nobody's rank, and rows are never removed. */
  lemma TurnsAfterRetire(d: Desk, known: set<nat>, listed: set<nat>, now: real, l: nat, w: nat)
    requires TakesTurns(d, known, listed, now) && l in d.shelf.store
    requires Onward(d.shelf.store, known, l, w) || TurnEdge(d.shelf.store, listed, now, Edge(l, w))
    ensures TakesTurns(d.(shelf := d.shelf.(store := Retire(d.shelf.store, l, w))), known, listed, now)
  {
    TurnStoreAfterRetire(d.shelf.store, known, listed, now, l, w);
    forall p, e | p in d.passes && e in d.passes[p]
      ensures TurnEdge(Retire(d.shelf.store, l, w), listed, now, e)
    {
      assert TurnEdge(d.shelf.store, listed, now, e);
    }
  }

  /** Behind a fact added since the listing there are only newer ones. */
  lemma OnwardKeepsGrounded(store: Store, known: set<nat>, listed: set<nat>, now: real, l: nat, w: nat)
    requires TurnStore(store, known, listed, now) && Grounded(store) && l in store && Onward(store, known, l, w)
    ensures Grounded(Retire(store, l, w))
  {
    var up := set id | id in store && id !in known && w <= id;
    RetireOutsideClosed(store, up, l, w);
  }

  /** Behind a winner there are only listed facts of higher rank than the loser's, and facts added since. */
  lemma UpwardKeepsGrounded(store: Store, known: set<nat>, listed: set<nat>, now: real, e: Edge)
    requires TurnStore(store, known, listed, now) && Grounded(store) && TurnEdge(store, listed, now, e)
    ensures Grounded(Retire(store, e.loser, e.winner))
  {
    var up := set id | id in store && (id !in known || (id in listed && Beats(store[id], store[e.loser], now)));
    forall id | id in up && !store[id].active
      ensures store[id].supersededBy.Some? && store[id].supersededBy.value in up
    {
      if id in known {
        var next := store[id].supersededBy.value;
        assert Upward(store, known, listed, now, id, next);
        AboveIsStrictOrder(RankOf(store[next], now), RankOf(store[id], now), RankOf(store[e.loser], now));
      }
    }
    AboveIsStrictOrder(RankOf(store[e.loser], now), RankOf(store[e.loser], now), RankOf(store[e.loser], now));
    RetireOutsideClosed(store, up, e.loser, e.winner);
  }

  lemma TurnWrite(d: Desk, step: Step, known: set<nat>, listed: set<nat>, now: real)
    requires Sound(d) && CanDo(d, step) && step.Write?
    requires TakesTurns(d, known, listed, now) && Grounded(d.shelf.store)
    ensures TakesTurns(Do(d, step), known, listed, now) && Grounded(Do(d, step).shelf.store)
  {
    TurnsAfterRetire(d, known, listed, now, step.e.loser, step.e.winner);
    UpwardKeepsGrounded(d.shelf.store, known, listed, now, step.e);
  }

  lemma TurnReplace(d: Desk, u: nat, known: set<nat>, listed: set<nat>, now: real)
    requires Sound(d) && CanDo(d, Upsert(U.Replace(u)))
    requires TakesTurns(d, known, listed, now) && Grounded(d.shelf.store)
    ensures TakesTurns(Do(d, Upsert(U.Replace(u))), known, listed, now)
    ensures Grounded(Do(d, Upsert(U.Replace(u))).shelf.store)
  {
    var f := d.shelf.flights[u];
    assert U.FlightOk(d.shelf.store, f);
    TurnsAfterRetire(d, known, listed, now, f.holder, f.id);
    OnwardKeepsGrounded(d.shelf.store, known, listed, now, f.holder, f.id);
  }

  lemma TurnStoreAfterAdd(store: Store, known: set<nat>, listed: set<nat>, now: real, f: Fact)
    requires TurnStore(store, known, listed, now) && f.id !in store && f.active
    ensures TurnStore(store[f.id := f], known, listed, now)
  {
    forall id | id in listed && !store[id].active
      ensures Upward(store[f.id := f], known, listed, now, id, store[id].supersededBy.value)
    {
      assert Upward(store, known, listed, now, id, store[id].supersededBy.value);
    }
  }

  lemma TurnAdd(d: Desk, step: Step, known: set<nat>, listed: set<nat>, now: real)
    requires Sound(d) && CanDo(d, step) && step.Upsert? && step.step.Add?
    requires TakesTurns(d, known, listed, now) && Grounded(d.shelf.store)
    ensures TakesTurns(Do(d, step), known, listed, now) && Grounded(Do(d, step).shelf.store)
  {
    var f, id := d.shelf.flights[step.step.u], step.step.id;
    assert U.FlightOk(d.shelf.store, f);
    if !f.declines {
      assert id !in d.shelf.store;
      AddKeepsGrounded(d.shelf.store, NewFact(f.c, id, step.step.created));
      TurnStoreAfterAdd(d.shelf.store, known, listed, now, NewFact(f.c, id, step.step.created));
      forall p, e | p in d.passes && e in d.passes[p] ensures TurnEdge(Do(d, step).shelf.store, listed, now, e) {
        assert TurnEdge(d.shelf.store, listed, now, e);
      }
    }
  }

  /** A listing in turn starts afresh. */
  lemma TurnScan(d: Desk, step: Step)
    requires Sound(d) && CanDo(d, step) && step.Scan? && InTurn(d, step)
    ensures TakesTurns(Do(d, step), d.shelf.store.Keys, set f | f in step.items :: f.id, step.now)
  {
    forall e | e in PlanOf(step.items, step.now)
      ensures TurnEdge(d.shelf.store, set f | f in step.items :: f.id, step.now, e)
    {
      PlanRises(d.shelf.store, step.items, step.now, e);
    }
  }

  lemma TurnStep(d: Desk, step: Step, known: set<nat>, listed: set<nat>, now: real)
      returns (known': set<nat>, listed': set<nat>, now': real)
    requires Sound(d) && CanDo(d, step) && InTurn(d, step)
    requires TakesTurns(d, known, listed, now) && Grounded(d.shelf.store)
    ensures TakesTurns(Do(d, step), known', listed', now') && Grounded(Do(d, step).shelf.store)
  {
    known', listed', now' := known, listed, now;
    match step
    case Write(_, _) => TurnWrite(d, step, known, listed, now);
    case Scan(_, items, clock) =>
      TurnScan(d, step);
      known', now' := d.shelf.store.Keys, clock;
      listed' := set f | f in items :: f.id;
    case Upsert(Replace(u)) => TurnReplace(d, u, known, listed, now);
    case Upsert(Add(_, _, _)) => TurnAdd(d, step, known, listed, now);
    case _ =>
  }

  lemma {:induction false} TurnHistory(d: Desk, steps: seq<Step>, known: set<nat>, listed: set<nat>, now: real)
    requires LegalUnder(d, steps, InTurn)
    requires Sound(d) && TakesTurns(d, known, listed, now) && Grounded(d.shelf.store)
    ensures Grounded(After(d, steps, InTurn).shelf.store)
    decreases |steps|
  {
    if steps != [] {
      SoundDo(d, steps[0]);
      var known', listed', now' := TurnStep(d, steps[0], known, listed, now);
      TurnHistory(Do(d, steps[0]), steps[1..], known', listed', now');
    }
  }

  /**
    Passes one at a time, at whatever clocks, and any number of upserts keep the store grounded wherever they
    stop, as long as no pass lists while an upsert is between its add and its retirement.
   */
  lemma WritersInTurnStayGrounded(store: Store, steps: seq<Step>)
    requires Keyed(store) && Grounded(store) && LegalUnder(Idle(store), steps, InTurn)
    ensures Grounded(After(Idle(store), steps, InTurn).shelf.store)
  {
    TurnHistory(Idle(store), steps, store.Keys, {}, 0.0);
  }

  // ---- A pass in the middle of an upsert ----

  /** The candidate is to replace the holder, but a pass at the given clock ranks the holder higher. */
  predicate Contested(h: Fact, c: Candidate, created: real, now: real) {
    && h.active && h.id > 0 && c.key.Some? && Clean(c.key.value) != "" && h.factKey == Text(c.key.value)
    && !Keeps(h, c) && Beats(h, NewFact(c, h.id + 1, created), now)
  }

  lemma {:induction false} ThenDo(d: Desk, steps: seq<Step>, step: Step)
    requires LegalUnder(d, steps, Anything)
    requires Sound(After(d, steps, Anything)) && CanDo(After(d, steps, Anything), step)
    ensures LegalUnder(d, steps + [step], Anything)
    ensures After(d, steps + [step], Anything) == Do(After(d, steps, Anything), step)
    decreases |steps|
  {
    if steps == [] {
      assert LegalUnder(Do(d, step), [], Anything);
    } else {
      ThenDo(Do(d, steps[0]), steps[1..], step);
      assert (steps + [step])[1..] == steps[1..] + [step];
    }
  }

  lemma Next(start: Desk, steps: seq<Step>, d: Desk, step: Step) returns (steps': seq<Step>, d': Desk)
    requires LegalUnder(start, steps, Anything) && d == After(start, steps, Anything) && Sound(d) && CanDo(d, step)
    ensures LegalUnder(start, steps', Anything) && d' == After(start, steps', Anything) == Do(d, step) && Sound(d')
  {
    ThenDo(start, steps, step);
    SoundDo(d, step);
    steps', d' := steps + [step], Do(d, step);
  }

  /** The upsert has found the only fact and added its own. */
  lemma HalfDone(h: Fact, c: Candidate, created: real, now: real) returns (steps: seq<Step>, d: Desk)
    requires Contested(h, c, created, now)
    ensures LegalUnder(Idle(map[h.id := h]), steps, Anything) && Sound(d)
    ensures d == After(Idle(map[h.id := h]), steps, Anything)
    ensures d.shelf.store == map[h.id := h, h.id + 1 := NewFact(c, h.id + 1, created)]
    ensures d.shelf.flights == map[0 := U.Added(h.id, h.id + 1)] && d.passes == map[]
  {
    var start := Idle(map[h.id := h]);
    steps, d := Next(start, [], start, Upsert(U.Look(0, c, [h], Some(h))));
    steps, d := Next(start, steps, d, Upsert(U.Add(0, h.id + 1, created)));
  }

  /** A pass over the two facts plans to retire the newer one. */
  lemma PassTurnsBack(h: Fact, c: Candidate, created: real, now: real)
    requires Contested(h, c, created, now)
    ensures var n := NewFact(c, h.id + 1, created);
            && Keyed(map[h.id := h, n.id := n]) && Listed(map[h.id := h, n.id := n], [h, n])
            && Edge(n.id, h.id) in PlanOf([h, n], now)
  {
    var n := NewFact(c, h.id + 1, created);
    var store := map[h.id := h, n.id := n];
    assert GroupKey(h) == GroupKey(n);
    assert Listed(store, [h, n]);
    LoserIsRetired(store, [h, n], h, n, now);
    assert n in [h, n] && Placed(Rivals([h, n], n), n, now) == n.Retired(h.id);
  }

  /** A pass that has planned to retire the added fact does so, and then the upsert retires the holder. */
  lemma Crosses(start: Desk, steps: seq<Step>, d: Desk, h: nat, n: nat) returns (steps': seq<Step>, d': Desk)
    requires LegalUnder(start, steps, Anything) && d == After(start, steps, Anything) && Sound(d)
    requires 0 in d.passes && Edge(n, h) in d.passes[0]
    requires 0 in d.shelf.flights && d.shelf.flights[0] == U.Added(h, n)
    ensures LegalUnder(start, steps', Anything) && d' == After(start, steps', Anything)
    ensures h in d.shelf.store && n in d.shelf.store
    ensures d'.shelf.store == Retire(Retire(d.shelf.store, n, h), h, n)
  {
    steps', d' := Next(start, steps, d, Write(0, Edge(n, h)));
    steps', d' := Next(start, steps', d', Upsert(U.Replace(0)));
  }

  /**
    Whenever a pass ranks the holder above the fact that is about to replace it, there is a history of that
    one upsert and that one pass that ends in a cycle: the pass lists between the upsert's add and retirement.
   */
  lemma MixedWritersLoop(h: Fact, c: Candidate, created: real, now: real) returns (steps: seq<Step>)
    requires Contested(h, c, created, now)
    ensures LegalUnder(Idle(map[h.id := h]), steps, Anything)
    ensures !Grounded(After(Idle(map[h.id := h]), steps, Anything).shelf.store)
  {
    var start, d, n := Idle(map[h.id := h]), Idle(map[h.id := h]), NewFact(c, h.id + 1, created);
    steps, d := HalfDone(h, c, created, now);
    PassTurnsBack(h, c, created, now);
    steps, d := Next(start, steps, d, Scan(0, [h, n], now));
    CycleIsNotGrounded(d.shelf.store, n.id, h.id);
    steps, d := Crosses(start, steps, d, h.id, n.id);
  }

  lemma InverseFallsSlowly(a: real, b: real, x: real, y: real)
    requires 1.0 <= x <= y && a * x == 1.0 && b * y == 1.0
    ensures a - b <= y - x
  {
    assert a <= 1.0 && 0.0 < b <= 1.0;
    assert a - b == a * (b * y) - b * (a * x) == a * b * (y - x);
    assert a * b <= 1.0;
    assert a * b * (y - x) <= 1.0 * (y - x);
  }

  /** Recency falls by at most one part in seven per day. */
  lemma RecencyFallsSlowly(created: real, later: real, now: real)
    requires created <= later
    ensures Recency(later, now) - Recency(created, now) <= (later - created) / WEEK
  {
    var x := 1.0 + MaxReal(0.0, (now - later) / 86400.0) / 7.0;
    var y := 1.0 + MaxReal(0.0, (now - created) / 86400.0) / 7.0;
    assert 1.0 <= x <= y && y - x <= (later - created) / WEEK;
    InverseFallsSlowly(1.0 / x, 1.0 / y, x, y);
  }

  /**
    It takes little: a different value, less sure than a holder that is no less important by at most 0.05, and
    not much newer; for one less sure by 0.03, up to fourteen hours newer.
   */
  lemma SlightlyLessSureIsContested(h: Fact, c: Candidate, created: real, now: real)
    requires h.active && h.id > 0 && c.key.Some? && Clean(c.key.value) != "" && h.factKey == Text(c.key.value)
    requires FactValue(h) != c.value && h.importance >= 0.7
    requires 0.0 < h.confidence - c.confidence <= 0.05
    requires 0.0 <= created - h.created < 2.75 * WEEK * (h.confidence - c.confidence)
    ensures Contested(h, c, created, now)
  {
    RecencyFallsSlowly(h.created, created, now);
    assert (created - h.created) / WEEK < 2.75 * (h.confidence - c.confidence);
  }

  /** A candidate at least as sure outranks, at every clock, an older holder that is no more important. */
  lemma SurerOutranks(h: Fact, c: Candidate, id: nat, created: real, clock: real)
    requires c.confidence >= h.confidence && h.importance <= 0.7 && h.created <= created && h.id < id
    ensures Beats(NewFact(c, id, created), h, clock)
  {
    RecencyGrows(h.created, created, clock);
  }
}
