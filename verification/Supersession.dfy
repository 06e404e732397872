/** The supersession graph of stored facts: retired facts point to what replaced them. */
module Supersession {
  import opened Common
  import opened Memory

  type Store = map<nat, Fact>

  /** Facts are stored under their own positive id. */
  predicate Keyed(store: Store) { forall id | id in store :: store[id].id == id && id > 0 }

  /** Following `superseded_by` from `id` reaches an active fact within `n` hops. */
  predicate Leads(store: Store, id: nat, n: nat)
    decreases n
  {
    && id in store
    && (store[id].active
        || (n > 0 && store[id].supersededBy.Some? && Leads(store, store[id].supersededBy.value, n - 1)))
  }

  /** Every stored fact leads to an active one: the graph has no cycles and no dead ends. */
  ghost predicate Grounded(store: Store) { forall id | id in store :: exists n: nat :: Leads(store, id, n) }

  function Retire(store: Store, loser: nat, winner: nat): Store
    requires loser in store
  {
    store[loser := store[loser].Retired(winner)]
  }

  /** Retiring an active fact in favour of another active one lengthens chains by at most one hop. */
  lemma {:induction false} LeadsAfterRetire(store: Store, loser: nat, winner: nat, id: nat, n: nat)
    requires loser in store && winner in store && loser != winner && store[winner].active
    requires Leads(store, id, n)
    ensures Leads(Retire(store, loser, winner), id, n + 1)
    decreases n
  {
    var store' := Retire(store, loser, winner);
    if id == loser {
      assert Leads(store', winner, n);
    } else if !store[id].active {
      LeadsAfterRetire(store, loser, winner, store[id].supersededBy.value, n - 1);
    }
  }

  lemma RetireKeepsGrounded(store: Store, loser: nat, winner: nat)
    requires Grounded(store) && loser in store && winner in store && loser != winner && store[winner].active
    ensures Grounded(Retire(store, loser, winner))
  {
    forall id | id in store ensures exists n: nat :: Leads(Retire(store, loser, winner), id, n) {
      var n: nat :| Leads(store, id, n);
      LeadsAfterRetire(store, loser, winner, id, n);
    }
  }

  lemma {:induction false} LeadsAfterAdd(store: Store, f: Fact, id: nat, n: nat)
    requires f.id !in store && Leads(store, id, n)
    ensures Leads(store[f.id := f], id, n)
    decreases n
  {
    if !store[id].active {
      LeadsAfterAdd(store, f, store[id].supersededBy.value, n - 1);
    }
  }

  lemma AddKeepsGrounded(store: Store, f: Fact)
    requires Grounded(store) && f.id !in store && f.active
    ensures Grounded(store[f.id := f])
  {
    var store' := store[f.id := f];
    forall id | id in store' ensures exists n: nat :: Leads(store', id, n) {
      if id == f.id {
        assert Leads(store', id, 0);
      } else {
        var n: nat :| Leads(store, id, n);
        LeadsAfterAdd(store, f, id, n);
      }
    }
  }

  // ---- Retiring for a fact that may be retired itself ----

  /** Following `superseded_by` from `id` reaches an active fact within `n` hops without meeting `avoided`. */
  predicate LeadsAround(store: Store, id: nat, avoided: nat, n: nat)
    decreases n
  {
    && id in store && id != avoided
    && (store[id].active
        || (n > 0 && store[id].supersededBy.Some? && LeadsAround(store, store[id].supersededBy.value, avoided, n - 1)))
  }

  ghost predicate GoesAround(store: Store, id: nat, avoided: nat) {
    exists n: nat :: LeadsAround(store, id, avoided, n)
  }

  /** The same path, with the avoided fact retired or not. */
  lemma {:induction false} AroundIsUnchanged(store: Store, loser: nat, winner: nat, id: nat, n: nat)
    requires loser in store
    ensures LeadsAround(store, id, loser, n) <==> LeadsAround(Retire(store, loser, winner), id, loser, n)
    decreases n
  {
    if id in store && id != loser && !store[id].active && n > 0 && store[id].supersededBy.Some? {
      AroundIsUnchanged(store, loser, winner, store[id].supersededBy.value, n - 1);
    }
  }

  lemma {:induction false} AroundLeads(store: Store, id: nat, avoided: nat, n: nat)
    requires LeadsAround(store, id, avoided, n)
    ensures Leads(store, id, n)
    decreases n
  {
    if !store[id].active {
      AroundLeads(store, store[id].supersededBy.value, avoided, n - 1);
    }
  }

  lemma {:induction false} LeadsLonger(store: Store, id: nat, n: nat, m: nat)
    requires Leads(store, id, n) && n <= m
    ensures Leads(store, id, m)
    decreases n
  {
    if !store[id].active {
      LeadsLonger(store, store[id].supersededBy.value, n - 1, m - 1);
    }
  }

  /** From a fact whose path avoids the loser to an active one, or from one that comes to the loser first. */
  lemma {:induction false} LeadsAfterLateRetire(store: Store, loser: nat, winner: nat, id: nat, n: nat, m: nat)
    requires loser in store && Leads(store, id, n) && Leads(Retire(store, loser, winner), loser, m)
    ensures Leads(Retire(store, loser, winner), id, n + m)
    decreases n
  {
    var store' := Retire(store, loser, winner);
    if id == loser {
      LeadsLonger(store', id, m, n + m);
    } else if !store[id].active {
      LeadsAfterLateRetire(store, loser, winner, store[id].supersededBy.value, n - 1, m);
    }
  }

  /** A shortest path from a retired fact does not come back to it. */
  lemma {:induction false} PathsAvoidTheirStart(store: Store, loser: nat, id: nat, n: nat, m: nat)
    requires loser in store && !store[loser].active && Leads(store, id, n)
    requires !Leads(store, loser, m) && n <= m
    ensures LeadsAround(store, id, loser, n)
    decreases n
  {
    if id == loser {
      LeadsLonger(store, id, n, m);
    } else if !store[id].active {
      PathsAvoidTheirStart(store, loser, store[id].supersededBy.value, n - 1, m);
    }
  }

  /** The least number of hops to an active fact. */
  lemma {:induction false} ShortestPath(store: Store, id: nat, n: nat) returns (k: nat)
    requires Leads(store, id, n)
    ensures k <= n && Leads(store, id, k) && (k > 0 ==> !Leads(store, id, k - 1))
    decreases n
  {
    if n > 0 && Leads(store, id, n - 1) {
      k := ShortestPath(store, id, n - 1);
    } else {
      k := n;
    }
  }

  /**
    Retiring a fact in favour of any stored one, active or not, keeps the graph grounded if and only if that
    one leads to an active fact without passing the retired one.
   */
  lemma RetireKeepsGroundedIff(store: Store, loser: nat, winner: nat)
    requires Grounded(store) && loser in store && winner in store
    ensures Grounded(Retire(store, loser, winner)) <==> GoesAround(store, winner, loser)
  {
    var store' := Retire(store, loser, winner);
    if n: nat :| LeadsAround(store, winner, loser, n) {
      AroundIsUnchanged(store, loser, winner, winner, n);
      AroundLeads(store', winner, loser, n);
      assert Leads(store', loser, n + 1);
      forall id | id in store' ensures exists k: nat :: Leads(store', id, k) {
        var k: nat :| Leads(store, id, k);
        LeadsAfterLateRetire(store, loser, winner, id, k, n + 1);
      }
    }
    if Grounded(store') {
      var n: nat :| Leads(store', loser, n);
      var k := ShortestPath(store', loser, n);
      assert k > 0 && Leads(store', winner, k - 1);
      PathsAvoidTheirStart(store', loser, winner, k - 1, k - 1);
      AroundIsUnchanged(store, loser, winner, winner, k - 1);
    }
  }

  /** Whoever follows `superseded_by` from one of these facts stays among them. */
  predicate Closed(store: Store, up: set<nat>) {
    forall id | id in up ::
      id in store && (store[id].active || (store[id].supersededBy.Some? && store[id].supersededBy.value in up))
  }

  lemma {:induction false} ClosedLeadsAround(store: Store, up: set<nat>, id: nat, avoided: nat, n: nat)
    requires Closed(store, up) && id in up && avoided !in up && Leads(store, id, n)
    ensures LeadsAround(store, id, avoided, n)
    decreases n
  {
    if !store[id].active {
      ClosedLeadsAround(store, up, store[id].supersededBy.value, avoided, n - 1);
    }
  }

  /** A fact may be retired for one from which there is no way back to it. */
  lemma RetireOutsideClosed(store: Store, up: set<nat>, loser: nat, winner: nat)
    requires Grounded(store) && loser in store && Closed(store, up) && winner in up && loser !in up
    ensures Grounded(Retire(store, loser, winner))
  {
    var n: nat :| Leads(store, winner, n);
    ClosedLeadsAround(store, up, winner, loser, n);
    RetireKeepsGroundedIff(store, loser, winner);
  }
}
