/** The two-stage tournament that consolidates one group of facts (memory/memory_manager.py). */
module Tournament {
  import opened Common
  import opened Grouping
  import opened Memory
  import opened Sorting
  import opened Supersession

  // ---- One tournament ----

  /** The rows are active facts of the store, each once. */
  predicate Listed(store: Store, rows: seq<Fact>) {
    DistinctIds(rows) && forall f | f in rows :: f.active && f.id in store && store[f.id] == f
  }

  function RetireAll(store: Store, losers: seq<Fact>, winner: nat): Store {
    map id | id in store :: if store[id] in losers then store[id].Retired(winner) else store[id]
  }

  lemma RankedAre(rows: seq<Fact>, now: real)
    requires rows != [] && DistinctIds(rows)
    ensures var ranked := Ranked(rows, now);
            && DistinctIds(ranked) && |ranked| == |rows|
            && (forall f :: f in ranked <==> f in rows)
            && (forall f :: f in ranked[1..] <==> f in rows && f != ranked[0])
  {
    SortKeepsDistinct(rows, (a: Fact, b: Fact) => NotBeaten(a, b, now));
    SortMembers(rows, (a: Fact, b: Fact) => NotBeaten(a, b, now));
    assert Ranked(rows, now) == [Ranked(rows, now)[0]] + Ranked(rows, now)[1..];
  }

  lemma RetireOneMore(store: Store, losers: seq<Fact>, loser: Fact, winner: Fact)
    requires Keyed(store) && loser.id in store && store[loser.id] == loser && loser !in losers
    requires winner.id in store && store[winner.id] == winner && winner !in losers && loser != winner
    ensures RetireAll(store, losers, winner.id)[winner.id] == winner && loser.id != winner.id
    ensures RetireAll(store, losers + [loser], winner.id)
         == Retire(RetireAll(store, losers, winner.id), loser.id, winner.id)
  {
  }

  /** A fact after a tournament with the given winner. */
  function Lost(f: Fact, winner: Fact): Fact { if f == winner then f else f.Retired(winner.id) }

  /** The store after a tournament: every row but the winner points to the winner. */
  function Settled(store: Store, rows: seq<Fact>, winner: Fact): Store {
    map id | id in store :: if store[id] in rows then Lost(store[id], winner) else store[id]
  }

  // ---- One group ----

  /** The best fact of `f`'s value among the items. */
  function ValueBest(items: seq<Fact>, f: Fact, now: real): Fact
    requires f in items
  {
    UnderMembers(items, ValueKey, ValueKey(f));
    Best(Under(items, ValueKey, ValueKey(f)), now)
  }

  lemma SameId(items: seq<Fact>, f: Fact, g: Fact)
    requires DistinctIds(items) && f in items && g in items && f.id == g.id
    ensures f == g
  {
  }

  lemma ValueBestBeats(items: seq<Fact>, f: Fact, now: real)
    requires DistinctIds(items) && f in items
    ensures var v := ValueBest(items, f, now);
            && v in items && ValueKey(v) == ValueKey(f) && v == ValueBest(items, v, now)
            && (v == f || Beats(v, f, now))
  {
    var rows := Under(items, ValueKey, ValueKey(f));
    UnderMembers(items, ValueKey, ValueKey(f));
    BestIsBest(rows, now);
    if ValueBest(items, f, now).id == f.id {
      SameId(items, ValueBest(items, f, now), f);
    }
  }

  /** The winners of the value tournaments, in the order of the value keys. */
  predicate AreWinners(items: seq<Fact>, keys: seq<string>, winners: seq<Fact>, now: real) {
    && |winners| == |keys|
    && forall i | 0 <= i < |keys| ::
         var rows := Under(items, ValueKey, keys[i]);
         rows != [] && winners[i] == Best(rows, now)
  }

  lemma WinnersSnoc(items: seq<Fact>, keys: seq<string>, winners: seq<Fact>, k: string, now: real)
    requires AreWinners(items, keys, winners, now) && Under(items, ValueKey, k) != []
    ensures AreWinners(items, keys + [k], winners + [Best(Under(items, ValueKey, k), now)], now)
  {
  }

  lemma WinnerAt(items: seq<Fact>, keys: seq<string>, winners: seq<Fact>, i: nat, now: real)
    requires AreWinners(items, keys, winners, now) && i < |keys|
    ensures winners[i] in items && ValueKey(winners[i]) == keys[i] && winners[i] == ValueBest(items, winners[i], now)
  {
    UnderMembers(items, ValueKey, keys[i]);
    BestIsBest(Under(items, ValueKey, keys[i]), now);
  }

  lemma WinnersAreDistinct(items: seq<Fact>, keys: seq<string>, winners: seq<Fact>, now: real)
    requires DistinctIds(items) && AreWinners(items, keys, winners, now) && Unique(keys)
    ensures DistinctIds(winners)
  {
    forall i, j | 0 <= i < j < |winners| ensures winners[i].id != winners[j].id {
      WinnerAt(items, keys, winners, i, now);
      WinnerAt(items, keys, winners, j, now);
      if winners[i].id == winners[j].id {
        SameId(items, winners[i], winners[j]);
      }
    }
  }

  lemma GroupsAreNonempty(items: seq<Fact>, key: Fact -> string, k: string)
    requires k in Keys(items, key)
    ensures Under(items, key, k) != []
  {
    KeysAre(items, key);
    UnderMembers(items, key, k);
  }

  /** The winners are exactly the facts that are their value's best. */
  predicate Winning(items: seq<Fact>, winners: seq<Fact>, now: real) {
    && (forall f | f in winners :: f in items && f == ValueBest(items, f, now))
    && (forall f | f in items :: f == ValueBest(items, f, now) ==> f in winners)
  }

  lemma WinnersWin(items: seq<Fact>, winners: seq<Fact>, now: real)
    requires AreWinners(items, Keys(items, ValueKey), winners, now)
    ensures Winning(items, winners, now)
  {
    var keys := Keys(items, ValueKey);
    KeysAre(items, ValueKey);
    forall f | f in winners ensures f in items && f == ValueBest(items, f, now) {
      var i :| 0 <= i < |winners| && winners[i] == f;
      WinnerAt(items, keys, winners, i, now);
    }
    forall f | f in items && f == ValueBest(items, f, now) ensures f in winners {
      var i :| 0 <= i < |keys| && keys[i] == ValueKey(f);
      assert winners[i] == f;
    }
  }

  /** The best of the value winners is the best of the whole group. */
  lemma TwoStagesAgree(items: seq<Fact>, winners: seq<Fact>, now: real)
    requires DistinctIds(items) && items != [] && Winning(items, winners, now)
    ensures winners != [] && Best(winners, now) == Best(items, now)
  {
    ValueBestBeats(items, items[0], now);
    var w := Best(winners, now);
    BestIsBest(winners, now);
    forall f | f in items && f.id != w.id ensures Beats(w, f, now) {
      ValueBestBeats(items, f, now);
      var v := ValueBest(items, f, now);
      AboveIsStrictOrder(RankOf(w, now), RankOf(v, now), RankOf(f, now));
      if v.id == w.id {
        SameId(items, v, w);
      }
    }
    BestIsBest(items, now);
    BestIsUnique(items, w, Best(items, now), now);
  }

  // ---- The store during and after one group ----

  /** Where the value tournaments of the given keys leave a fact. */
  function ValuePlaced(items: seq<Fact>, keys: seq<string>, f: Fact, now: real): Fact {
    if f in items && ValueKey(f) in keys then Lost(f, ValueBest(items, f, now)) else f
  }

  function ValuesSettled(store: Store, items: seq<Fact>, keys: seq<string>, now: real): Store {
    map id | id in store :: ValuePlaced(items, keys, store[id], now)
  }

  /** Where consolidating the group leaves a fact: superseded by its value's best or by the group's best. */
  function Placed(items: seq<Fact>, f: Fact, now: real): Fact {
    if f !in items then f
    else if f != ValueBest(items, f, now) then Lost(f, ValueBest(items, f, now))
    else Lost(f, Best(items, now))
  }

  function GroupSettled(store: Store, items: seq<Fact>, now: real): Store {
    map id | id in store :: Placed(items, store[id], now)
  }

  lemma NothingSettled(store: Store, items: seq<Fact>, now: real)
    ensures ValuesSettled(store, items, [], now) == store
  {
  }

  lemma ValuePlacedSnoc(items: seq<Fact>, keys: seq<string>, k: string, f: Fact, now: real)
    requires k !in keys && Under(items, ValueKey, k) != [] && forall f | f in items :: f.active
    ensures var rows := Under(items, ValueKey, k);
            var g := ValuePlaced(items, keys, f, now);
            && (f in rows ==> g == f)
            && ValuePlaced(items, keys + [k], f, now) == if g in rows then Lost(g, Best(rows, now)) else g
  {
    UnderMembers(items, ValueKey, k);
  }

  /** Adding one more value tournament is a tournament on the store so far. */
  lemma ValuesSettledSnoc(store: Store, items: seq<Fact>, keys: seq<string>, k: string, now: real)
    requires Keyed(store) && Listed(store, items) && k !in keys && Under(items, ValueKey, k) != []
    ensures var rows, settled := Under(items, ValueKey, k), ValuesSettled(store, items, keys, now);
            && Listed(settled, rows)
            && ValuesSettled(store, items, keys + [k], now) == Settled(settled, rows, Best(rows, now))
  {
    UnderMembers(items, ValueKey, k);
    UnderDistinct(items, ValueKey, k);
    forall f: Fact {
      ValuePlacedSnoc(items, keys, k, f, now);
    }
  }

  /** One turn of the loop over the value keys. */
  lemma ValuesStep(store: Store, items: seq<Fact>, keys: seq<string>, i: nat, winners: seq<Fact>, now: real)
    requires Keyed(store) && Listed(store, items) && keys == Keys(items, ValueKey) && i < |keys|
    requires AreWinners(items, keys[..i], winners, now)
    ensures var rows, settled := Under(items, ValueKey, keys[i]), ValuesSettled(store, items, keys[..i], now);
            && rows != [] && Listed(settled, rows)
            && ValuesSettled(store, items, keys[..i + 1], now) == Settled(settled, rows, Best(rows, now))
            && AreWinners(items, keys[..i + 1], winners + [Best(rows, now)], now)
            && Surplus(items, ValueKey, keys[..i + 1]) == Surplus(items, ValueKey, keys[..i]) + |rows| - 1
  {
    assert keys[..i + 1] == keys[..i] + [keys[i]];
    KeysAre(items, ValueKey);
    InitLast(keys[..i], keys[i]);
    GroupsAreNonempty(items, ValueKey, keys[i]);
    ValuesSettledSnoc(store, items, keys[..i], keys[i], now);
    WinnersSnoc(items, keys[..i], winners, keys[i], now);
  }

  lemma PlacedInTwoStages(items: seq<Fact>, winners: seq<Fact>, f: Fact, now: real)
    requires Winning(items, winners, now) && items != [] && forall f | f in items :: f.active
    ensures var g := ValuePlaced(items, Keys(items, ValueKey), f, now);
            && (f in winners ==> g == f)
            && Placed(items, f, now) == if g in winners then Lost(g, Best(items, now)) else g
  {
    KeysAre(items, ValueKey);
  }

  /** The tournament among the value winners completes the group. */
  lemma WinnersSettleGroup(store: Store, items: seq<Fact>, winners: seq<Fact>, now: real)
    requires Keyed(store) && Listed(store, items) && items != []
    requires Winning(items, winners, now) && DistinctIds(winners)
    ensures var settled := ValuesSettled(store, items, Keys(items, ValueKey), now);
            && Listed(settled, winners)
            && GroupSettled(store, items, now) == Settled(settled, winners, Best(items, now))
  {
    forall f: Fact {
      PlacedInTwoStages(items, winners, f, now);
    }
  }
}
