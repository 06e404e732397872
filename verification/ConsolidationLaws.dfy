/** What consolidation guarantees about the store it leaves. */
module ConsolidationLaws {
  import opened Common
  import opened Consolidation
  import opened Grouping
  import opened Memory
  import opened Supersession
  import opened Tournament

  /** A scanned fact's place is decided by its rivals. */
  lemma PlaceOf(store: Store, items: seq<Fact>, f: Fact, now: real)
    requires Keyed(store) && Listed(store, items) && f in items
    ensures f in Rivals(items, f) && DistinctIds(Rivals(items, f))
    ensures forall g :: g in Rivals(items, f) <==> g in items && GroupKey(g) == GroupKey(f)
    ensures f.id in store && Consolidated(store, items, now)[f.id] == Placed(Rivals(items, f), f, now)
  {
    KeysAre(items, GroupKey);
    UnderMembers(items, GroupKey, GroupKey(f));
    UnderDistinct(items, GroupKey, GroupKey(f));
  }

  /** The best of a group is also the best of its own value. */
  lemma BestIsValueBest(rows: seq<Fact>, now: real)
    requires DistinctIds(rows) && rows != []
    ensures Best(rows, now) in rows && ValueBest(rows, Best(rows, now), now) == Best(rows, now)
  {
    var w := Best(rows, now);
    BestIsBest(rows, now);
    ValueBestBeats(rows, w, now);
    var v := ValueBest(rows, w, now);
    AboveIsStrictOrder(RankOf(v, now), RankOf(w, now), RankOf(v, now));
    if v.id == w.id {
      SameId(rows, v, w);
    }
  }

  /** A scanned fact stays active exactly when it has the highest rank of its whole group. */
  lemma OneActivePerGroup(store: Store, items: seq<Fact>, f: Fact, now: real)
    requires Keyed(store) && Listed(store, items) && f in items
    ensures f in Rivals(items, f)
    ensures var w, after := Best(Rivals(items, f), now), Consolidated(store, items, now);
            && IsBest(Rivals(items, f), w, now) && w in items && GroupKey(w) == GroupKey(f)
            && w.id in store && after[w.id] == w
            && (after[f.id].active <==> f == w)
  {
    var rows := Rivals(items, f);
    PlaceOf(store, items, f, now);
    BestIsBest(rows, now);
    BestIsValueBest(rows, now);
    PlaceOf(store, items, Best(rows, now), now);
  }

  /** A retired fact reaches its group's winner in one or two hops, each to a fact of higher rank. */
  lemma RetiredClimbToTheWinner(store: Store, items: seq<Fact>, f: Fact, now: real)
    requires Keyed(store) && Listed(store, items) && f in items
    requires f in Rivals(items, f) && f != Best(Rivals(items, f), now)
    ensures var w, after := Best(Rivals(items, f), now), Consolidated(store, items, now);
            && after[f.id].supersededBy.Some?
            && var v := after[f.id].supersededBy.value;
               && v in store && Beats(store[v], f, now) && GroupKey(store[v]) == GroupKey(f)
               && (v == w.id || (after[v].supersededBy == Some(w.id) && Beats(w, store[v], now)))
  {
    var rows := Rivals(items, f);
    var w := Best(rows, now);
    PlaceOf(store, items, f, now);
    BestIsBest(rows, now);
    ValueBestBeats(rows, f, now);
    var v := ValueBest(rows, f, now);
    PlaceOf(store, items, v, now);
    if f.id == w.id {
      SameId(rows, f, w);
    }
    if v.id == w.id {
      SameId(rows, v, w);
    }
  }

  /** `w` beats all other listed facts that compete with `f`, or all of those that also have its value. */
  predicate Champion(items: seq<Fact>, f: Fact, w: Fact, ofValue: bool, now: real) {
    && w in items && Compete(f, w) && (ofValue ==> SameValue(f, w))
    && forall h | h in items && h != w && Compete(f, h) && (ofValue ==> SameValue(f, h)) :: Beats(w, h, now)
  }

  lemma GroupChampion(store: Store, items: seq<Fact>, f: Fact, now: real)
    requires Keyed(store) && Listed(store, items) && f in items
    ensures f in Rivals(items, f) && Champion(items, f, Best(Rivals(items, f), now), false, now)
  {
    var rows := Rivals(items, f);
    PlaceOf(store, items, f, now);
    var w := Best(rows, now);
    BestIsBest(rows, now);
    GroupKeyIff(f, w);
    forall h | h in items && h != w && Compete(f, h) ensures Beats(w, h, now) {
      GroupKeyIff(f, h);
      assert h in rows && (h.id == w.id ==> h == w);
    }
  }

  lemma ValueChampion(store: Store, items: seq<Fact>, f: Fact, now: real)
    requires Keyed(store) && Listed(store, items) && f in items
    ensures f in Rivals(items, f) && Champion(items, f, ValueBest(Rivals(items, f), f, now), true, now)
  {
    var rows := Rivals(items, f);
    PlaceOf(store, items, f, now);
    UnderMembers(rows, ValueKey, ValueKey(f));
    var same := Under(rows, ValueKey, ValueKey(f));
    var v := ValueBest(rows, f, now);
    BestIsBest(same, now);
    GroupKeyIff(f, v);
    ValueKeyIff(f, v);
    forall h | h in items && h != v && Compete(f, h) && SameValue(f, h) ensures Beats(v, h, now) {
      GroupKeyIff(f, h);
      ValueKeyIff(f, h);
      assert h in same && (h.id == v.id ==> h == v);
    }
  }

  /**
    Where a pass leaves a listed fact: retired for the best competitor of its own value, or if it is that one
    for the best competitor of all, or as it was if it is that one, too.
   */
  lemma WhereAFactEnds(store: Store, items: seq<Fact>, f: Fact, now: real) returns (v: Fact, w: Fact)
    requires Keyed(store) && Listed(store, items) && f in items
    ensures Champion(items, f, v, true, now) && Champion(items, f, w, false, now)
    ensures f.id in store
    ensures Consolidated(store, items, now)[f.id]
         == if f != v then f.Retired(v.id) else if f != w then f.Retired(w.id) else f
  {
    PlaceOf(store, items, f, now);
    GroupChampion(store, items, f, now);
    ValueChampion(store, items, f, now);
    v, w := ValueBest(Rivals(items, f), f, now), Best(Rivals(items, f), now);
  }

  /** Facts of different keys never meet: one that shares its key with no other listed fact stays as it was. */
  lemma KeysStayApart(store: Store, items: seq<Fact>, f: Fact, now: real)
    requires Keyed(store) && Listed(store, items) && f in items && KeyText(f) != ""
    ensures f.id in store
    ensures var after := Consolidated(store, items, now)[f.id];
            && ((forall g | g in items && g != f :: KeyText(g) != KeyText(f)) ==> after == f)
            && (after != f ==>
                  exists g | g in items :: after == f.Retired(g.id) && KeyText(g) == KeyText(f) && Beats(g, f, now))
  {
    var v, w := WhereAFactEnds(store, items, f, now);
    assert Compete(f, v) && Compete(f, w);
    AboveIsStrictOrder(RankOf(w, now), RankOf(f, now), RankOf(f, now));
  }

  /** Facts that were not scanned are left alone. */
  lemma UnscannedStay(store: Store, items: seq<Fact>, id: nat, now: real)
    requires id in store && store[id] !in items
    ensures Consolidated(store, items, now)[id] == store[id]
  {
  }

  // ---- A second pass ----

  lemma {:induction false} AllKeysDiffer(items: seq<Fact>, key: Fact -> string)
    requires forall i, j | 0 <= i < j < |items| :: key(items[i]) != key(items[j])
    ensures |Keys(items, key)| == |items|
  {
    if items != [] {
      AllKeysDiffer(Init(items), key);
      KeysAre(Init(items), key);
    }
  }

  /** After a pass, active scanned facts of one group are the same fact. */
  lemma SurvivorsDiffer(store: Store, items: seq<Fact>, f: Fact, g: Fact, now: real)
    requires Keyed(store) && Listed(store, items) && f in items && g in items && GroupKey(f) == GroupKey(g)
    requires Consolidated(store, items, now)[f.id].active && Consolidated(store, items, now)[g.id].active
    ensures f == g
  {
    OneActivePerGroup(store, items, f, now);
    OneActivePerGroup(store, items, g, now);
  }

  lemma SurvivorsHaveOwnGroups(store: Store, items: seq<Fact>, again: seq<Fact>, now: real)
    requires Keyed(store) && Listed(store, items) && Listed(Consolidated(store, items, now), again)
    requires forall f | f in again :: store[f.id] in items
    ensures forall i, j | 0 <= i < j < |again| :: GroupKey(again[i]) != GroupKey(again[j])
  {
    forall f | f in again ensures f in items {
      PlaceOf(store, items, store[f.id], now);
    }
    forall i, j | 0 <= i < j < |again| ensures GroupKey(again[i]) != GroupKey(again[j]) {
      if GroupKey(again[i]) == GroupKey(again[j]) {
        SurvivorsDiffer(store, items, again[i], again[j], now);
      }
    }
  }

  lemma AloneStays(items: seq<Fact>, f: Fact, now: real)
    requires forall i, j | 0 <= i < j < |items| :: GroupKey(items[i]) != GroupKey(items[j])
    ensures PlacedAmong(items, Keys(items, GroupKey), f, now) == f
  {
    if f in items {
      UnderMembers(items, GroupKey, GroupKey(f));
      UnrivalledStays(Rivals(items, f), f, now);
    }
  }

  /** A second pass over facts the first pass scanned deactivates nothing, whatever the clock says by then. */
  lemma SecondPassIsQuiet(store: Store, items: seq<Fact>, again: seq<Fact>, now: real, later: real)
    requires Keyed(store) && Listed(store, items) && Listed(Consolidated(store, items, now), again)
    requires forall f | f in again :: store[f.id] in items
    ensures |again| - |Keys(again, GroupKey)| == 0
    ensures Consolidated(Consolidated(store, items, now), again, later) == Consolidated(store, items, now)
  {
    SurvivorsHaveOwnGroups(store, items, again, now);
    AllKeysDiffer(again, GroupKey);
    forall f: Fact ensures PlacedAmong(again, Keys(again, GroupKey), f, later) == f {
      AloneStays(again, f, later);
    }
  }

  /** Facts stored without a key carry a null key, and compete whatever they say. */
  lemma NullKeysCompete(store: Store, items: seq<Fact>, f: Fact, g: Fact, now: real)
    requires Keyed(store) && Listed(store, items) && f in items && g in items && f != g
    requires f.factKey.Null? && g.factKey.Null?
    ensures var after := Consolidated(store, items, now);
            f.id in after && g.id in after && !(after[f.id].active && after[g.id].active)
  {
    if Consolidated(store, items, now)[f.id].active && Consolidated(store, items, now)[g.id].active {
      SurvivorsDiffer(store, items, f, g, now);
    }
  }

  // ---- Overlapping passes ----

  const WEEK := 604800.0

  /** An older, more important fact and one a week newer, of one key; their ranks cross after four weeks. */
  const OLDER := Fact(1, Text("k"), Absent, Some("x"), "", 0.8, 0.54, 0.0, true, None)
  const NEWER := Fact(2, Text("k"), Absent, Some("y"), "", 0.8, 0.5, WEEK, true, None)
  const PAIR: Store := map[1 := OLDER, 2 := NEWER]
  const CROSSING := 4.0 * WEEK

  /** Recency after `weeks` weeks, without the quotients. */
  lemma RecencyInWeeks(created: real, weeks: real)
    requires weeks >= 0.0
    ensures Recency(created, created + weeks * WEEK) * (1.0 + weeks) == 1.0
  {
    assert created + weeks * WEEK - created == weeks * WEEK;
    assert weeks * WEEK / 86400.0 == weeks * 7.0;
  }

  lemma PositiveFactor(a: real, x: real)
    requires x > 0.0 && a * x > 0.0
    ensures a > 0.0
  {
  }

  /** Recency of the newer fact exceeds that of the older one by 1/20 after four weeks and by more before. */
  lemma RecencyGap(a: real, b: real, weeks: real)
    requires 3.0 <= weeks <= 4.0 && a * (1.0 + weeks) == 1.0 && b * weeks == 1.0
    ensures weeks == 4.0 ==> b - a == 0.05
    ensures weeks < 4.0 ==> b - a > 0.05
  {
    if weeks < 4.0 {
      assert (b - 0.25) * weeks == 1.0 - 0.25 * weeks;
      PositiveFactor(b - 0.25, weeks);
      assert (b - a - 0.05) * (1.0 + weeks) == b - 0.05 * (1.0 + weeks);
      PositiveFactor(b - a - 0.05, 1.0 + weeks);
    }
  }

  /** Recency fades: the newer fact leads up to the crossing and the more important one from then on. */
  lemma RanksCross(weeks: real)
    requires 3.0 <= weeks <= 4.0
    ensures weeks < 4.0 ==> Beats(NEWER, OLDER, weeks * WEEK)
    ensures weeks == 4.0 ==> Beats(OLDER, NEWER, weeks * WEEK)
  {
    RecencyInWeeks(0.0, weeks);
    RecencyInWeeks(WEEK, weeks - 1.0);
    assert WEEK + (weeks - 1.0) * WEEK == weeks * WEEK;
    RecencyGap(Recency(0.0, weeks * WEEK), Recency(WEEK, weeks * WEEK), weeks);
  }

  lemma TheOtherWins(store: Store, items: seq<Fact>, winner: Fact, loser: Fact, now: real)
    requires Keyed(store) && Listed(store, items) && winner in items && loser in items
    requires forall f | f in items :: f == winner || f == loser
    requires GroupKey(winner) == GroupKey(loser) && Beats(winner, loser, now)
    ensures loser in Rivals(items, loser) && Best(Rivals(items, loser), now) == winner != loser
  {
    PlaceOf(store, items, loser, now);
    OneActivePerGroup(store, items, loser, now);
    AboveIsStrictOrder(RankOf(winner, now), RankOf(loser, now), RankOf(winner, now));
    AboveIsStrictOrder(RankOf(loser, now), RankOf(loser, now), RankOf(loser, now));
  }

  lemma LoserIsRetired(store: Store, items: seq<Fact>, winner: Fact, loser: Fact, now: real)
    requires Keyed(store) && Listed(store, items) && winner in items && loser in items
    requires forall f | f in items :: f == winner || f == loser
    requires GroupKey(winner) == GroupKey(loser) && Beats(winner, loser, now)
    ensures Placed(Rivals(items, loser), loser, now) == loser.Retired(winner.id)
  {
    var rows := Rivals(items, loser);
    PlaceOf(store, items, loser, now);
    TheOtherWins(store, items, winner, loser, now);
    ValueBestBeats(rows, loser, now);
  }

  lemma WinnerStays(store: Store, items: seq<Fact>, winner: Fact, loser: Fact, now: real)
    requires Keyed(store) && Listed(store, items) && winner in items && loser in items
    requires forall f | f in items :: f == winner || f == loser
    requires GroupKey(winner) == GroupKey(loser) && Beats(winner, loser, now)
    ensures winner.id != loser.id && Consolidated(store, items, now)[winner.id] == winner
  {
    TheOtherWins(store, items, winner, loser, now);
    OneActivePerGroup(store, items, loser, now);
  }

  /** A pass over two facts of one group retires the one that loses at its clock in favour of the other. */
  lemma PairSettles(store: Store, items: seq<Fact>, winner: Fact, loser: Fact, now: real)
    requires Keyed(store) && Listed(store, items) && winner in items && loser in items
    requires forall f | f in items :: f == winner || f == loser
    requires GroupKey(winner) == GroupKey(loser) && Beats(winner, loser, now) && store.Keys == {winner.id, loser.id}
    ensures Consolidated(store, items, now) == Retire(store, loser.id, winner.id)
  {
    WinnerStays(store, items, winner, loser, now);
    assert Consolidated(store, items, now)[loser.id] == loser.Retired(winner.id) by {
      PlaceOf(store, items, loser, now);
      LoserIsRetired(store, items, winner, loser, now);
    }
  }

  lemma {:induction false} CycleLeadsNowhere(store: Store, a: nat, b: nat, n: nat)
    requires a in store && !store[a].active && store[a].supersededBy == Some(b)
    requires b in store && !store[b].active && store[b].supersededBy == Some(a)
    ensures !Leads(store, a, n)
    decreases n
  {
    if n > 0 {
      CycleLeadsNowhere(store, b, a, n - 1);
    }
  }

  /** Retiring two facts for each other leaves neither leading anywhere. */
  lemma CycleIsNotGrounded(store: Store, a: nat, b: nat)
    requires a in store && b in store && a != b
    ensures !Grounded(Retire(Retire(store, a, b), b, a))
  {
    var store' := Retire(Retire(store, a, b), b, a);
    if Grounded(store') {
      var n: nat :| Leads(store', a, n);
      CycleLeadsNowhere(store', a, b, n);
    }
  }

  lemma PairIsOrderly()
    ensures Grounded(PAIR) && Keyed(PAIR) && Listed(PAIR, [OLDER, NEWER]) && GroupKey(OLDER) == GroupKey(NEWER)
  {
    assert Leads(PAIR, 1, 0) && Leads(PAIR, 2, 0);
  }

  lemma BeforeCrossing(weeks: real)
    requires 3.0 <= weeks < 4.0
    ensures Consolidated(PAIR, [OLDER, NEWER], weeks * WEEK) == Retire(PAIR, 1, 2)
  {
    PairIsOrderly();
    RanksCross(weeks);
    PairSettles(PAIR, [OLDER, NEWER], NEWER, OLDER, weeks * WEEK);
  }

  lemma AtCrossing()
    ensures Consolidated(PAIR, [OLDER, NEWER], CROSSING) == Retire(PAIR, 2, 1)
  {
    PairIsOrderly();
    RanksCross(4.0);
    PairSettles(PAIR, [OLDER, NEWER], OLDER, NEWER, CROSSING);
  }

  /**
    Two passes that listed the same pair just before and at the crossing of their ranks, however close
    together, retire each fact for the other: a cycle.
   */
  lemma CrossingPassesLoop(weeks: real)
    requires 3.0 <= weeks < 4.0
    ensures Grounded(PAIR)
    ensures Consolidated(PAIR, [OLDER, NEWER], weeks * WEEK) == Retire(PAIR, 1, 2)
    ensures Consolidated(PAIR, [OLDER, NEWER], CROSSING) == Retire(PAIR, 2, 1)
    ensures !Grounded(Retire(Retire(PAIR, 1, 2), 2, 1))
  {
    PairIsOrderly();
    BeforeCrossing(weeks);
    AtCrossing();
    CycleIsNotGrounded(PAIR, 1, 2);
  }
}
