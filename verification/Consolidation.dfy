/**
  Consolidation of a user's facts (`consolidate_user_memory`, memory/memory_manager.py): a tournament
  among facts of equal value inside each group, then one among the value winners.
 */
module Consolidation {
  import opened Common
  import opened Grouping
  import opened Memory
  import opened Supersession
  import opened Tournament
  import opened Upserts

  // ---- All groups ----

  /** The scanned facts that compete with `f`. */
  function Rivals(items: seq<Fact>, f: Fact): seq<Fact> { Under(items, GroupKey, GroupKey(f)) }

  /** Where consolidating the groups of the given keys leaves a fact. */
  function PlacedAmong(items: seq<Fact>, keys: seq<string>, f: Fact, now: real): Fact {
    if f in items && GroupKey(f) in keys then Placed(Rivals(items, f), f, now) else f
  }

  function GroupsSettled(store: Store, items: seq<Fact>, keys: seq<string>, now: real): Store {
    map id | id in store :: PlacedAmong(items, keys, store[id], now)
  }

  /** The store after consolidating the scanned facts. */
  function Consolidated(store: Store, items: seq<Fact>, now: real): Store {
    GroupsSettled(store, items, Keys(items, GroupKey), now)
  }

  /** How many scanned facts repeat a value of their group. */
  function Redundancy(items: seq<Fact>, keys: seq<string>): int {
    if keys == [] then 0
    else
      var rows := Under(items, GroupKey, Last(keys));
      Redundancy(items, Init(keys)) + |rows| - |Keys(rows, ValueKey)|
  }

  predicate Crowded(items: seq<Fact>, k: string) { |Under(items, GroupKey, k)| > 1 }

  /** How many of the groups hold more than one scanned fact. */
  function CrowdedGroups(items: seq<Fact>, keys: seq<string>): nat { Count(keys, k => Crowded(items, k)) }

  lemma NoGroupSettled(store: Store, items: seq<Fact>, now: real)
    ensures GroupsSettled(store, items, [], now) == store
  {
  }

  /** Without a rival a fact stays as it is. */
  lemma UnrivalledStays(rows: seq<Fact>, f: Fact, now: real)
    requires forall g | g in rows :: g == f
    ensures Placed(rows, f, now) == f
  {
    if f in rows {
      BestIsBest(rows, now);
      UnderMembers(rows, ValueKey, ValueKey(f));
      BestIsBest(Under(rows, ValueKey, ValueKey(f)), now);
    }
  }

  lemma LoneFactStays(store: Store, rows: seq<Fact>, now: real)
    requires |rows| == 1
    ensures GroupSettled(store, rows, now) == store && |Keys(rows, ValueKey)| == 1
  {
    assert Keys(Init(rows), ValueKey) == [];
    UnrivalledStays(rows, rows[0], now);
  }

  lemma PlacedAmongSnoc(items: seq<Fact>, keys: seq<string>, k: string, f: Fact, now: real)
    requires k !in keys && forall f | f in items :: f.active
    ensures var rows, g := Under(items, GroupKey, k), PlacedAmong(items, keys, f, now);
            && (f in rows ==> g == f)
            && PlacedAmong(items, keys + [k], f, now) == Placed(rows, g, now)
  {
    UnderMembers(items, GroupKey, k);
  }

  lemma GroupsSettledSnoc(store: Store, items: seq<Fact>, keys: seq<string>, k: string, now: real)
    requires Keyed(store) && Listed(store, items) && k !in keys
    ensures var rows, settled := Under(items, GroupKey, k), GroupsSettled(store, items, keys, now);
            && Listed(settled, rows)
            && GroupsSettled(store, items, keys + [k], now) == GroupSettled(settled, rows, now)
  {
    UnderMembers(items, GroupKey, k);
    UnderDistinct(items, GroupKey, k);
    forall f: Fact {
      PlacedAmongSnoc(items, keys, k, f, now);
    }
  }

  /** One turn of the loop over the group keys. */
  lemma GroupsStep(store: Store, items: seq<Fact>, keys: seq<string>, i: nat, now: real)
    requires Keyed(store) && Listed(store, items) && keys == Keys(items, GroupKey) && i < |keys|
    ensures var rows, settled := Under(items, GroupKey, keys[i]), GroupsSettled(store, items, keys[..i], now);
            && rows != [] && Listed(settled, rows)
            && GroupsSettled(store, items, keys[..i + 1], now) == GroupSettled(settled, rows, now)
  {
    assert keys[..i + 1] == keys[..i] + [keys[i]];
    KeysAre(items, GroupKey);
    GroupsAreNonempty(items, GroupKey, keys[i]);
    GroupsSettledSnoc(store, items, keys[..i], keys[i], now);
  }

  lemma CountersStep(items: seq<Fact>, keys: seq<string>, i: nat)
    requires i < |keys|
    ensures var rows := Under(items, GroupKey, keys[i]);
            && Surplus(items, GroupKey, keys[..i + 1]) == Surplus(items, GroupKey, keys[..i]) + |rows| - 1
            && Redundancy(items, keys[..i + 1]) == Redundancy(items, keys[..i]) + |rows| - |Keys(rows, ValueKey)|
            && CrowdedGroups(items, keys[..i + 1]) == CrowdedGroups(items, keys[..i]) + if |rows| > 1 then 1 else 0
  {
    assert keys[..i + 1] == keys[..i] + [keys[i]];
    InitLast(keys[..i], keys[i]);
    FilterSnoc(keys[..i], keys[i], k => Crowded(items, k));
  }

  /** A recorded conflict: a fact replaced by another, or a holder kept against a candidate. */
  datatype Conflict = Replaced(loser: nat, winner: nat) | Kept(holder: nat, confidence: real)

  /** Every recorded replacement names a retired fact and the fact that replaced it. */
  predicate Recorded(store: Store, conflicts: seq<Conflict>) {
    forall c | c in conflicts && c.Replaced? ::
      c.loser in store && !store[c.loser].active && store[c.loser].supersededBy == Some(c.winner)
  }

  /** The conflict an upsert records: none when the value stays the same. */
  function ConflictOf(c: Candidate, holder: Option<Fact>, id: nat): seq<Conflict> {
    if holder.None? || FactValue(holder.value) == c.value then []
    else if Keeps(holder.value, c) then [Kept(holder.value.id, c.confidence)]
    else [Replaced(holder.value.id, id)]
  }

  /** Facts lie under their ids, every one leads to an active one, and recorded replacements took place. */
  ghost predicate InOrder(store: Store, conflicts: seq<Conflict>) {
    Keyed(store) && Grounded(store) && Recorded(store, conflicts)
  }

  lemma AddKeepsOrder(store: Store, conflicts: seq<Conflict>, f: Fact)
    requires InOrder(store, conflicts) && f.id !in store && f.id > 0 && f.active
    ensures InOrder(store[f.id := f], conflicts)
  {
    AddKeepsGrounded(store, f);
  }

  lemma ReplaceKeepsOrder(store: Store, conflicts: seq<Conflict>, loser: nat, winner: nat)
    requires InOrder(store, conflicts) && loser in store && winner in store && loser != winner
    requires store[loser].active && store[winner].active
    ensures InOrder(Retire(store, loser, winner), conflicts)
    ensures InOrder(Retire(store, loser, winner), conflicts + [Replaced(loser, winner)])
  {
    RetireKeepsGrounded(store, loser, winner);
  }

  lemma NoteKeepsOrder(store: Store, conflicts: seq<Conflict>, holder: nat, confidence: real)
    requires InOrder(store, conflicts)
    ensures InOrder(store, conflicts + [Kept(holder, confidence)])
  {
  }

  class FactStore {
    var facts: Store
    var conflicts: seq<Conflict>

    ghost predicate Valid()
      reads this
    {
      InOrder(facts, conflicts)
    }

    /** `deactivate_semantic_entry` with the conflict record that goes with it. */
    method Deactivate(loser: nat, winner: nat)
      requires Valid() && loser in facts && winner in facts && loser != winner
      requires facts[loser].active && facts[winner].active
      modifies this
      ensures Valid() && facts == Retire(old(facts), loser, winner)
      ensures conflicts == old(conflicts) + [Replaced(loser, winner)]
    {
      ReplaceKeepsOrder(facts, conflicts, loser, winner);
      facts := Retire(facts, loser, winner);
      conflicts := conflicts + [Replaced(loser, winner)];
    }

    /** `_upsert_fact_candidate`; `rows` is the lookup's page and `id` the id the database assigns. */
    method UpsertFact(c: Candidate, rows: seq<Fact>, id: nat, created: real)
        returns (answer: nat, ghost holder: Option<Fact>)
      requires Valid() && Newest(facts, rows, LOOKUP_LIMIT) && id !in facts && id > 0
      modifies this
      ensures c.key.Some? && c.key.value != "" ==> IsLatest(rows, c.key.value, holder)
      ensures c.key.None? || c.key.value == "" ==> holder == None
      ensures Valid() && facts == Upserted(old(facts), c, holder, id, created)
      ensures answer == if holder.Some? && Keeps(holder.value, c) then holder.value.id else id
      ensures conflicts == old(conflicts) + ConflictOf(c, holder, id)
    {
      var previous := None;
      if c.key.Some? && c.key.value != "" {
        previous := LatestFactByKey(rows, c.key.value);
      }
      holder := previous;
      if previous.Some? && Keeps(previous.value, c) {
        if FactValue(previous.value) != c.value {
          NoteKeepsOrder(facts, conflicts, previous.value.id, c.confidence);
          conflicts := conflicts + [Kept(previous.value.id, c.confidence)];
        }
        return previous.value.id, holder;
      }
      AddKeepsOrder(facts, conflicts, NewFact(c, id, created));
      facts := facts[id := NewFact(c, id, created)];
      answer := id;
      if previous.Some? {
        ReplaceKeepsOrder(facts, conflicts, previous.value.id, id);
        facts := Retire(facts, previous.value.id, id);
        if FactValue(previous.value) != c.value {
          conflicts := conflicts + [Replaced(previous.value.id, id)];
        }
      }
    }

    /** Retires every loser in favour of the winner, in order. */
    method RetireLosers(losers: seq<Fact>, winner: Fact)
      requires Valid() && Listed(facts, losers) && Listed(facts, [winner]) && winner !in losers
      modifies this
      ensures Valid() && facts == RetireAll(old(facts), losers, winner.id)
      ensures |conflicts| == |old(conflicts)| + |losers|
    {
      ghost var before := facts;
      var i := 0;
      assert winner in [winner];
      while i < |losers|
        invariant 0 <= i <= |losers|
        invariant Valid() && facts == RetireAll(before, losers[..i], winner.id)
        invariant |conflicts| == |old(conflicts)| + i
      {
        assert losers[..i + 1] == losers[..i] + [losers[i]];
        assert losers[i] !in losers[..i];
        RetireOneMore(before, losers[..i], losers[i], winner);
        Deactivate(losers[i].id, winner.id);
        i := i + 1;
      }
      assert losers[..i] == losers;
    }

    /** Ranks the rows, keeps the best and retires the others in its favour. */
    method Settle(rows: seq<Fact>, now: real) returns (winner: Fact)
      requires Valid() && rows != [] && Listed(facts, rows)
      modifies this
      ensures Valid() && winner == Best(rows, now)
      ensures facts == Settled(old(facts), rows, winner)
      ensures |conflicts| == |old(conflicts)| + |rows| - 1
    {
      var ranked := Ranked(rows, now);
      RankedAre(rows, now);
      winner := ranked[0];
      RetireLosers(ranked[1..], winner);
    }

    /** The tournament of the next value. */
    method SettleValue(ghost before: Store, items: seq<Fact>, keys: seq<string>, i: nat, rows: seq<Fact>,
                       winners: seq<Fact>, now: real)
        returns (winner: Fact)
      requires Valid() && Keyed(before) && Listed(before, items) && keys == Keys(items, ValueKey) && i < |keys|
      requires facts == ValuesSettled(before, items, keys[..i], now) && AreWinners(items, keys[..i], winners, now)
      requires rows == Under(items, ValueKey, keys[i])
      modifies this
      ensures Valid() && facts == ValuesSettled(before, items, keys[..i + 1], now)
      ensures AreWinners(items, keys[..i + 1], winners + [winner], now)
      ensures Surplus(items, ValueKey, keys[..i + 1]) == Surplus(items, ValueKey, keys[..i]) + |rows| - 1
      ensures |conflicts| == |old(conflicts)| + |rows| - 1
    {
      ValuesStep(before, items, keys, i, winners, now);
      winner := Settle(rows, now);
    }

    /** The value tournaments of one group. */
    method SettleValues(items: seq<Fact>, now: real) returns (winners: seq<Fact>, redundant: nat)
      requires Valid() && Listed(facts, items)
      modifies this
      ensures AreWinners(items, Keys(items, ValueKey), winners, now)
      ensures Valid() && facts == ValuesSettled(old(facts), items, Keys(items, ValueKey), now)
      ensures redundant == |items| - |winners| && |conflicts| == |old(conflicts)| + redundant
    {
      ghost var before := facts;
      var keys, groups := GroupBy(items, ValueKey);
      var i := 0;
      winners, redundant := [], 0;
      NothingSettled(before, items, now);
      while i < |keys|
        invariant 0 <= i <= |keys|
        invariant AreWinners(items, keys[..i], winners, now)
        invariant Valid() && facts == ValuesSettled(before, items, keys[..i], now)
        invariant redundant == Surplus(items, ValueKey, keys[..i])
        invariant |conflicts| == |old(conflicts)| + redundant
      {
        var rows := groups[keys[i]];
        var winner := SettleValue(before, items, keys, i, rows, winners, now);
        winners := winners + [winner];
        redundant := redundant + |rows| - 1;
        i := i + 1;
      }
      assert keys[..i] == keys;
      SurplusOfAll(items, ValueKey);
    }

    /** One group: a tournament per value, then one among the value winners. */
    method ConsolidateGroup(items: seq<Fact>, now: real) returns (deactivated: nat, redundant: nat)
      requires Valid() && items != [] && Listed(facts, items)
      modifies this
      ensures Valid() && facts == GroupSettled(old(facts), items, now)
      ensures deactivated == |items| - 1 && |conflicts| == |old(conflicts)| + deactivated
      ensures redundant == |items| - |Keys(items, ValueKey)|
    {
      ghost var before := facts;
      var winners;
      winners, redundant := SettleValues(items, now);
      KeysAre(items, ValueKey);
      WinnersAreDistinct(items, Keys(items, ValueKey), winners, now);
      WinnersWin(items, winners, now);
      TwoStagesAgree(items, winners, now);
      WinnersSettleGroup(before, items, winners, now);
      var _ := Settle(winners, now);
      deactivated := redundant + |winners| - 1;
    }

    /** A group of one is skipped, which is what consolidating it would come to. */
    method ConsolidateIfCrowded(rows: seq<Fact>, now: real) returns (deactivated: nat, redundant: nat)
      requires Valid() && rows != [] && Listed(facts, rows)
      modifies this
      ensures Valid() && facts == GroupSettled(old(facts), rows, now)
      ensures deactivated == |rows| - 1 && |conflicts| == |old(conflicts)| + deactivated
      ensures redundant == |rows| - |Keys(rows, ValueKey)|
    {
      deactivated, redundant := 0, 0;
      if |rows| > 1 {
        deactivated, redundant := ConsolidateGroup(rows, now);
      } else {
        LoneFactStays(facts, rows, now);
      }
    }

    /** `consolidate_user_memory` on the scanned facts; returns its counters. */
    method ConsolidateUserMemory(items: seq<Fact>, now: real)
        returns (deactivated: nat, groupsWithDuplicates: nat, redundant: nat)
      requires Valid() && Listed(facts, items)
      modifies this
      ensures Valid() && facts == Consolidated(old(facts), items, now)
      ensures deactivated == |items| - |Keys(items, GroupKey)|
      ensures |conflicts| == |old(conflicts)| + deactivated
      ensures groupsWithDuplicates == CrowdedGroups(items, Keys(items, GroupKey))
      ensures redundant == Redundancy(items, Keys(items, GroupKey))
    {
      ghost var before := facts;
      var keys, groups := GroupBy(items, GroupKey);
      var i := 0;
      deactivated, groupsWithDuplicates, redundant := 0, 0, 0;
      NoGroupSettled(before, items, now);
      while i < |keys|
        invariant 0 <= i <= |keys|
        invariant Valid() && facts == GroupsSettled(before, items, keys[..i], now)
        invariant deactivated == Surplus(items, GroupKey, keys[..i])
        invariant |conflicts| == |old(conflicts)| + deactivated
        invariant groupsWithDuplicates == CrowdedGroups(items, keys[..i])
        invariant redundant == Redundancy(items, keys[..i])
      {
        var rows := groups[keys[i]];
        GroupsStep(before, items, keys, i, now);
        CountersStep(items, keys, i);
        var losers, repeats := ConsolidateIfCrowded(rows, now);
        if |rows| > 1 {
          groupsWithDuplicates := groupsWithDuplicates + 1;
        }
        deactivated, redundant := deactivated + losers, redundant + repeats;
        i := i + 1;
      }
      assert keys[..i] == keys;
      SurplusOfAll(items, GroupKey);
    }
  }
}
