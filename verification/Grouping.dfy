/** Grouping of facts by a key, as dictionaries of lists do it. */
module Grouping {
  import opened Common
  import opened Memory

  /** The distinct keys of a list in order of first appearance. */
  function Keys(facts: seq<Fact>, key: Fact -> string): seq<string> {
    if facts == [] then []
    else
      var before := Keys(Init(facts), key);
      if key(Last(facts)) in before then before else before + [key(Last(facts))]
  }

  function Under(facts: seq<Fact>, key: Fact -> string, k: string): seq<Fact> { Filter(facts, f => key(f) == k) }

  predicate Unique(keys: seq<string>) { forall i, j | 0 <= i < j < |keys| :: keys[i] != keys[j] }

  lemma {:induction false} KeysAre(facts: seq<Fact>, key: Fact -> string)
    ensures Unique(Keys(facts, key))
    ensures forall f | f in facts :: key(f) in Keys(facts, key)
    ensures forall k | k in Keys(facts, key) :: exists f :: f in facts && key(f) == k
  {
    if facts != [] {
      KeysAre(Init(facts), key);
      assert facts == Init(facts) + [Last(facts)];
    }
  }

  lemma UnderSnoc(facts: seq<Fact>, f: Fact, key: Fact -> string, k: string)
    ensures Under(facts + [f], key, k) == Under(facts, key, k) + (if key(f) == k then [f] else [])
  {
    FilterSnoc(facts, f, f => key(f) == k);
  }

  lemma UnderMembers(facts: seq<Fact>, key: Fact -> string, k: string)
    ensures forall f :: f in Under(facts, key, k) <==> f in facts && key(f) == k
  {
    FilterMembers(facts, f => key(f) == k);
  }

  lemma {:induction false} UnderDistinct(facts: seq<Fact>, key: Fact -> string, k: string)
    requires DistinctIds(facts)
    ensures DistinctIds(Under(facts, key, k))
  {
    if facts != [] {
      var front, last := Init(facts), Last(facts);
      assert facts == front + [last];
      DistinctSnoc(front, last);
      UnderDistinct(front, key, k);
      UnderMembers(front, key, k);
      UnderSnoc(front, last, key, k);
      DistinctSnoc(Under(front, key, k), last);
    }
  }

  lemma NoneUnder(facts: seq<Fact>, key: Fact -> string, k: string)
    requires k !in Keys(facts, key)
    ensures Under(facts, key, k) == []
  {
    KeysAre(facts, key);
    FilterNone(facts, f => key(f) == k);
  }

  /** `dict.setdefault(key, []).append(item)` over a list. */
  method GroupBy(facts: seq<Fact>, key: Fact -> string) returns (keys: seq<string>, groups: map<string, seq<Fact>>)
    ensures keys == Keys(facts, key)
    ensures forall k :: k in groups <==> k in keys
    ensures forall k | k in keys :: groups[k] == Under(facts, key, k)
  {
    keys, groups := [], map[];
    var i := 0;
    while i < |facts|
      invariant 0 <= i <= |facts|
      invariant keys == Keys(facts[..i], key)
      invariant forall k :: k in groups <==> k in keys
      invariant forall k | k in keys :: groups[k] == Under(facts[..i], key, k)
    {
      var f, done := facts[i], facts[..i];
      assert facts[..i + 1] == done + [f];
      InitLast(done, f);
      KeysAre(done, key);
      forall k ensures Under(done + [f], key, k) == Under(done, key, k) + (if key(f) == k then [f] else []) {
        UnderSnoc(done, f, key, k);
      }
      if key(f) !in groups {
        NoneUnder(done, key, key(f));
        keys := keys + [key(f)];
        groups := groups[key(f) := []];
      }
      groups := groups[key(f) := groups[key(f)] + [f]];
      i := i + 1;
    }
    assert facts[..i] == facts;
  }

  // ---- Sizes ----

  /** How many facts the given groups hold beyond one each. */
  function Surplus(facts: seq<Fact>, key: Fact -> string, keys: seq<string>): int {
    if keys == [] then 0 else Surplus(facts, key, Init(keys)) + |Under(facts, key, Last(keys))| - 1
  }

  lemma {:induction false} SurplusSnoc(facts: seq<Fact>, f: Fact, key: Fact -> string, keys: seq<string>)
    requires Unique(keys)
    ensures Surplus(facts + [f], key, keys) == Surplus(facts, key, keys) + (if key(f) in keys then 1 else 0)
  {
    if keys != [] {
      SurplusSnoc(facts, f, key, Init(keys));
      UnderSnoc(facts, f, key, Last(keys));
    }
  }

  lemma SurplusNewKey(front: seq<Fact>, f: Fact, key: Fact -> string)
    requires key(f) !in Keys(front, key)
    ensures var keys := Keys(front, key);
            Surplus(front + [f], key, keys + [key(f)]) == Surplus(front + [f], key, keys)
  {
    InitLast(Keys(front, key), key(f));
    UnderSnoc(front, f, key, key(f));
    NoneUnder(front, key, key(f));
  }

  /** Over all groups the surplus is the number of facts minus the number of groups. */
  lemma {:induction false} SurplusOfAll(facts: seq<Fact>, key: Fact -> string)
    ensures Surplus(facts, key, Keys(facts, key)) == |facts| - |Keys(facts, key)|
  {
    if facts != [] {
      var front, f := Init(facts), Last(facts);
      var keys := Keys(front, key);
      SurplusOfAll(front, key);
      KeysAre(front, key);
      assert facts == front + [f];
      SurplusSnoc(front, f, key, keys);
      if key(f) !in keys {
        SurplusNewKey(front, f, key);
      }
    }
  }
}
