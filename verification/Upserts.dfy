/** Storing one extracted fact (`_upsert_fact_candidate`, memory/memory_manager.py). */
module Upserts {
  import opened Common
  import opened Memory
  import opened Supersession
  import opened Text
  import opened Tournament

  datatype Candidate = Candidate(key: Option<string>, value: Option<string>, text: string, confidence: real)

  /** How many active facts the lookup by key reads. */
  const LOOKUP_LIMIT := 200

  /** The newest active facts of the store, newest first. */
  predicate Newest(store: Store, rows: seq<Fact>, limit: nat) {
    && Listed(store, rows) && |rows| <= limit
    && (forall i, j | 0 <= i < j < |rows| :: rows[i].id > rows[j].id)
    && (forall id | id in store && store[id].active ::
          store[id] in rows || (|rows| == limit && forall r | r in rows :: r.id > id))
  }

  predicate Holds(f: Fact, key: string) { f.factKey.Printed() == key }

  /** The text after the first equals sign. */
  function AfterEquals(s: string): (r: Option<string>)
    ensures r.Some? <==> '=' in s
    ensures r.Some? ==>
              && |r.value| < |s| && s[|s| - |r.value|..] == r.value && s[|s| - |r.value| - 1] == '='
              && '=' !in s[..|s| - |r.value| - 1]
  {
    if s == "" then None
    else if s[0] == '=' then Some(s[1..])
    else AfterEquals(s[1..])
  }

  function FactValue(f: Fact): Option<string> {
    if f.factValue.Some? then f.factValue
    else if AfterEquals(f.text).Some? then Some(Strip(AfterEquals(f.text).value))
    else if f.text != "" then Some(f.text)
    else None
  }

  lemma {:induction false} AfterFirstEquals(k: string, v: string)
    requires '=' !in k
    ensures AfterEquals(k + "=" + v) == Some(v)
  {
    if k == "" {
      assert k + "=" + v == "=" + v && ("=" + v)[1..] == v;
    } else {
      assert (k + "=" + v)[1..] == k[1..] + "=" + v;
      AfterFirstEquals(k[1..], v);
    }
  }

  /** A fact without a stored value is read off its text: what follows the first equals sign, or else all of it. */
  lemma ValueIsRead(f: Fact, k: string, v: string)
    requires f.factValue.None?
    ensures f.text == k + "=" + v && '=' !in k ==> FactValue(f) == Some(Strip(v))
    ensures '=' !in f.text ==> FactValue(f) == if f.text == "" then None else Some(f.text)
  {
    if f.text == k + "=" + v && '=' !in k {
      AfterFirstEquals(k, v);
    }
  }

  function NewFact(c: Candidate, id: nat, created: real): Fact {
    Fact(id, if c.key.Some? then Text(c.key.value) else Null, Absent, c.value, c.text,
         c.confidence, 0.7, created, true, None)
  }

  /** The holder stays when it says the same at least as surely, or something else clearly more surely. */
  predicate Keeps(holder: Fact, c: Candidate) {
    if FactValue(holder) == c.value then c.confidence <= holder.confidence
    else c.confidence + 0.05 < holder.confidence
  }

  function Upserted(store: Store, c: Candidate, holder: Option<Fact>, id: nat, created: real): Store
    requires holder.Some? ==> holder.value.id in store
  {
    if holder.None? then store[id := NewFact(c, id, created)]
    else if Keeps(holder.value, c) then store
    else Retire(store[id := NewFact(c, id, created)], holder.value.id, id)
  }

  /** `holder` is the newest listed fact with the key, or there is none. */
  predicate IsLatest(rows: seq<Fact>, key: string, holder: Option<Fact>) {
    match holder
    case None => forall f | f in rows :: !Holds(f, key)
    case Some(h) => h in rows && Holds(h, key) && forall f | f in rows && Holds(f, key) && f != h :: f.id < h.id
  }

  method LatestFactByKey(rows: seq<Fact>, key: string) returns (holder: Option<Fact>)
    requires forall i, j | 0 <= i < j < |rows| :: rows[i].id > rows[j].id
    ensures IsLatest(rows, key, holder)
  {
    var i := 0;
    while i < |rows|
      invariant 0 <= i <= |rows|
      invariant forall j | 0 <= j < i :: !Holds(rows[j], key)
    {
      if Holds(rows[i], key) {
        return Some(rows[i]);
      }
      i := i + 1;
    }
    holder := None;
  }

  // ---- Holders of a key ----

  predicate ActiveHolder(store: Store, key: string, id: nat) {
    id in store && store[id].active && Holds(store[id], key)
  }

  predicate AtMostOneHolder(store: Store, key: string) {
    forall a, b | a in store && b in store :: ActiveHolder(store, key, a) && ActiveHolder(store, key, b) ==> a == b
  }

  /** The store has an active holder of the key other than the one found. */
  predicate Overlooked(store: Store, key: string, found: Option<Fact>) {
    exists id | id in store :: ActiveHolder(store, key, id) && !(found.Some? && found.value.id == id)
  }

  /**
    Whatever the store has become since the lookup, the write keeps the key's active holder unique if and
    only if there is no write, or no active holder other than the one the lookup had found.
   */
  lemma UniqueHolderIff(store: Store, c: Candidate, found: Option<Fact>, id: nat, created: real)
    requires Keyed(store) && id !in store && c.key.Some? && (found.Some? ==> found.value.id in store)
    requires AtMostOneHolder(store, c.key.value)
    ensures AtMostOneHolder(Upserted(store, c, found, id, created), c.key.value) <==>
              (found.Some? && Keeps(found.value, c)) || !Overlooked(store, c.key.value, found)
  {
    var key, after := c.key.value, Upserted(store, c, found, id, created);
    if found.Some? && Keeps(found.value, c) {
    } else if Overlooked(store, key, found) {
      var other :| other in store && ActiveHolder(store, key, other) && !(found.Some? && found.value.id == other);
      assert ActiveHolder(after, key, other) && ActiveHolder(after, key, id);
    } else {
      forall a, b | ActiveHolder(after, key, a) && ActiveHolder(after, key, b) ensures a == b {
        assert a in store ==> ActiveHolder(store, key, a);
        assert b in store ==> ActiveHolder(store, key, b);
      }
    }
  }

  /**
    A candidate is stored if and only if there is no holder, or it is surer of the same value, or it has another
    value and is not less sure by more than 0.05.
   */
  lemma StoredIff(store: Store, c: Candidate, found: Option<Fact>, id: nat, created: real)
    requires id !in store && (found.Some? ==> found.value.id in store)
    ensures id in Upserted(store, c, found, id, created) <==>
              || found.None?
              || (FactValue(found.value) == c.value && c.confidence > found.value.confidence)
              || (FactValue(found.value) != c.value && c.confidence >= found.value.confidence - 0.05)
  {
  }

  /** What is stored is found again: the next lookup of the key gives the new fact, with the candidate's value. */
  lemma StoredFactIsFound(store: Store, c: Candidate, found: Option<Fact>, id: nat, created: real, rows: seq<Fact>,
                          again: Option<Fact>)
    requires Keyed(store) && (forall k | k in store :: k < id) && c.key.Some?
    requires found.Some? ==> found.value.id in store
    requires id in Upserted(store, c, found, id, created)
    requires Newest(Upserted(store, c, found, id, created), rows, LOOKUP_LIMIT) && IsLatest(rows, c.key.value, again)
    ensures again.Some? && again.value.id == id && again.value.active && again.value.text == c.text
    ensures again.value.confidence == c.confidence && (c.value.Some? ==> FactValue(again.value) == c.value)
  {
    var after := Upserted(store, c, found, id, created);
    assert after[id] == NewFact(c, id, created);
    assert |rows| == LOOKUP_LIMIT ==> rows[0] in rows && rows[0].id <= id;
    assert after[id] in rows;
  }

  /** So storing the same candidate twice stores it once. */
  lemma SecondUpsertIsQuiet(store: Store, c: Candidate, found: Option<Fact>, id: nat, id': nat, created: real,
                            later: real, rows: seq<Fact>, again: Option<Fact>)
    requires Keyed(store) && (forall k | k in store :: k < id) && c.key.Some?
    requires found.Some? ==> found.value.id in store
    requires c.value.Some? && id in Upserted(store, c, found, id, created)
    requires Newest(Upserted(store, c, found, id, created), rows, LOOKUP_LIMIT) && IsLatest(rows, c.key.value, again)
    ensures again.Some? && again.value.id in Upserted(store, c, found, id, created)
    ensures Upserted(Upserted(store, c, found, id, created), c, again, id', later)
         == Upserted(store, c, found, id, created)
  {
    StoredFactIsFound(store, c, found, id, created, rows, again);
  }

  /** Some active holder of the key is too old for the lookup to read. */
  predicate Hidden(store: Store, rows: seq<Fact>, key: string) {
    exists id | id in store :: ActiveHolder(store, key, id) && store[id] !in rows
  }

  /** While the page is still current, a holder is overlooked if and only if it is hidden from the lookup. */
  lemma OverlookedIsHidden(store: Store, rows: seq<Fact>, key: string, found: Option<Fact>)
    requires Keyed(store) && Listed(store, rows) && AtMostOneHolder(store, key) && IsLatest(rows, key, found)
    ensures Overlooked(store, key, found) <==> Hidden(store, rows, key)
  {
    if Overlooked(store, key, found) {
      var id :| id in store && ActiveHolder(store, key, id) && !(found.Some? && found.value.id == id);
      assert found.Some? ==> ActiveHolder(store, key, found.value.id);
      assert store[id] !in rows;
    }
    if Hidden(store, rows, key) {
      var id :| id in store && ActiveHolder(store, key, id) && store[id] !in rows;
    }
  }

  /** The lookup hides a holder only behind a full page of newer active facts. */
  lemma HiddenIsOld(store: Store, rows: seq<Fact>, key: string)
    requires Newest(store, rows, LOOKUP_LIMIT) && Hidden(store, rows, key)
    ensures |rows| == LOOKUP_LIMIT
    ensures exists id | id in store :: ActiveHolder(store, key, id) && forall r | r in rows :: r.id > id
  {
    var id :| id in store && ActiveHolder(store, key, id) && store[id] !in rows;
  }

  /**
    The fact an upsert answers with is at least as sure as the candidate and less sure than the one found by
    0.05 at most; it is active unless the upsert keeps a fact that has been retired since the lookup.
   */
  lemma AnswerIsSure(store: Store, c: Candidate, found: Option<Fact>, id: nat, created: real)
    requires Keyed(store) && id !in store
    requires found.Some? ==> found.value.id in store && store[found.value.id].confidence == found.value.confidence
    ensures var kept := found.Some? && Keeps(found.value, c);
            var answer, after := if kept then found.value.id else id, Upserted(store, c, found, id, created);
            && answer in after
            && (after[answer].active <==> !kept || store[found.value.id].active)
            && after[answer].confidence >= c.confidence
            && (found.Some? ==> after[answer].confidence >= found.value.confidence - 0.05)
            && (found.Some? && FactValue(found.value) == c.value ==>
                  after[answer].confidence >= found.value.confidence)
  {
  }

  // ---- A hidden holder ----

  /** Fact 1 holds the key; the others are newer and hold none. */
  function Numbered(id: nat, key: string): Fact {
    Fact(id, if id == 1 then Text(key) else Absent, Absent, None, "", 0.5, 0.7, 0.0, true, None)
  }

  function FullStore(key: string): Store { map id: nat | 1 <= id <= LOOKUP_LIMIT + 1 :: Numbered(id, key) }

  function FullPage(key: string): seq<Fact> {
    seq(LOOKUP_LIMIT, i requires 0 <= i < LOOKUP_LIMIT => Numbered(LOOKUP_LIMIT + 1 - i, key))
  }

  lemma PageIsNewest(key: string)
    ensures Newest(FullStore(key), FullPage(key), LOOKUP_LIMIT)
  {
    var store, rows := FullStore(key), FullPage(key);
    forall id | id in store && id > 1 ensures store[id] in rows {
      assert rows[LOOKUP_LIMIT + 1 - id] == store[id];
    }
  }

  /** It happens: behind 200 newer facts the only holder of a key is missed, and the key gets a second one. */
  lemma SecondHolderReachable(key: string, c: Candidate, id: nat, created: real)
    requires key != "" && c.key == Some(key) && id > LOOKUP_LIMIT + 1
    ensures var store, rows := FullStore(key), FullPage(key);
            && Keyed(store) && Newest(store, rows, LOOKUP_LIMIT) && AtMostOneHolder(store, key)
            && IsLatest(rows, key, None)
            && !AtMostOneHolder(Upserted(store, c, None, id, created), key)
  {
    var store, rows := FullStore(key), FullPage(key);
    PageIsNewest(key);
    assert ActiveHolder(store, key, 1) && store[1] !in rows;
    assert forall f | f in rows :: !Holds(f, key);
    UniqueHolderIff(store, c, None, id, created);
  }
}
