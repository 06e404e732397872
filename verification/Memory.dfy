/** Semantic facts, their group and value keys and their rank (memory/memory_manager.py). */
module Memory {
  import opened Common
  import opened Backoff
  import opened Sorting
  import opened Text

  /** An entry of a fact's metadata dictionary. */
  datatype Meta = Absent | Null | Text(text: string)
  {
    /** `str(metadata.get(name, ""))`: a stored null prints as a word. */
    function Printed(): string {
      match this
      case Absent => ""
      case Null => "None"
      case Text(text) => text
    }
  }

  /** A stored fact; times are seconds. */
  datatype Fact = Fact(id: nat, factKey: Meta, fingerprint: Meta, factValue: Option<string>, text: string,
                       confidence: real, importance: real, created: real, active: bool, supersededBy: Option<nat>)
  {
    function Retired(winner: nat): Fact { this.(active := false, supersededBy := Some(winner)) }
  }

  function Clip(s: string, n: nat): string { s[..Min(n, |s|)] }

  function Clean(s: string): string { Lower(Strip(s)) }

  function Decimal(n: nat): string {
    if n < 10 then ["0123456789"[n]] else Decimal(n / 10) + ["0123456789"[n % 10]]
  }

  /** Facts with the same key compete; without a key, facts with the same fingerprint or text do. */
  function GroupKey(f: Fact): string {
    var factKey, fingerprint := Clean(f.factKey.Printed()), Clean(f.fingerprint.Printed());
    if factKey != "" then "fact:" + factKey
    else if fingerprint != "" then "fp:" + fingerprint
    else if Clean(f.text) != "" then "text:" + Clip(Clean(f.text), 120)
    else "id:" + Decimal(f.id)
  }

  function ValueKey(f: Fact): string {
    if f.factValue.Some? then "value:" + Clean(f.factValue.value) else "text:" + Clip(Clean(f.text), 160)
  }

  // ---- Who competes with whom ----

  lemma {:induction false} DecimalInjective(m: nat, n: nat)
    requires Decimal(m) == Decimal(n)
    ensures m == n
  {
    assert Last(Decimal(m)) == "0123456789"[m % 10] && Last(Decimal(n)) == "0123456789"[n % 10];
    assert m % 10 == n % 10;
    if m >= 10 && n >= 10 {
      assert Init(Decimal(m)) == Decimal(m / 10) && Init(Decimal(n)) == Decimal(n / 10);
      DecimalInjective(m / 10, n / 10);
    }
  }

  /** Two texts agree on their first `n` characters. */
  predicate AgreeUpTo(s: string, t: string, n: nat) {
    s == t || (|s| >= n && |t| >= n && s[..n] == t[..n])
  }

  lemma ClipsAgree(s: string, t: string, n: nat)
    ensures Clip(s, n) == Clip(t, n) <==> AgreeUpTo(s, t, n)
  {
    if Clip(s, n) == Clip(t, n) && |s| < n {
      assert s == Clip(s, n) && |t| < n && t == Clip(t, n);
    }
  }

  /** The key of a fact, its fingerprint and its text, stripped and in lower case; a stored null reads "none". */
  function KeyText(f: Fact): string { Lower(Strip(f.factKey.Printed())) }

  /** A null key reads as a word, so facts stored without a key share one with each other and with that word. */
  lemma NullKeyIsAWord(f: Fact)
    ensures f.factKey.Null? ==> KeyText(f) == "none"
    ensures f.factKey.Absent? ==> KeyText(f) == ""
  {
    assert Strip("None") == "None" && Lower("None") == "none";
  }

  function PrintText(f: Fact): string { Lower(Strip(f.fingerprint.Printed())) }

  function PlainText(f: Fact): string { Lower(Strip(f.text)) }

  /**
    Facts with a key compete with those of the same key and no others. Facts without one compete by
    fingerprint, facts with neither by the first 120 characters of their text, and the rest with nobody.
   */
  predicate Compete(f: Fact, g: Fact) {
    if KeyText(f) != "" || KeyText(g) != "" then KeyText(f) == KeyText(g)
    else if PrintText(f) != "" || PrintText(g) != "" then PrintText(f) == PrintText(g)
    else if PlainText(f) != "" || PlainText(g) != "" then AgreeUpTo(PlainText(f), PlainText(g), 120)
    else f.id == g.id
  }

  lemma SamePrefix(p: string, a: string, b: string)
    requires p + a == p + b
    ensures a == b
  {
    assert (p + a)[|p|..] == a && (p + b)[|p|..] == b;
  }

  /** The kind of a group key: it shows in the first two letters. */
  function KindOf(f: Fact): string {
    if KeyText(f) != "" then "fact:" else if PrintText(f) != "" then "fp:"
    else if PlainText(f) != "" then "text:" else "id:"
  }

  function NameOf(f: Fact): string {
    if KeyText(f) != "" then KeyText(f) else if PrintText(f) != "" then PrintText(f)
    else if PlainText(f) != "" then Clip(PlainText(f), 120) else Decimal(f.id)
  }

  lemma SameGroupIff(f: Fact, g: Fact)
    ensures GroupKey(f) == GroupKey(g) <==> KindOf(f) == KindOf(g) && NameOf(f) == NameOf(g)
  {
    if GroupKey(f) == GroupKey(g) {
      var p, q := KindOf(f), KindOf(g);
      assert p + NameOf(f) == q + NameOf(g);
      assert p[0] == (p + NameOf(f))[0] == q[0] && p[1] == (p + NameOf(f))[1] == q[1];
      SamePrefix(p, NameOf(f), NameOf(g));
    }
  }

  lemma GroupKeyIff(f: Fact, g: Fact)
    ensures GroupKey(f) == GroupKey(g) <==> Compete(f, g)
  {
    SameGroupIff(f, g);
    ClipsAgree(PlainText(f), PlainText(g), 120);
    if Decimal(f.id) == Decimal(g.id) {
      DecimalInjective(f.id, g.id);
    }
  }

  /** Facts have the same value if both give one, up to case and outer space, or neither does and the texts agree. */
  predicate SameValue(f: Fact, g: Fact) {
    if f.factValue.Some? && g.factValue.Some? then Lower(Strip(f.factValue.value)) == Lower(Strip(g.factValue.value))
    else f.factValue.None? && g.factValue.None? && AgreeUpTo(PlainText(f), PlainText(g), 160)
  }

  lemma ValueKeyIff(f: Fact, g: Fact)
    ensures ValueKey(f) == ValueKey(g) <==> SameValue(f, g)
  {
    ClipsAgree(PlainText(f), PlainText(g), 160);
    if ValueKey(f) == ValueKey(g) {
      assert ValueKey(f)[0] == if f.factValue.Some? then 'v' else 't';
      assert ValueKey(g)[0] == if g.factValue.Some? then 'v' else 't';
      if f.factValue.Some? {
        SamePrefix("value:", Clean(f.factValue.value), Clean(g.factValue.value));
      } else {
        SamePrefix("text:", Clip(Clean(f.text), 160), Clip(Clean(g.text), 160));
      }
    }
  }

  // ---- Rank ----

  datatype Rank = Rank(score: real, confidence: real, importance: real, created: real, id: nat)

  function Recency(created: real, now: real): real {
    1.0 / (1.0 + MaxReal(0.0, (now - created) / 86400.0) / 7.0)
  }

  function RankOf(f: Fact, now: real): Rank {
    Rank(0.55 * f.confidence + 0.25 * f.importance + 0.20 * Recency(f.created, now),
         f.confidence, f.importance, f.created, f.id)
  }

  /** Lexicographic order on rank tuples. */
  predicate Above(a: Rank, b: Rank) {
    || a.score > b.score
    || (a.score == b.score &&
        (|| a.confidence > b.confidence
         || (a.confidence == b.confidence &&
             (|| a.importance > b.importance
              || (a.importance == b.importance &&
                  (|| a.created > b.created
                   || (a.created == b.created && a.id > b.id)))))))
  }

  lemma AboveIsStrictOrder(a: Rank, b: Rank, c: Rank)
    ensures !(Above(a, b) && Above(b, a))
    ensures Above(a, b) && Above(b, c) ==> Above(a, c)
    ensures Above(a, b) || Above(b, a) || a == b
  {
  }

  /** `a` beats `b` at time `now`. */
  predicate Beats(a: Fact, b: Fact, now: real) { Above(RankOf(a, now), RankOf(b, now)) }

  lemma InverseFalls(x: real, y: real)
    requires 0.0 < x <= y
    ensures 1.0 / y <= 1.0 / x
  {
    assert (1.0 / x) * x == 1.0 && (1.0 / y) * y == 1.0;
    assert (1.0 / x) * y >= 1.0;
  }

  lemma RecencyGrows(created: real, later: real, now: real)
    requires created <= later
    ensures Recency(created, now) <= Recency(later, now)
  {
    var x := 1.0 + MaxReal(0.0, (now - later) / 86400.0) / 7.0;
    var y := 1.0 + MaxReal(0.0, (now - created) / 86400.0) / 7.0;
    assert 1.0 <= x <= y;
    InverseFalls(x, y);
  }

  /** A fact from the future is as recent as one from now. */
  lemma RecencyAhead(created: real, now: real)
    requires created >= now
    ensures Recency(created, now) == 1.0
  {
    assert (now - created) / 86400.0 <= 0.0;
  }

  /**
    At equal age, eleven parts of confidence weigh five of importance, then the surer and then the later fact
    wins. Of facts alike in both, the newer wins.
   */
  lemma RankRules(a: Fact, b: Fact, now: real)
    ensures a.created == b.created ==>
              var lead := 11.0 * (a.confidence - b.confidence) + 5.0 * (a.importance - b.importance);
              Beats(a, b, now) <==>
                || lead > 0.0
                || (lead == 0.0 && (a.confidence > b.confidence || (a.confidence == b.confidence && a.id > b.id)))
    ensures a.confidence == b.confidence && a.importance == b.importance && a.created > b.created ==> Beats(a, b, now)
  {
    if a.confidence == b.confidence && a.importance == b.importance && a.created > b.created {
      RecencyGrows(b.created, a.created, now);
    }
  }

  /** The order `sorted(..., reverse=True)` puts facts in. */
  predicate NotBeaten(a: Fact, b: Fact, now: real) { !Beats(b, a, now) }

  lemma NotBeatenIsTotal(now: real)
    ensures TotalPreorder((a: Fact, b: Fact) => NotBeaten(a, b, now))
  {
    forall a: Fact, b: Fact, c: Fact
      ensures NotBeaten(a, b, now) || NotBeaten(b, a, now)
      ensures NotBeaten(a, b, now) && NotBeaten(b, c, now) ==> NotBeaten(a, c, now)
    {
      AboveIsStrictOrder(RankOf(a, now), RankOf(b, now), RankOf(c, now));
      AboveIsStrictOrder(RankOf(c, now), RankOf(b, now), RankOf(a, now));
      AboveIsStrictOrder(RankOf(c, now), RankOf(a, now), RankOf(b, now));
    }
  }

  predicate DistinctIds(facts: seq<Fact>) { forall i, j | 0 <= i < j < |facts| :: facts[i].id != facts[j].id }

  /** `w` is one of the facts and beats every other one. */
  predicate IsBest(facts: seq<Fact>, w: Fact, now: real) {
    w in facts && forall f | f in facts && f.id != w.id :: Beats(w, f, now)
  }

  function Ranked(facts: seq<Fact>, now: real): seq<Fact> {
    Sort(facts, (a: Fact, b: Fact) => NotBeaten(a, b, now))
  }

  /** The head of the ranking. */
  function Best(facts: seq<Fact>, now: real): Fact
    requires facts != []
  {
    Ranked(facts, now)[0]
  }

  lemma BestIsBest(facts: seq<Fact>, now: real)
    requires facts != []
    ensures IsBest(facts, Best(facts, now), now)
  {
    var leq := (a: Fact, b: Fact) => NotBeaten(a, b, now);
    var ranked := Ranked(facts, now);
    NotBeatenIsTotal(now);
    SortSorts(facts, leq);
    assert ranked[0] in multiset(facts);
    forall f | f in facts && f.id != ranked[0].id ensures Beats(ranked[0], f, now) {
      assert f in multiset(ranked);
      var i :| 0 <= i < |ranked| && ranked[i] == f;
      assert i > 0 && leq(ranked[0], ranked[i]);
      AboveIsStrictOrder(RankOf(ranked[0], now), RankOf(f, now), RankOf(f, now));
    }
  }

  /** Only one fact can be best among facts with distinct ids. */
  lemma BestIsUnique(facts: seq<Fact>, a: Fact, b: Fact, now: real)
    requires DistinctIds(facts) && IsBest(facts, a, now) && IsBest(facts, b, now)
    ensures a == b
  {
    if a.id != b.id {
      AboveIsStrictOrder(RankOf(a, now), RankOf(b, now), RankOf(a, now));
    }
  }

  predicate FreshId(facts: seq<Fact>, f: Fact) { forall g | g in facts :: g.id != f.id }

  lemma DistinctSnoc(facts: seq<Fact>, f: Fact)
    ensures DistinctIds(facts + [f]) <==> DistinctIds(facts) && FreshId(facts, f)
  {
    if DistinctIds(facts + [f]) {
      forall g | g in facts ensures g.id != f.id {
        var i :| 0 <= i < |facts| && facts[i] == g;
        assert (facts + [f])[i] == g && (facts + [f])[|facts|] == f;
      }
      forall i, j | 0 <= i < j < |facts| ensures facts[i].id != facts[j].id {
        assert (facts + [f])[i] == facts[i] && (facts + [f])[j] == facts[j];
      }
    }
  }

  lemma {:induction false} InsertKeepsDistinct(facts: seq<Fact>, f: Fact, leq: (Fact, Fact) -> bool)
    requires DistinctIds(facts) && FreshId(facts, f)
    ensures DistinctIds(Insert(facts, f, leq))
  {
    if facts == [] {
    } else if leq(Last(facts), f) {
      DistinctSnoc(facts, f);
    } else {
      var front, last := Init(facts), Last(facts);
      assert facts == front + [last];
      DistinctSnoc(front, last);
      InsertKeepsDistinct(front, f, leq);
      InsertMembers(front, f, leq);
      DistinctSnoc(Insert(front, f, leq), last);
    }
  }

  lemma {:induction false} SortKeepsDistinct(facts: seq<Fact>, leq: (Fact, Fact) -> bool)
    requires DistinctIds(facts)
    ensures DistinctIds(Sort(facts, leq))
  {
    if facts != [] {
      assert facts == Init(facts) + [Last(facts)];
      DistinctSnoc(Init(facts), Last(facts));
      SortKeepsDistinct(Init(facts), leq);
      SortMembers(Init(facts), leq);
      InsertKeepsDistinct(Sort(Init(facts), leq), Last(facts), leq);
    }
  }
}
