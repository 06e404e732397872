/** A stable sort, standing for Python's `sorted` and `list.sort`. */
module Sorting {
  import opened Common

  ghost predicate TotalPreorder<T(!new)>(leq: (T, T) -> bool) {
    && (forall x, y :: leq(x, y) || leq(y, x))
    && (forall x, y, z :: leq(x, y) && leq(y, z) ==> leq(x, z))
  }

  predicate Sorted<T>(s: seq<T>, leq: (T, T) -> bool) { forall i, j | 0 <= i < j < |s| :: leq(s[i], s[j]) }

  function Insert<T>(s: seq<T>, x: T, leq: (T, T) -> bool): (r: seq<T>)
    ensures |r| == |s| + 1 && multiset(r) == multiset(s) + multiset{x}
  {
    if s == [] then [x]
    else if leq(Last(s), x) then s + [x]
    else
      assert s == Init(s) + [Last(s)];
      Insert(Init(s), x, leq) + [Last(s)]
  }

  /** The elements of `s` in ascending order, equal ones in their original order. */
  function Sort<T>(s: seq<T>, leq: (T, T) -> bool): (r: seq<T>)
    ensures |r| == |s| && multiset(r) == multiset(s)
  {
    if s == [] then []
    else
      assert s == Init(s) + [Last(s)];
      Insert(Sort(Init(s), leq), Last(s), leq)
  }

  lemma {:induction false} InsertKeepsSorted<T(!new)>(s: seq<T>, x: T, leq: (T, T) -> bool)
    requires TotalPreorder(leq) && Sorted(s, leq)
    ensures Sorted(Insert(s, x, leq), leq)
  {
    if s != [] && !leq(Last(s), x) {
      InsertKeepsSorted(Init(s), x, leq);
      var front := Insert(Init(s), x, leq);
      forall i | 0 <= i < |front| ensures leq(front[i], Last(s)) {
        assert front[i] in multiset(Init(s)) + multiset{x};
      }
    }
  }

  lemma {:induction false} SortSorts<T(!new)>(s: seq<T>, leq: (T, T) -> bool)
    requires TotalPreorder(leq)
    ensures Sorted(Sort(s, leq), leq)
  {
    if s != [] {
      SortSorts(Init(s), leq);
      InsertKeepsSorted(Sort(Init(s), leq), Last(s), leq);
    }
  }

  lemma SortMembers<T(!new)>(s: seq<T>, leq: (T, T) -> bool)
    ensures forall x :: x in Sort(s, leq) <==> x in s
  {
    assert forall x :: x in multiset(Sort(s, leq)) <==> x in Sort(s, leq);
    assert forall x :: x in multiset(s) <==> x in s;
  }

  lemma InsertMembers<T(!new)>(s: seq<T>, x: T, leq: (T, T) -> bool)
    ensures forall y :: y in Insert(s, x, leq) <==> y in s || y == x
  {
    assert forall y :: y in multiset(Insert(s, x, leq)) <==> y in Insert(s, x, leq);
    assert forall y :: y in multiset(s) <==> y in s;
  }
}
