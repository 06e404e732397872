/** Interpolated percentiles and the latency distribution of run health (agents/agent_run_manager.py). */
module Percentile {
  import opened Common
  import opened Backoff
  import opened Sorting

  predicate Leq(a: real, b: real) { a <= b }

  function Clamp(p: real): real { MaxReal(0.0, MinReal(100.0, p)) }

  lemma Scaled(w: real, m: real)
    requires 0.0 <= w <= 1.0 && m >= 0.0
    ensures 0.0 <= w * m <= m
  {
    assert m - w * m == (1.0 - w) * m;
  }

  /** The fractional index of percentile `p` in a list of `n` values. */
  function Position(p: real, n: nat): (x: real)
    requires n >= 1
    ensures 0.0 <= x <= (n - 1) as real
  {
    var fraction, top := Clamp(p) / 100.0, (n - 1) as real;
    Scaled(fraction, top);
    fraction * top
  }

  function Blend(a: real, b: real, weight: real): real { a * (1.0 - weight) + b * weight }

  /** The value a fraction of the way between two neighbours of a list. */
  function Between(values: seq<real>, x: real): real
    requires values != [] && 0.0 <= x <= (|values| - 1) as real
  {
    var lower := x.Floor;
    Blend(values[lower], values[Min(lower + 1, |values| - 1)], x - lower as real)
  }

  function Percentile(values: seq<real>, p: real): real {
    if values == [] then 0.0
    else if |values| == 1 then values[0]
    else Between(values, Position(p, |values|))
  }

  lemma Product(a: real, b: real)
    requires a >= 0.0 && b >= 0.0
    ensures a * b >= 0.0
  {
  }

  /** Interpolation between ordered values stays between them and grows with the weight. */
  lemma Interpolates(a: real, b: real, v: real, w: real)
    requires a <= b && 0.0 <= v <= w <= 1.0
    ensures a <= Blend(a, b, v) <= Blend(a, b, w) <= b
  {
    var d := b - a;
    assert Blend(a, b, v) == a + v * d && Blend(a, b, w) == a + w * d;
    Scaled(w, d);
    Product(v, d);
    Product(w - v, d);
    assert w * d == v * d + (w - v) * d;
  }

  lemma Ordered(values: seq<real>, i: nat, j: nat)
    requires Sorted(values, Leq) && i <= j < |values|
    ensures values[i] <= values[j]
  {
    assert i < j ==> Leq(values[i], values[j]);
  }

  /** Over a sorted list the interpolated value is monotone in the position. */
  lemma BetweenMonotone(values: seq<real>, x: real, y: real)
    requires Sorted(values, Leq) && values != [] && 0.0 <= x <= y <= (|values| - 1) as real
    ensures Between(values, x) <= Between(values, y)
    ensures values[0] <= Between(values, x) && Between(values, y) <= Last(values)
  {
    var n := |values|;
    var i, j := x.Floor, y.Floor;
    var i', j' := Min(i + 1, n - 1), Min(j + 1, n - 1);
    var a, a', b, b' := values[i], values[i'], values[j], values[j'];
    Ordered(values, 0, i);
    Ordered(values, i, i');
    Ordered(values, j, j');
    Ordered(values, j', n - 1);
    if i == j {
      Interpolates(a, a', x - i as real, y - i as real);
    } else {
      Ordered(values, i', j);
      Interpolates(a, a', x - i as real, x - i as real);
      Interpolates(b, b', y - j as real, y - j as real);
    }
  }

  /** For every sorted non-empty sample: percentiles are monotone in `p` and bounded by the extremes. */
  lemma PercentileMonotone(values: seq<real>, p: real, q: real)
    requires Sorted(values, Leq) && values != [] && p <= q
    ensures values[0] <= Percentile(values, p) <= Percentile(values, q) <= Last(values)
  {
    if |values| > 1 {
      var m := (|values| - 1) as real;
      Product(Clamp(q) / 100.0 - Clamp(p) / 100.0, m);
      assert Clamp(q) / 100.0 * m - Clamp(p) / 100.0 * m == (Clamp(q) / 100.0 - Clamp(p) / 100.0) * m;
      BetweenMonotone(values, Position(p, |values|), Position(q, |values|));
    }
  }

  datatype Distribution = Distribution(count: nat, min: real, max: real, median: real, p95: real)

  lemma PositionOfRank(k: real, top: real)
    requires 0.0 <= k <= top && top >= 1.0
    ensures 0.0 <= 100.0 * k / top <= 100.0 && (100.0 * k / top) / 100.0 * top == k
  {
    var q := k / top;
    assert q * top == k;
    assert 100.0 * k / top == 100.0 * q;
    if q < 0.0 {
      Product(-q, top);
    }
    if q > 1.0 {
      Product(q - 1.0, top);
    }
  }

  /** The percentile that falls on rank `k` is the value of that rank; 0 and 100 are the extremes. */
  lemma PercentileAtRank(values: seq<real>, k: nat)
    requires k < |values| && |values| > 1
    ensures Percentile(values, 100.0 * k as real / (|values| - 1) as real) == values[k]
    ensures Percentile(values, 0.0) == values[0] && Percentile(values, 100.0) == Last(values)
  {
    var top := (|values| - 1) as real;
    PositionOfRank(k as real, top);
    assert Position(100.0 * k as real / top, |values|) == k as real;
  }

  /** Between two values a percentile is a point on the line; outside 0 to 100 it is an end. */
  lemma PercentileOfTwo(a: real, b: real, p: real)
    ensures 0.0 <= p <= 100.0 ==> Percentile([a, b], p) == a + (b - a) * p / 100.0
    ensures p < 0.0 ==> Percentile([a, b], p) == a
    ensures p > 100.0 ==> Percentile([a, b], p) == b
    ensures Percentile([a], p) == a && Percentile([], p) == 0.0
  {
    var x := Clamp(p) / 100.0;
    assert Position(p, 2) == x;
    if x < 1.0 {
      assert x.Floor == 0;
    } else {
      assert x == 1.0 && x.Floor == 1;
    }
    assert a * (1.0 - x) + b * x == a + (b - a) * x;
  }

  function NonNegative(values: seq<real>): seq<real> {
    seq(|values|, i requires 0 <= i < |values| => MaxReal(0.0, values[i]))
  }

  function Distribute(values: seq<real>): Distribution {
    if values == [] then Distribution(0, 0.0, 0.0, 0.0, 0.0)
    else
      var sorted := Sort(NonNegative(values), Leq);
      Distribution(|sorted|, sorted[0], Last(sorted), Percentile(sorted, 50.0), Percentile(sorted, 95.0))
  }

  /** The value counts as zero if it is negative. */
  predicate CountsAs(v: real, x: real) { x == if v < 0.0 then 0.0 else v }

  lemma NonNegativeAre(values: seq<real>, x: real)
    requires x in NonNegative(values)
    ensures exists v | v in values :: CountsAs(v, x)
  {
    var i :| 0 <= i < |values| && NonNegative(values)[i] == x;
    assert CountsAs(values[i], x);
  }

  lemma InSample(values: seq<real>, sorted: seq<real>, v: real)
    requires v in values && sorted != [] && Sorted(sorted, Leq) && multiset(sorted) == multiset(NonNegative(values))
    ensures sorted[0] <= MaxReal(0.0, v) <= Last(sorted)
  {
    var i :| 0 <= i < |values| && values[i] == v;
    assert NonNegative(values)[i] in multiset(sorted);
    var k :| 0 <= k < |sorted| && sorted[k] == MaxReal(0.0, v);
    Ordered(sorted, 0, k);
    Ordered(sorted, k, |sorted| - 1);
  }

  lemma Quotient(x: real, y: real, p: real)
    requires y > 0.0 && p * y == x
    ensures x / y == p
  {
  }

  lemma PercentileOnRank(values: seq<real>, k: nat, p: real)
    requires k < |values| && |values| > 1 && p * (|values| - 1) as real == 100.0 * k as real
    ensures Percentile(values, p) == values[k]
  {
    Quotient(100.0 * k as real, (|values| - 1) as real, p);
    PercentileAtRank(values, k);
  }

  /** Of 20n + 1 values the median is the middle one and p95 the one n places from the top. */
  lemma MedianAndP95(values: seq<real>, n: nat)
    requires |values| == 20 * n + 1 && n > 0
    ensures var sorted, d := Sort(NonNegative(values), Leq), Distribute(values);
            |sorted| == |values| && d.median == sorted[10 * n] && d.p95 == sorted[19 * n]
  {
    var sorted := Sort(NonNegative(values), Leq);
    PercentileOnRank(sorted, 10 * n, 50.0);
    PercentileOnRank(sorted, 19 * n, 95.0);
  }

  /** For every sample, sorted or not: 0 <= min <= median <= p95 <= max, and both extremes occur in it. */
  lemma DistributionIsOrdered(values: seq<real>)
    ensures var d := Distribute(values);
            && d.count == |values|
            && 0.0 <= d.min <= d.median <= d.p95 <= d.max
            && (values != [] ==> exists v | v in values :: CountsAs(v, d.min))
            && (values != [] ==> exists v | v in values :: CountsAs(v, d.max))
            && (values == [] ==> d.max == 0.0)
            && forall v | v in values :: v <= d.max && (d.min <= v || d.min == 0.0)
  {
    if values != [] {
      var given := NonNegative(values);
      var sorted := Sort(given, Leq);
      SortSorts(given, Leq);
      PercentileMonotone(sorted, 50.0, 95.0);
      assert sorted[0] in multiset(given) && Last(sorted) in multiset(given);
      NonNegativeAre(values, sorted[0]);
      NonNegativeAre(values, Last(sorted));
      forall v | v in values ensures v <= Last(sorted) && (sorted[0] <= v || sorted[0] == 0.0) {
        InSample(values, sorted, v);
      }
    }
  }
}
