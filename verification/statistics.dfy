/** Descriptive statistics of the analytics engine: mean, variance, extremes and
    interpolated percentiles.  The variance stands for its square root, the deviation. */
module Statistics {
  import opened Sums
  import opened Trend
  import opened Sorting

  function Variance(ys: seq<real>): real
    requires ys != []
  {
    Deviation(ys, Mean(ys)) / |ys| as real
  }

  predicate Ascending(a: real, b: real) {
    a <= b
  }

  function Ceil(r: real): int {
    -(-r).Floor
  }

  /** The value at a fractional position of sorted data, interpolated between neighbours. */
  function At(s: seq<real>, r: real): real
    requires s != [] && 0.0 <= r <= (|s| - 1) as real
  {
    var lower, upper := r.Floor, Ceil(r);
    if lower == upper then s[lower]
    else s[lower] * (1.0 - (r - lower as real)) + s[upper] * (r - lower as real)
  }

  function Rank(n: nat, p: nat): (r: real)
    requires 0 < n && p <= 100
    ensures 0.0 <= r <= (n - 1) as real
  {
    var f := p as real / 100.0;
    RankBound(f, (n - 1) as real);
    Times(f, (n - 1) as real)
  }

  lemma RankBound(f: real, m: real)
    requires 0.0 <= f <= 1.0 && 0.0 <= m
    ensures 0.0 <= Times(f, m) <= m
  {
    ScaleMonotone(0.0, f, m);
    ScaleMonotone(f, 1.0, m);
    assert Times(0.0, m) == 0.0 && Times(1.0, m) == m;
  }

  /** The p-th percentile of sorted data. */
  function Percentile(s: seq<real>, p: nat): real
    requires s != [] && p <= 100
  {
    if |s| == 1 then s[0] else At(s, Rank(|s|, p))
  }

  lemma AtBetween(s: seq<real>, r: real)
    requires s != [] && SortedBy(s, Ascending) && 0.0 <= r <= (|s| - 1) as real
    ensures s[r.Floor] <= At(s, r) <= s[Ceil(r)]
  {
    var lower, upper := r.Floor, Ceil(r);
    if lower != upper {
      assert Ascending(s[lower], s[upper]);
      Blend(s[lower], s[upper], r - lower as real);
    }
  }

  lemma Blend(lo: real, hi: real, w: real)
    requires lo <= hi && 0.0 <= w <= 1.0
    ensures lo <= lo * (1.0 - w) + hi * w <= hi
  {
    assert lo * (1.0 - w) + hi * w == lo + Times(w, hi - lo);
    RankBound(w, hi - lo);
  }

  lemma BlendMonotone(lo: real, hi: real, v: real, w: real)
    requires lo <= hi && 0.0 <= v <= w <= 1.0
    ensures lo * (1.0 - v) + hi * v <= lo * (1.0 - w) + hi * w
  {
    assert lo * (1.0 - v) + hi * v == lo + Times(v, hi - lo);
    assert lo * (1.0 - w) + hi * w == lo + Times(w, hi - lo);
    ScaleMonotone(v, w, hi - lo);
  }

  /** Farther along sorted data the interpolated value does not fall. */
  lemma AtMonotone(s: seq<real>, q: real, r: real)
    requires s != [] && SortedBy(s, Ascending) && 0.0 <= q <= r <= (|s| - 1) as real
    ensures At(s, q) <= At(s, r)
  {
    AtBetween(s, q);
    AtBetween(s, r);
    if q.Floor == r.Floor {
      var lower := q.Floor;
      if q != lower as real && r != lower as real {
        assert Ascending(s[lower], s[Ceil(q)]);
        BlendMonotone(s[lower], s[Ceil(q)], q - lower as real, r - lower as real);
      }
    } else {
      assert Ceil(q) <= r.Floor;
      assert Ceil(q) < r.Floor ==> Ascending(s[Ceil(q)], s[r.Floor]);
    }
  }

  /** Percentiles grow with p, and lie between the extremes. */
  lemma PercentileMonotone(s: seq<real>, p: nat, q: nat)
    requires s != [] && SortedBy(s, Ascending) && p <= q <= 100
    ensures s[0] <= Percentile(s, p) <= Percentile(s, q) <= s[|s| - 1]
  {
    if |s| > 1 {
      RankMonotone(|s|, p, q);
      AtMonotone(s, Rank(|s|, p), Rank(|s|, q));
      AtMonotone(s, 0.0, Rank(|s|, p));
      AtMonotone(s, Rank(|s|, q), (|s| - 1) as real);
    }
  }

  lemma RankMonotone(n: nat, p: nat, q: nat)
    requires 0 < n && p <= q <= 100
    ensures Rank(n, p) <= Rank(n, q)
  {
    ScaleMonotone(p as real / 100.0, q as real / 100.0, (n - 1) as real);
  }

  lemma ScaleMonotone(f: real, g: real, m: real)
    requires f <= g && 0.0 <= m
    ensures Times(f, m) <= Times(g, m)
  {
    if f < g && 0.0 < m {
      TimesPositive(g - f, m);
      assert Times(g, m) == Times(f, m) + Times(g - f, m);
    }
  }

  datatype Stats = Stats(count: nat, mean: real, variance: real, min: real, max: real,
                         p50: real, p95: real, p99: real, iqr: real)

  function StatsOf(ys: seq<real>): Stats
    requires ys != []
  {
    SortPermutes(ys, Ascending);
    var s := Sort(ys, Ascending);
    Stats(|ys|, Mean(ys), Variance(ys), s[0], s[|s| - 1],
          Percentile(s, 50), Percentile(s, 95), Percentile(s, 99), Percentile(s, 75) - Percentile(s, 25))
  }

  /** The order of the figures: nothing falls outside the data, and the spread is not negative. */
  lemma StatsAreOrdered(ys: seq<real>)
    requires ys != []
    ensures StatsOf(ys).min <= StatsOf(ys).p50 <= StatsOf(ys).p95 <= StatsOf(ys).p99 <= StatsOf(ys).max
    ensures StatsOf(ys).iqr >= 0.0 && StatsOf(ys).variance >= 0.0
  {
    var s := Sort(ys, Ascending);
    SortPermutes(ys, Ascending);
    SortSorts(ys, Ascending);
    PercentileMonotone(s, 50, 95);
    PercentileMonotone(s, 95, 99);
    PercentileMonotone(s, 25, 75);
    VarianceSign(ys);
  }

  lemma VarianceSign(ys: seq<real>)
    requires ys != []
    ensures Variance(ys) >= 0.0
    ensures Deviation(ys, Mean(ys)) == Times(Variance(ys), |ys| as real)
  {
    AverageDeviation(ys, Mean(ys));
  }

  lemma AverageDeviation(ys: seq<real>, from: real)
    requires ys != []
    ensures var v := Deviation(ys, from) / |ys| as real; v >= 0.0 && Deviation(ys, from) == Times(v, |ys| as real)
  {
    DeviationSign(ys, from);
    AverageOf(Deviation(ys, from), |ys| as real);
  }

  lemma AverageOf(total: real, n: real)
    requires total >= 0.0 && n > 0.0
    ensures total / n >= 0.0 && total == Times(total / n, n)
  {
  }

  /** The minimum and the maximum are attained and bound every sample. */
  lemma ExtremesBound(ys: seq<real>, i: nat)
    requires i < |ys|
    ensures StatsOf(ys).min <= ys[i] <= StatsOf(ys).max
    ensures StatsOf(ys).min in ys && StatsOf(ys).max in ys
  {
    var s := Sort(ys, Ascending);
    SortPermutes(ys, Ascending);
    SortSorts(ys, Ascending);
    assert ys[i] in multiset(ys) && s[0] in multiset(s) && s[|s| - 1] in multiset(s);
    EndsBound(s, ys[i]);
  }

  lemma EndsBound(s: seq<real>, v: real)
    requires SortedBy(s, Ascending) && v in multiset(s)
    ensures s != [] && s[0] <= v <= s[|s| - 1]
  {
    var k :| 0 <= k < |s| && s[k] == v;
    assert 0 < k ==> Ascending(s[0], s[k]);
    assert k < |s| - 1 ==> Ascending(s[k], s[|s| - 1]);
  }

  lemma {:induction false} SumOfInsert(x: real, s: seq<real>)
    ensures Sum(Insert(x, s, Ascending)) == Sum(s) + x
  {
    if s == [] || Ascending(x, s[0]) {
      SumConcat([x], s);
      assert s == [] ==> [x] + s == [x];
    } else {
      SumOfInsert(x, s[1..]);
      SumConcat([s[0]], Insert(x, s[1..], Ascending));
      SumConcat([s[0]], s[1..]);
      assert s == [s[0]] + s[1..];
    }
  }

  lemma {:induction false} SumOfSort(ys: seq<real>)
    ensures Sum(Sort(ys, Ascending)) == Sum(ys)
  {
    if ys != [] {
      SumOfSort(ys[1..]);
      SumOfInsert(ys[0], Sort(ys[1..], Ascending));
      SumConcat([ys[0]], ys[1..]);
      assert ys == [ys[0]] + ys[1..];
    }
  }

  lemma {:induction false} DeviationOfInsert(x: real, s: seq<real>, from: real)
    ensures Deviation(Insert(x, s, Ascending), from) == Deviation(s, from) + Square(x - from)
  {
    DeviationSnoc([], from, x);
    assert [] + [x] == [x];
    if s == [] || Ascending(x, s[0]) {
      DeviationConcat([x], s, from);
      assert s == [] ==> [x] + s == [x];
    } else {
      DeviationOfInsert(x, s[1..], from);
      DeviationConcat([s[0]], Insert(x, s[1..], Ascending), from);
      DeviationConcat([s[0]], s[1..], from);
      assert s == [s[0]] + s[1..];
    }
  }

  lemma {:induction false} DeviationOfSort(ys: seq<real>, from: real)
    ensures Deviation(Sort(ys, Ascending), from) == Deviation(ys, from)
  {
    if ys != [] {
      DeviationOfSort(ys[1..], from);
      DeviationOfInsert(ys[0], Sort(ys[1..], Ascending), from);
      DeviationCons(ys, from);
    }
  }

  lemma DeviationCons(ys: seq<real>, from: real)
    requires ys != []
    ensures Deviation(ys, from) == Deviation(ys[1..], from) + Square(ys[0] - from)
  {
    DeviationConcat([ys[0]], ys[1..], from);
    DeviationSnoc([], from, ys[0]);
    assert [] + [ys[0]] == [ys[0]];
    assert ys == [ys[0]] + ys[1..];
  }

  /** No figure depends on the order of the data. */
  lemma StatsForgetOrder(a: seq<real>, b: seq<real>)
    requires a != [] && multiset(a) == multiset(b)
    ensures b != [] && StatsOf(a) == StatsOf(b)
  {
    SameSize(a, b);
    SortForgetsOrder(a, b, Ascending);
    SumOfSort(a);
    SumOfSort(b);
    DeviationOfSort(a, Mean(a));
    DeviationOfSort(b, Mean(a));
  }

  /** The engine's own computation; zero figures when there is no data. */
  method CalculateStatistics(data: seq<DataPoint>) returns (r: Stats)
    ensures r == if data == [] then Stats(0, 0.0, 0.0, 0.0, 0.0, 0.0, 0.0, 0.0, 0.0) else StatsOf(Values(data))
  {
    if |data| == 0 {
      return Stats(0, 0.0, 0.0, 0.0, 0.0, 0.0, 0.0, 0.0, 0.0);
    }
    var values: seq<real> := [];
    for i := 0 to |data|
      invariant values == Values(data[..i])
    {
      ValuesPrefix(data, i);
      values := values + [data[i].value];
    }
    assert data[..|data|] == data;
    var sorted := Sort(values, Ascending);
    SortPermutes(values, Ascending);
    var mean, variance := MeanAndVariance(values);
    r := Stats(|values|, mean, variance, sorted[0], sorted[|sorted| - 1],
               Percentile(sorted, 50), Percentile(sorted, 95), Percentile(sorted, 99),
               Percentile(sorted, 75) - Percentile(sorted, 25));
  }

  method MeanAndVariance(values: seq<real>) returns (mean: real, variance: real)
    requires values != []
    ensures mean == Mean(values) && variance == Variance(values)
  {
    var sum := 0.0;
    for i := 0 to |values|
      invariant sum == Sum(values[..i])
    {
      assert values[..i + 1][..i] == values[..i];
      sum := sum + values[i];
    }
    assert values[..|values|] == values;
    mean := sum / |values| as real;
    variance := 0.0;
    for i := 0 to |values|
      invariant variance == Deviation(values[..i], mean)
    {
      assert values[..i + 1][..i] == values[..i];
      variance := variance + (values[i] - mean) * (values[i] - mean);
    }
    variance := variance / |values| as real;
  }

  // ------------------------------------------------------------------ what the figures are on known data

  /** Between two neighbours the value moves in proportion. */
  lemma AtBetweenNeighbours(s: seq<real>, i: nat, w: real)
    requires i < |s| - 1 && 0.0 <= w <= 1.0
    ensures At(s, i as real + w) == s[i] + Times(w, s[i + 1] - s[i])
  {
    if w == 0.0 {
      assert (i as real + w).Floor == i && Ceil(i as real + w) == i;
    } else if w == 1.0 {
      assert (i as real + w).Floor == i + 1 && Ceil(i as real + w) == i + 1;
    } else {
      assert (i as real + w).Floor == i && Ceil(i as real + w) == i + 1;
      Mix(s[i], s[i + 1], w);
    }
  }

  lemma Mix(lo: real, hi: real, w: real)
    ensures lo * (1.0 - w) + hi * w == lo + Times(w, hi - lo)
  {
  }

  /** On evenly spaced data the value at any position is the one the line has there. */
  lemma AtOnLine(s: seq<real>, a: real, c: real, r: real)
    requires OnLine(s, a, c) && s != [] && 0.0 <= r <= (|s| - 1) as real
    ensures At(s, r) == LineAt(a, c, r)
  {
    var i := r.Floor;
    if i as real != r {
      AtBetweenNeighbours(s, i, r - i as real);
      Along(a, c, i as real, r - i as real);
    }
  }

  lemma Along(a: real, c: real, x: real, w: real)
    ensures LineAt(a, c, x) + Times(w, LineAt(a, c, x + 1.0) - LineAt(a, c, x)) == LineAt(a, c, x + w)
  {
    assert LineAt(a, c, x + 1.0) - LineAt(a, c, x) == a;
  }

  lemma PercentileOnLine(s: seq<real>, a: real, c: real, p: nat, f: real)
    requires OnLine(s, a, c) && s != [] && p <= 100 && f == p as real / 100.0
    ensures Percentile(s, p) == LineAt(a, c, Times(f, (|s| - 1) as real))
  {
    if |s| > 1 {
      AtOnLine(s, a, c, Rank(|s|, p));
    } else {
      assert Times(f, 0.0) == 0.0;
    }
  }

  /** The figures of data that climbs evenly from c by steps of a. */
  lemma StatsOnLine(ys: seq<real>, a: real, c: real)
    requires OnLine(ys, a, c) && ys != [] && a >= 0.0
    ensures var t, last := StatsOf(ys), (|ys| - 1) as real;
      && t.count == |ys| && t.min == c && t.max == LineAt(a, c, last)
      && t.p50 == LineAt(a, c, Times(0.5, last)) && t.p95 == LineAt(a, c, Times(0.95, last))
      && t.p99 == LineAt(a, c, Times(0.99, last)) && t.iqr == Times(a, Times(0.5, last))
  {
    Climbs(ys, a, c);
    SortedStays(ys);
    PercentileOnLine(ys, a, c, 50, 0.5);
    PercentileOnLine(ys, a, c, 95, 0.95);
    PercentileOnLine(ys, a, c, 99, 0.99);
    PercentileOnLine(ys, a, c, 75, 0.75);
    PercentileOnLine(ys, a, c, 25, 0.25);
    Halves(a, c, (|ys| - 1) as real);
  }

  lemma Halves(a: real, c: real, last: real)
    ensures LineAt(a, c, Times(0.75, last)) - LineAt(a, c, Times(0.25, last)) == Times(a, Times(0.5, last))
  {
  }

  lemma Climbs(ys: seq<real>, a: real, c: real)
    requires OnLine(ys, a, c) && a >= 0.0
    ensures SortedBy(ys, Ascending)
  {
    forall i, j | 0 <= i < j < |ys| ensures Ascending(ys[i], ys[j]) {
      Step(a, i as real, j as real);
    }
  }

  lemma Step(a: real, x: real, y: real)
    requires a >= 0.0 && x <= y
    ensures a * x <= a * y
  {
  }

  lemma SortedStays(ys: seq<real>)
    requires SortedBy(ys, Ascending)
    ensures Sort(ys, Ascending) == ys
  {
    SortPermutes(ys, Ascending);
    SortSorts(ys, Ascending);
    SortedUnique(Sort(ys, Ascending), ys, Ascending);
  }
}
