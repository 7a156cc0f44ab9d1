/** Anomaly detection by z-score and by flapping.  |z| > k is stated without the square
    root, as (x - mean) squared > k * k * variance. */
module Anomalies {
  import opened Basics
  import opened Sums
  import opened Trend
  import opened Statistics

  datatype Sensitivity = High | Medium | Low | Other

  function Threshold(s: Sensitivity): real {
    match s
    case High => 2.0
    case Medium => 2.5
    case Low => 3.5
    case Other => 3.0
  }

  datatype Severity = Critical | Severe | Moderate | Minor

  datatype Anomaly =
    | Spike(severity: Severity, at: DataPoint, expected: real)
    | Drop(severity: Severity, at: DataPoint, expected: real)
    | Flapping(last: DataPoint, expected: real, changes: nat, points: nat)

  // ------------------------------------------------------------------ z-scores

  /** The z-score's square exceeds the square of factor times the threshold. */
  predicate Exceeds(x: real, mean: real, variance: real, k: real) {
    variance != 0.0 && Square(x - mean) > Square(k) * variance
  }

  function SeverityOf(x: real, mean: real, variance: real, k: real): Severity {
    if Exceeds(x, mean, variance, 2.0 * k) then Critical
    else if Exceeds(x, mean, variance, 1.5 * k) then Severe
    else if Exceeds(x, mean, variance, k) then Moderate
    else Minor
  }

  function Classify(p: DataPoint, mean: real, variance: real, k: real): Anomaly {
    var severity := SeverityOf(p.value, mean, variance, k);
    if p.value > mean then Spike(severity, p, mean) else Drop(severity, p, mean)
  }

  /** The spikes and drops among the points, in order. */
  function Outliers(data: seq<DataPoint>, mean: real, variance: real, k: real): seq<Anomaly> {
    if data == [] then []
    else
      var last := data[|data| - 1];
      Outliers(data[..|data| - 1], mean, variance, k)
      + (if Exceeds(last.value, mean, variance, k) then [Classify(last, mean, variance, k)] else [])
  }

  function OutliersOf(data: seq<DataPoint>, k: real): seq<Anomaly>
    requires data != []
  {
    Outliers(data, Mean(Values(data)), Variance(Values(data)), k)
  }

  // ------------------------------------------------------------------ flapping

  predicate Turns(data: seq<DataPoint>, i: nat)
    requires 0 < i < |data| - 1
  {
    var prev, curr, next := data[i - 1].value, data[i].value, data[i + 1].value;
    (curr > prev && curr > next) || (curr < prev && curr < next)
  }

  /** Direction changes at the positions before n. */
  function Changes(data: seq<DataPoint>, n: nat): nat
    requires n <= |data| - 1
  {
    if n <= 1 then 0 else Changes(data, n - 1) + (if Turns(data, n - 1) then 1 else 0)
  }

  function FlappingOf(data: seq<DataPoint>): seq<Anomaly>
    requires data != []
  {
    var n := |data|;
    if n >= 5 && Changes(data, n - 1) as real / n as real > 0.3
    then [Flapping(data[n - 1], Mean(Values(data)), Changes(data, n - 1), n)] else []
  }

  // ------------------------------------------------------------------ the engine

  method DetectOutliers(data: seq<DataPoint>, mean: real, variance: real, k: real) returns (r: seq<Anomaly>)
    ensures r == Outliers(data, mean, variance, k)
  {
    r := [];
    for i := 0 to |data|
      invariant r == Outliers(data[..i], mean, variance, k)
    {
      assert data[..i + 1][..i] == data[..i];
      var p := data[i];
      if variance != 0.0 && Square(p.value - mean) > Square(k) * variance {
        r := r + [Classify(p, mean, variance, k)];
      }
    }
    assert data[..|data|] == data;
  }

  method DetectFlapping(data: seq<DataPoint>, mean: real) returns (r: seq<Anomaly>)
    requires data != [] && mean == Mean(Values(data))
    ensures r == FlappingOf(data)
  {
    if |data| < 5 {
      return [];
    }
    var changes := 0;
    var i := 1;
    while i < |data| - 1
      invariant 1 <= i <= |data| - 1
      invariant changes == Changes(data, i)
    {
      var prev, curr, next := data[i - 1].value, data[i].value, data[i + 1].value;
      if (curr > prev && curr > next) || (curr < prev && curr < next) {
        changes := changes + 1;
      }
      i := i + 1;
    }
    r := [];
    if changes as real / |data| as real > 0.3 {
      r := [Flapping(data[|data| - 1], mean, changes, |data|)];
    }
  }

  /** None stands for the error of a series with fewer than three points. */
  method DetectAnomalies(data: seq<DataPoint>, sensitivity: Sensitivity) returns (r: Option<seq<Anomaly>>)
    ensures r == if |data| < 3 then None else Some(OutliersOf(data, Threshold(sensitivity)) + FlappingOf(data))
  {
    if |data| < 3 {
      return None;
    }
    var stats := CalculateStatistics(data);
    var outliers := DetectOutliers(data, stats.mean, stats.variance, Threshold(sensitivity));
    var flapping := DetectFlapping(data, stats.mean);
    r := Some(outliers + flapping);
  }

  // ------------------------------------------------------------------ how many there can be

  lemma TimesNotNegative(x: real, y: real)
    requires 0.0 <= x && 0.0 <= y
    ensures 0.0 <= x * y
  {
  }

  /** Every outlier takes its share of the total squared deviation. */
  lemma {:induction false} OutliersWeigh(data: seq<DataPoint>, mean: real, variance: real, k: real)
    requires variance > 0.0
    ensures var c, bound := |Outliers(data, mean, variance, k)|, Square(k) * variance;
      Weighs(Deviation(Values(data), mean), c, bound)
  {
    if data != [] {
      var front, last := data[..|data| - 1], data[|data| - 1];
      OutliersWeigh(front, mean, variance, k);
      ValuesPrefix(data, |data| - 1);
      assert data[..|data| - 1 + 1] == data;
      SquareSign(last.value - mean);
      WeighOne(Deviation(Values(front), mean), |Outliers(front, mean, variance, k)|, Square(k) * variance,
               Square(last.value - mean));
    }
  }

  predicate Weighs(total: real, c: nat, bound: real) {
    Times(c as real, bound) <= total && (c > 0 ==> Times(c as real, bound) < total)
  }

  lemma WeighOne(total: real, c: nat, bound: real, d: real)
    requires Weighs(total, c, bound) && 0.0 <= d
    ensures Weighs(total + d, c, bound)
    ensures d > bound ==> Weighs(total + d, c + 1, bound)
  {
    assert Times((c + 1) as real, bound) == Times(c as real, bound) + bound;
  }

  /** Chebyshev's bound: if there are any spikes and drops, their number times the squared
      threshold stays below the number of points. */
  lemma FewOutliers(data: seq<DataPoint>, k: real)
    requires data != [] && OutliersOf(data, k) != []
    ensures Times(|OutliersOf(data, k)| as real, Square(k)) < |data| as real
  {
    var ys := Values(data);
    var v, n, c := Variance(ys), |data| as real, |OutliersOf(data, k)|;
    VarianceSign(ys);
    if v == 0.0 {
      NoVarianceNoOutliers(data, Mean(ys), v, k);
    } else {
      OutliersWeigh(data, Mean(ys), v, k);
      Chebyshev(c, Square(k), n, v);
    }
  }

  lemma Chebyshev(c: nat, square: real, n: real, v: real)
    requires v > 0.0 && Times(c as real, square * v) < Times(v, n)
    ensures Times(c as real, square) < n
  {
    assert Times(c as real, square * v) == (c as real * square) * v;
    CancelLess(c as real * square, n, v);
  }

  lemma CancelLess(x: real, y: real, v: real)
    requires v > 0.0 && x * v < y * v
    ensures x < y
  {
    if x >= y {
      TimesNotNegative(x - y, v);
    }
  }

  lemma {:induction false} NoVarianceNoOutliers(data: seq<DataPoint>, mean: real, variance: real, k: real)
    requires variance == 0.0
    ensures Outliers(data, mean, variance, k) == []
  {
    if data != [] {
      NoVarianceNoOutliers(data[..|data| - 1], mean, variance, k);
    }
  }

  // ------------------------------------------------------------------ how far one can be

  /** The square of a sum is at most the number of terms times the sum of the squares. */
  lemma {:induction false} SumSquared(ys: seq<real>)
    ensures Square(Sum(ys)) <= Times(|ys| as real, Deviation(ys, 0.0))
  {
    if ys == [] {
      assert Square(0.0) == 0.0 && Times(0.0, 0.0) == 0.0;
    } else {
      var front, x := ys[..|ys| - 1], ys[|ys| - 1];
      SumSquared(front);
      if front == [] {
        assert Sum(ys) == x && Deviation(ys, 0.0) == Square(x - 0.0) && |ys| as real == 1.0;
      } else {
        SumSquaredStep(Sum(front), Deviation(front, 0.0), |front| as real, x);
      }
    }
  }

  lemma SumSquaredStep(s: real, q: real, n: real, x: real)
    requires n >= 1.0 && Square(s) <= Times(n, q)
    ensures Square(s + x) <= Times(n + 1.0, q + Square(x - 0.0))
  {
    SquareSign(s - n * x);
    var rest := Times(n + 1.0, q + Square(x - 0.0)) - Square(s + x);
    assert Times(n, rest) == (n + 1.0) * (Times(n, q) - Square(s)) + Square(s - n * x) by {
      ExpandRest(s, q, n, x);
    }
    TimesNotNegative(n + 1.0, Times(n, q) - Square(s));
    PositiveFactor(n, rest);
  }

  lemma ExpandRest(s: real, q: real, n: real, x: real)
    ensures Times(n, Times(n + 1.0, q + Square(x - 0.0)) - Square(s + x))
         == (n + 1.0) * (Times(n, q) - Square(s)) + Square(s - n * x)
  {
  }

  /** The deviations from the mean cancel out. */
  lemma {:induction false} ShiftedSum(ys: seq<real>, c: real)
    ensures Sum(Shifted(ys, c)) == Sum(ys) - |ys| as real * c
    ensures Deviation(Shifted(ys, c), 0.0) == Deviation(ys, c)
  {
    if ys != [] {
      var front, x := ys[..|ys| - 1], ys[|ys| - 1];
      ShiftedSum(front, c);
      assert Shifted(ys, c)[..|ys| - 1] == Shifted(front, c);
      assert (|front| as real + 1.0) * c == |front| as real * c + c;
      assert Square(x - c - 0.0) == Square(x - c);
    }
  }

  function Shifted(ys: seq<real>, c: real): (r: seq<real>)
    ensures |r| == |ys|
  {
    seq(|ys|, i requires 0 <= i < |ys| => ys[i] - c)
  }

  /** Samuelson's inequality: no sample is farther from the mean than the square root of
      n - 1 standard deviations. */
  lemma NoSampleTooFar(ys: seq<real>, j: nat)
    requires j < |ys|
    ensures Square(ys[j] - Mean(ys)) <= Times(|ys| as real - 1.0, Variance(ys))
  {
    var q := OtherDeviations(ys, j);
    Samuelson(ys[j] - Mean(ys), q, |ys| as real, Variance(ys));
  }

  /** The squared deviations of all samples but one, against that one. */
  lemma OtherDeviations(ys: seq<real>, j: nat) returns (q: real)
    requires j < |ys|
    ensures Square(0.0 - (ys[j] - Mean(ys))) <= Times(|ys| as real - 1.0, q)
    ensures q + Square(ys[j] - Mean(ys) - 0.0) == Variance(ys) * |ys| as real
  {
    var d := Shifted(ys, Mean(ys));
    var others := d[..j] + d[j + 1..];
    q := Deviation(others, 0.0);
    RemoveOne(d, j);
    SumSquared(others);
    DeviationsCancel(ys);
    VarianceSign(ys);
    assert |others| as real == |ys| as real - 1.0 && d[j] == ys[j] - Mean(ys);
    assert Sum(others) == 0.0 - d[j];
  }

  lemma DeviationsCancel(ys: seq<real>)
    requires ys != []
    ensures Sum(Shifted(ys, Mean(ys))) == 0.0
    ensures Deviation(Shifted(ys, Mean(ys)), 0.0) == Deviation(ys, Mean(ys))
  {
    ShiftedSum(ys, Mean(ys));
    assert |ys| as real * Mean(ys) == Sum(ys);
  }

  lemma RemoveOne(d: seq<real>, j: nat)
    requires j < |d|
    ensures var others := d[..j] + d[j + 1..];
      && Sum(d) == Sum(others) + d[j] && Deviation(d, 0.0) == Deviation(others, 0.0) + Square(d[j] - 0.0)
  {
    assert d == d[..j] + ([d[j]] + d[j + 1..]);
    SumConcat(d[..j], [d[j]] + d[j + 1..]);
    SumConcat([d[j]], d[j + 1..]);
    SumConcat(d[..j], d[j + 1..]);
    DeviationConcat(d[..j], [d[j]] + d[j + 1..], 0.0);
    DeviationConcat([d[j]], d[j + 1..], 0.0);
    DeviationConcat(d[..j], d[j + 1..], 0.0);
    assert [d[j]][..0] == [];
  }

  /** x is one deviation, q the sum of the squares of the n - 1 others. */
  lemma Samuelson(x: real, q: real, n: real, v: real)
    requires n >= 1.0 && Square(0.0 - x) <= Times(n - 1.0, q) && q + Square(x - 0.0) == v * n
    ensures Square(x) <= Times(n - 1.0, v)
  {
    var t := Square(x);
    assert Square(0.0 - x) == t && Square(x - 0.0) == t;
    assert Times(n - 1.0, q) == (n - 1.0) * (v * n) - (n - 1.0) * t;
    assert Times(n, Times(n - 1.0, v) - t) == (n - 1.0) * (v * n) - n * t;
    PositiveFactor(n, Times(n - 1.0, v) - t);
  }

  // ------------------------------------------------------------------ when there can be none

  lemma {:induction false} NoneExceeds(data: seq<DataPoint>, mean: real, variance: real, k: real)
    requires forall i :: 0 <= i < |data| ==> !Exceeds(data[i].value, mean, variance, k)
    ensures Outliers(data, mean, variance, k) == []
  {
    if data != [] {
      NoneExceeds(data[..|data| - 1], mean, variance, k);
    }
  }

  /** A series with n - 1 at most the squared threshold never has a spike or a drop. */
  lemma ShortSeriesIsQuiet(data: seq<DataPoint>, k: real)
    requires data != [] && |data| as real - 1.0 <= Square(k)
    ensures OutliersOf(data, k) == []
  {
    var ys := Values(data);
    VarianceSign(ys);
    forall i | 0 <= i < |data| ensures !Exceeds(data[i].value, Mean(ys), Variance(ys), k) {
      NoSampleTooFar(ys, i);
      ScaleMonotone(|ys| as real - 1.0, Square(k), Variance(ys));
    }
    NoneExceeds(data, Mean(ys), Variance(ys), k);
  }

  /** n points, all zero but the last, which is one. */
  function LoneSpike(n: nat): (data: seq<DataPoint>)
    ensures |data| == n
  {
    seq(n, i => DataPoint(i, if i == n - 1 then 1.0 else 0.0))
  }

  function Zeros(n: nat): seq<real> {
    seq(n, i => 0.0)
  }

  lemma {:induction false} ZerosSums(n: nat, c: real)
    ensures Sum(Zeros(n)) == 0.0 && Deviation(Zeros(n), c) == Times(n as real, Square(0.0 - c))
  {
    if n == 0 {
      assert Times(0.0, Square(0.0 - c)) == 0.0;
    } else {
      assert Zeros(n)[..n - 1] == Zeros(n - 1);
      ZerosSums(n - 1, c);
      assert Times(n as real, Square(0.0 - c)) == Times((n - 1) as real, Square(0.0 - c)) + Square(0.0 - c);
    }
  }

  lemma LoneSpikeMoments(n: nat)
    requires n >= 2
    ensures var ys, r := Values(LoneSpike(n)), 1.0 / n as real;
      Mean(ys) == r && Variance(ys) * n as real == Times((n - 1) as real, Square(0.0 - r)) + Square(1.0 - r)
  {
    var ys, r := Values(LoneSpike(n)), 1.0 / n as real;
    assert ys == Zeros(n - 1) + [1.0];
    ZerosSums(n - 1, r);
    SumSnoc(Zeros(n - 1), 1.0);
    DeviationSnoc(Zeros(n - 1), r, 1.0);
    VarianceSign(ys);
  }

  lemma LoneSpikeVariance(n: real, r: real, v: real)
    requires n >= 2.0 && n * r == 1.0
    requires v * n == Times(n - 1.0, Square(0.0 - r)) + Square(1.0 - r)
    ensures v > 0.0 && Square(1.0 - r) == Times(n - 1.0, v)
  {
    var t := Square(r);
    assert Square(0.0 - r) == t;
    assert 1.0 - r == (n - 1.0) * r;
    assert Square((n - 1.0) * r) == (n - 1.0) * ((n - 1.0) * t);
    assert v * n == ((n - 1.0) * t) * n;
    Cancel(n, v, (n - 1.0) * t);
    SquareSign(r);
    TimesPositive(n - 1.0, t);
  }

  /** One point away from a flat series is an outlier as soon as the series is long enough. */
  lemma LoneSpikeIsOutlier(n: nat, k: real)
    requires n >= 2 && n as real - 1.0 > Square(k)
    ensures OutliersOf(LoneSpike(n), k) != []
  {
    var data := LoneSpike(n);
    var ys, r, v := Values(data), 1.0 / n as real, Variance(Values(data));
    LoneSpikeMoments(n);
    LoneSpikeVariance(n as real, r, v);
    TimesPositive(n as real - 1.0 - Square(k), v);
    assert Times(n as real - 1.0, v) == Square(k) * v + Times(n as real - 1.0 - Square(k), v);
    assert Exceeds(data[n - 1].value, Mean(ys), v, k);
  }

  /** Series of n points can have spikes or drops exactly when n - 1 exceeds the squared threshold. */
  lemma OutliersPossible(n: nat, k: real)
    requires n >= 1
    ensures (exists data :: |data| == n && OutliersOf(data, k) != []) <==> n as real - 1.0 > Square(k)
  {
    SquareSign(k);
    if n as real - 1.0 > Square(k) {
      LoneSpikeIsOutlier(n, k);
      assert |LoneSpike(n)| == n;
    } else {
      forall data | |data| == n ensures OutliersOf(data, k) == [] {
        ShortSeriesIsQuiet(data, k);
      }
    }
  }

  /** The longest series in which the z-score can find nothing, per sensitivity. */
  function QuietLength(s: Sensitivity): nat {
    match s
    case High => 5
    case Medium => 7
    case Low => 13
    case Other => 10
  }

  lemma QuietLengthIsExact(s: Sensitivity, n: nat)
    requires n >= 1
    ensures (exists data :: |data| == n && OutliersOf(data, Threshold(s)) != []) <==> n > QuietLength(s)
  {
    OutliersPossible(n, Threshold(s));
    assert Square(2.0) == 4.0 && Square(2.5) == 6.25 && Square(3.5) == 12.25 && Square(3.0) == 9.0;
  }

  // ------------------------------------------------------------------ what is reported

  /** Farther from the mean than k deviations. */
  predicate Far(data: seq<DataPoint>, i: int, k: real)
    requires data != []
  {
    && 0 <= i < |data| && Variance(Values(data)) > 0.0
    && Square(data[i].value - Mean(Values(data))) > Times(Square(k), Variance(Values(data)))
  }

  ghost function FarPoints(data: seq<DataPoint>, k: real): set<int>
    requires data != []
  {
    set i | 0 <= i < |data| && Far(data, i, k)
  }

  /** The report of one point: a spike above the mean, a drop below it, against the mean. */
  predicate Reports(a: Anomaly, p: DataPoint, mean: real) {
    if p.value > mean then a.Spike? && a.at == p && a.expected == mean
    else a.Drop? && a.at == p && a.expected == mean
  }

  lemma {:induction false} OutliersMean(data: seq<DataPoint>, mean: real, variance: real, k: real, i: nat)
    requires i < |data|
    ensures var r, before := Outliers(data, mean, variance, k), |Outliers(data[..i], mean, variance, k)|;
      Exceeds(data[i].value, mean, variance, k) ==>
        && before < |r| && Reports(r[before], data[i], mean)
        && r[before].severity == SeverityOf(data[i].value, mean, variance, k)
    ensures |Outliers(data[..i], mean, variance, k)| <= |Outliers(data, mean, variance, k)|
  {
    var front := data[..|data| - 1];
    if i < |front| {
      OutliersMean(front, mean, variance, k, i);
      assert front[..i] == data[..i];
    }
  }

  ghost function Exceeding(data: seq<DataPoint>, mean: real, variance: real, k: real): set<int> {
    set i | 0 <= i < |data| && Exceeds(data[i].value, mean, variance, k)
  }

  lemma {:induction false} OutliersCounted(data: seq<DataPoint>, mean: real, variance: real, k: real)
    ensures |Outliers(data, mean, variance, k)| == |Exceeding(data, mean, variance, k)|
  {
    if data != [] {
      var n := |data| - 1;
      OutliersCounted(data[..n], mean, variance, k);
      assert Exceeding(data, mean, variance, k)
          == Exceeding(data[..n], mean, variance, k) + if Exceeds(data[n].value, mean, variance, k) then {n} else {};
    }
  }

  /** One report for each far point, and no other; the report of a point comes after those of
      the points before it. */
  lemma OutliersReportFar(data: seq<DataPoint>, k: real, i: nat)
    requires i < |data|
    ensures |OutliersOf(data, k)| == |FarPoints(data, k)|
    ensures Far(data, i, k) ==>
      var before := |Outliers(data[..i], Mean(Values(data)), Variance(Values(data)), k)|;
      before < |OutliersOf(data, k)| && Reports(OutliersOf(data, k)[before], data[i], Mean(Values(data)))
  {
    var mean, v := Mean(Values(data)), Variance(Values(data));
    VarianceSign(Values(data));
    forall j | 0 <= j < |data| ensures Far(data, j, k) <==> Exceeds(data[j].value, mean, v, k) {
    }
    OutliersCounted(data, mean, v, k);
    assert FarPoints(data, k) == Exceeding(data, mean, v, k);
    OutliersMean(data, mean, v, k, i);
  }

  /** With the squared z-score d and the squared threshold b: critical beyond twice the threshold,
      severe beyond one and a half times, moderate otherwise.  No report is ever minor. */
  lemma SeverityMeans(x: real, mean: real, variance: real, k: real)
    requires variance > 0.0 && Exceeds(x, mean, variance, k)
    ensures var d, b, s := Square(x - mean), Times(Square(k), variance), SeverityOf(x, mean, variance, k);
      && (s == Critical <==> d > 4.0 * b)
      && (s == Severe <==> 4.0 * b >= d && 4.0 * d > 9.0 * b)
      && (s == Moderate <==> 9.0 * b >= 4.0 * d)
  {
    Scaled(2.0, k, variance);
    Scaled(1.5, k, variance);
    Scaled(1.0, k, variance);
    SquareShare(k, variance);
  }

  lemma SquareShare(k: real, v: real)
    requires v > 0.0
    ensures Times(Square(k), v) >= 0.0
  {
    SquareSign(k);
    TimesNotNegative(Square(k), v);
  }

  lemma Scaled(f: real, k: real, v: real)
    ensures Square(f * k) * v == Square(f) * Times(Square(k), v)
  {
  }

  /** The three points around i climb all the way or fall all the way. */
  predicate GoesOn(data: seq<DataPoint>, i: int)
    requires 0 < i < |data| - 1
  {
    || data[i - 1].value <= data[i].value <= data[i + 1].value
    || data[i - 1].value >= data[i].value >= data[i + 1].value
  }

  lemma TurnsMeans(data: seq<DataPoint>, i: nat)
    requires 0 < i < |data| - 1
    ensures Turns(data, i) <==> !GoesOn(data, i)
  {
  }

  ghost function TurnsBefore(data: seq<DataPoint>, n: int): set<int> {
    set i | 0 < i < |data| - 1 && i < n && !GoesOn(data, i)
  }

  ghost function TurningPoints(data: seq<DataPoint>): set<int> {
    TurnsBefore(data, |data|)
  }

  lemma {:induction false} ChangesCounted(data: seq<DataPoint>, n: nat)
    requires n <= |data| - 1
    ensures Changes(data, n) == |TurnsBefore(data, n)|
  {
    if n > 1 {
      ChangesCounted(data, n - 1);
      TurnsMeans(data, n - 1);
      assert TurnsBefore(data, n) == TurnsBefore(data, n - 1) + if Turns(data, n - 1) then {n - 1} else {};
    } else {
      assert TurnsBefore(data, n) == {};
    }
  }

  /** Flapping is reported, once and for the last point, when there are five points or more and
      over three tenths of them are peaks or dips. */
  lemma FlappingMeans(data: seq<DataPoint>)
    requires data != []
    ensures FlappingOf(data) != [] <==> |data| >= 5 && 10 * |TurningPoints(data)| > 3 * |data|
    ensures FlappingOf(data) != [] ==>
      FlappingOf(data) == [Flapping(data[|data| - 1], Mean(Values(data)), |TurningPoints(data)|, |data|)]
  {
    ChangesCounted(data, |data| - 1);
    assert TurningPoints(data) == TurnsBefore(data, |data| - 1);
    Tenths(|TurningPoints(data)|, |data|);
  }

  lemma Tenths(c: nat, n: nat)
    requires n > 0
    ensures c as real / n as real > 0.3 <==> 10 * c > 3 * n
  {
    ShareExceeds(c as real, n as real);
    assert (10 * c) as real == 10.0 * c as real && (3 * n) as real == 3.0 * n as real;
  }

  lemma ShareExceeds(c: real, n: real)
    requires n > 0.0
    ensures c / n > 0.3 <==> 10.0 * c > 3.0 * n
  {
    var q := c / n;
    assert q * n == c;
    if q > 0.3 {
      TimesPositive(q - 0.3, n);
    } else {
      TimesNotNegative(0.3 - q, n);
    }
  }
}
