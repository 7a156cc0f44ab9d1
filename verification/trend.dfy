/** Least squares: AnalyzeTrend of the analytics engine and the regression of the cost
    pipeline.  Samples are real numbers. */
module Trend {
  import opened Basics
  import opened Sums

  // ------------------------------------------------------------------ the fitted line

  /** The divisor of the slope. */
  function Divisor(m: Moments): real {
    m.n * m.xx - m.x * m.x
  }

  function Slope(m: Moments): real
    requires Divisor(m) != 0.0
  {
    (m.n * m.xy - m.x * m.y) / Divisor(m)
  }

  function Intercept(m: Moments): real
    requires Divisor(m) != 0.0 && m.n != 0.0
  {
    (m.y - Slope(m) * m.x) / m.n
  }

  predicate DivisorForm(m: Moments) {
    12.0 * Divisor(m) == m.n * m.n * (m.n * m.n - 1.0)
  }

  /** The divisor depends on the number of points only: n * n * (n * n - 1) / 12. */
  lemma DivisorClosed(ys: seq<real>)
    ensures MomentsOf(ys).n == |ys| as real && DivisorForm(MomentsOf(ys))
  {
    MomentsClosed(ys);
    DivisorOfClosed(MomentsOf(ys));
  }

  lemma DivisorOfClosed(m: Moments)
    requires Closed(m)
    ensures DivisorForm(m)
  {
    var n, x, xx := m.n, m.x, m.xx;
    assert 4.0 * (x * x) == (2.0 * x) * (2.0 * x);
    assert (n * (n - 1.0)) * (n * (n - 1.0)) == n * n * ((n - 1.0) * (n - 1.0));
    assert 12.0 * (n * xx) == 2.0 * n * (6.0 * xx);
    assert 2.0 * n * ((n - 1.0) * n * (2.0 * n - 1.0)) == n * n * (2.0 * ((n - 1.0) * (2.0 * n - 1.0)));
    assert 2.0 * ((n - 1.0) * (2.0 * n - 1.0)) - 3.0 * ((n - 1.0) * (n - 1.0)) == n * n - 1.0;
  }

  /** With at least two points the divisor is at least one. */
  lemma DivisorPositive(ys: seq<real>)
    requires |ys| >= 2
    ensures Divisor(MomentsOf(ys)) >= 1.0
  {
    DivisorClosed(ys);
    Growing(MomentsOf(ys).n);
  }

  lemma Growing(n: real)
    requires n >= 2.0
    ensures n * n * (n * n - 1.0) >= 12.0
  {
    assert n * n >= 4.0;
    var q := n * n;
    assert q * (q - 1.0) >= 4.0 * 3.0;
  }

  // ------------------------------------------------------------------ least squares

  /** The normal equations of the line a * i + c. */
  predicate Normal(m: Moments, a: real, c: real) {
    a * m.xx + c * m.x == m.xy && a * m.x + m.n * c == m.y
  }

  lemma FittedIsNormal(m: Moments)
    requires Divisor(m) > 0.0 && m.n > 0.0
    ensures Normal(m, Slope(m), Intercept(m))
  {
    var s, b := Slope(m), Intercept(m);
    assert s * Divisor(m) == m.n * m.xy - m.x * m.y;
    assert m.n * b == m.y - s * m.x;
    assert m.n * (s * m.xx + b * m.x) == m.n * m.xy by {
      assert m.n * (b * m.x) == (m.n * b) * m.x == m.y * m.x - s * m.x * m.x;
      assert m.n * (s * m.xx) == s * (m.n * m.xx);
      assert s * Divisor(m) == s * (m.n * m.xx) - s * (m.x * m.x);
    }
    Cancel(m.n, s * m.xx + b * m.x, m.xy);
  }

  lemma Cancel(n: real, u: real, v: real)
    requires n > 0.0 && n * u == n * v
    ensures u == v
  {
    assert u == (n * u) / n && v == (n * v) / n;
  }

  /** How much worse the line gets when its coefficients move by p and q. */
  function Gap(m: Moments, p: real, q: real): real {
    p * p * m.xx + 2.0 * p * q * m.x + m.n * q * q
  }

  lemma FormShifts(m: Moments, yy: real, a: real, c: real, p: real, q: real)
    requires Normal(m, a, c)
    ensures Form(m, yy, a + p, c + q) == Form(m, yy, a, c) + Gap(m, p, q)
  {
    assert 2.0 * (a + p) * m.xy == 2.0 * a * m.xy + 2.0 * p * (a * m.xx + c * m.x);
    assert 2.0 * (c + q) * m.y == 2.0 * c * m.y + 2.0 * q * (a * m.x + m.n * c);
    assert (a + p) * (a + p) * m.xx == a * a * m.xx + 2.0 * p * (a * m.xx) + p * p * m.xx;
    assert 2.0 * (a + p) * (c + q) * m.x
        == 2.0 * a * c * m.x + 2.0 * q * (a * m.x) + 2.0 * p * (c * m.x) + 2.0 * p * q * m.x;
    assert m.n * (c + q) * (c + q) == m.n * c * c + 2.0 * q * (m.n * c) + m.n * q * q;
  }

  /** Moving the line always costs something. */
  lemma GapSign(m: Moments, p: real, q: real)
    requires Divisor(m) > 0.0 && m.n > 0.0
    ensures Gap(m, p, q) >= 0.0
    ensures p != 0.0 || q != 0.0 ==> Gap(m, p, q) > 0.0
  {
    var r := p * m.x + m.n * q;
    GapAsSquares(m, p, q);
    SquareSign(p);
    SquareSign(r);
    if p != 0.0 {
      TimesPositive(Divisor(m), Square(p));
    } else if q != 0.0 {
      NonZeroProduct(m.n, q);
      assert r == m.n * q;
    }
    assert Times(Divisor(m), Square(p)) >= 0.0;
    PositiveFactor(m.n, Gap(m, p, q));
  }

  lemma GapAsSquares(m: Moments, p: real, q: real)
    ensures Times(m.n, Gap(m, p, q)) == Times(Divisor(m), Square(p)) + Square(p * m.x + m.n * q)
  {
    assert (p * m.x + m.n * q) * (p * m.x + m.n * q)
        == p * p * (m.x * m.x) + 2.0 * m.n * (p * q * m.x) + m.n * m.n * (q * q);
    assert m.n * (p * p * m.xx) == p * p * (m.n * m.xx);
    assert m.n * (2.0 * p * q * m.x) == 2.0 * m.n * (p * q * m.x);
    assert m.n * (m.n * q * q) == m.n * m.n * (q * q);
  }

  lemma NonZeroProduct(x: real, y: real)
    requires x > 0.0 && y != 0.0
    ensures x * y != 0.0
  {
    if y > 0.0 {
      TimesPositive(x, y);
    } else {
      TimesPositive(x, -y);
    }
  }

  lemma PositiveFactor(x: real, y: real)
    requires x > 0.0
    ensures Times(x, y) >= 0.0 ==> y >= 0.0
    ensures Times(x, y) > 0.0 ==> y > 0.0
  {
  }

  /** The fitted line is the one least-squares line of the window. */
  lemma LeastSquares(ys: seq<real>, a: real, c: real)
    requires |ys| >= 2
    ensures MomentsOf(ys).n > 0.0 && Divisor(MomentsOf(ys)) > 0.0
    ensures Residual(ys, Slope(MomentsOf(ys)), Intercept(MomentsOf(ys))) <= Residual(ys, a, c)
    ensures Residual(ys, Slope(MomentsOf(ys)), Intercept(MomentsOf(ys))) == Residual(ys, a, c)
            ==> a == Slope(MomentsOf(ys)) && c == Intercept(MomentsOf(ys))
  {
    var m := MomentsOf(ys);
    DivisorPositive(ys);
    MomentsClosed(ys);
    var s, b := Slope(m), Intercept(m);
    FittedIsNormal(m);
    FormShifts(m, Deviation(ys, 0.0), s, b, a - s, c - b);
    GapSign(m, a - s, c - b);
    ResidualExpands(ys, a, c);
    ResidualExpands(ys, s, b);
    assert s + (a - s) == a && b + (c - b) == c;
  }

  // ------------------------------------------------------------------ goodness of fit

  function Mean(ys: seq<real>): real
    requires ys != []
  {
    Sum(ys) / |ys| as real
  }

  predicate Constant(ys: seq<real>) {
    forall i, j :: 0 <= i < |ys| && 0 <= j < |ys| ==> ys[i] == ys[j]
  }

  predicate OnLine(ys: seq<real>, a: real, c: real) {
    forall i :: 0 <= i < |ys| ==> ys[i] == a * i as real + c
  }

  /** One minus the residual share of the variation; not a number for a constant window. */
  function RSquared(ys: seq<real>, a: real, c: real): Option<real>
    requires ys != []
  {
    var total := Deviation(ys, Mean(ys));
    if total == 0.0 then None else Some(1.0 - Residual(ys, a, c) / total)
  }

  function FitQuality(ys: seq<real>): Option<real>
    requires |ys| >= 2 && MomentsOf(ys).n != 0.0 && Divisor(MomentsOf(ys)) != 0.0
  {
    RSquared(ys, Slope(MomentsOf(ys)), Intercept(MomentsOf(ys)))
  }

  lemma ConstantMean(ys: seq<real>)
    requires ys != []
    ensures Deviation(ys, Mean(ys)) == 0.0 <==> Constant(ys)
  {
    DeviationSign(ys, Mean(ys));
    if Constant(ys) {
      SumOfConstant(ys, ys[0]);
      assert |ys| as real * ys[0] / |ys| as real == ys[0];
    }
  }

  lemma {:induction false} SumOfConstant(ys: seq<real>, c: real)
    requires forall i :: 0 <= i < |ys| ==> ys[i] == c
    ensures Sum(ys) == |ys| as real * c
  {
    if ys != [] {
      SumOfConstant(ys[..|ys| - 1], c);
    }
  }

  /** R squared is a number exactly when the window varies.  Then it lies in [0, 1]; it is
      one exactly when all points lie on one line, and zero exactly when the fit is flat. */
  lemma FitQualityRange(ys: seq<real>)
    requires |ys| >= 2
    ensures MomentsOf(ys).n > 0.0 && Divisor(MomentsOf(ys)) > 0.0
    ensures FitQuality(ys).None? <==> Constant(ys)
    ensures FitQuality(ys).Some? ==> 0.0 <= FitQuality(ys).value <= 1.0
    ensures FitQuality(ys).Some? ==> (FitQuality(ys).value == 1.0 <==> exists a, c :: OnLine(ys, a, c))
    ensures FitQuality(ys).Some? ==> (FitQuality(ys).value == 0.0 <==> Slope(MomentsOf(ys)) == 0.0)
  {
    ConstantMean(ys);
    DeviationSign(ys, Mean(ys));
    LeastSquares(ys, 0.0, Mean(ys));
    var s, b := Slope(MomentsOf(ys)), Intercept(MomentsOf(ys));
    var total, res := Deviation(ys, Mean(ys)), Residual(ys, s, b);
    FlatResidual(ys, Mean(ys));
    ResidualSign(ys, s, b);
    if total > 0.0 {
      ShareOf(res, total);
      PerfectFit(ys);
      FlatFit(ys);
    }
  }

  lemma ShareOf(part: real, total: real)
    requires 0.0 <= part <= total && 0.0 < total
    ensures 0.0 <= 1.0 - part / total <= 1.0
    ensures 1.0 - part / total == 1.0 <==> part == 0.0
    ensures 1.0 - part / total == 0.0 <==> part == total
  {
    var q := part / total;
    assert Times(q, total) == part;
    if q < 0.0 {
      TimesPositive(-q, total);
    } else if q > 1.0 {
      TimesPositive(q - 1.0, total);
    }
  }

  lemma PerfectFit(ys: seq<real>)
    requires |ys| >= 2 && MomentsOf(ys).n > 0.0 && Divisor(MomentsOf(ys)) > 0.0
    ensures Residual(ys, Slope(MomentsOf(ys)), Intercept(MomentsOf(ys))) == 0.0 <==> exists a, c :: OnLine(ys, a, c)
  {
    var s, b := Slope(MomentsOf(ys)), Intercept(MomentsOf(ys));
    ResidualSign(ys, s, b);
    if Residual(ys, s, b) == 0.0 {
      assert OnLine(ys, s, b);
    }
    if exists a, c :: OnLine(ys, a, c) {
      var a, c :| OnLine(ys, a, c);
      ResidualSign(ys, a, c);
      LeastSquares(ys, a, c);
    }
  }

  lemma FlatFit(ys: seq<real>)
    requires |ys| >= 2 && MomentsOf(ys).n > 0.0 && Divisor(MomentsOf(ys)) > 0.0
    ensures Residual(ys, Slope(MomentsOf(ys)), Intercept(MomentsOf(ys))) == Deviation(ys, Mean(ys))
            <==> Slope(MomentsOf(ys)) == 0.0
  {
    FlatResidual(ys, Mean(ys));
    LeastSquares(ys, 0.0, Mean(ys));
    if Slope(MomentsOf(ys)) == 0.0 {
      MomentsClosed(ys);
      MomentsSum(ys);
      assert Intercept(MomentsOf(ys)) == Mean(ys);
    }
  }

  // ------------------------------------------------------------------ the engine's trend

  const TREND_WINDOW := 50

  datatype DataPoint = DataPoint(timestamp: int, value: real)

  datatype Direction = Stable | Increasing | Decreasing

  /** The confidence of a trend is its R squared. */
  datatype TrendReport = TrendReport(direction: Direction, slope: real, rSquared: Option<real>,
                                     startTime: int, endTime: int)

  function Values(data: seq<DataPoint>): (ys: seq<real>)
    ensures |ys| == |data|
  {
    seq(|data|, i requires 0 <= i < |data| => data[i].value)
  }

  function Window(data: seq<DataPoint>): seq<DataPoint> {
    if |data| > TREND_WINDOW then data[|data| - TREND_WINDOW..] else data
  }

  function DirectionOf(slope: real): Direction {
    if slope > 0.01 then Increasing else if slope < -0.01 then Decreasing else Stable
  }

  lemma ValuesPrefix(data: seq<DataPoint>, i: nat)
    requires i < |data|
    ensures Values(data[..i + 1]) == Values(data[..i]) + [data[i].value]
    ensures Values(data[..i + 1])[..i] == Values(data[..i])
  {
  }

  /** The trend of the last fifty points; None when there are fewer than two. */
  method AnalyzeTrend(data: seq<DataPoint>) returns (r: Option<TrendReport>)
    ensures r.None? <==> |data| < 2
    ensures r.Some? ==>
      var ys := Values(Window(data));
      && MomentsOf(ys).n > 0.0 && Divisor(MomentsOf(ys)) > 0.0
      && r.value.slope == Slope(MomentsOf(ys))
      && r.value.rSquared == FitQuality(ys)
      && r.value.direction == DirectionOf(r.value.slope)
      && r.value.startTime == Window(data)[0].timestamp && r.value.endTime == data[|data| - 1].timestamp
  {
    if |data| < 2 {
      return None;
    }
    var window := data;
    if |data| > TREND_WINDOW {
      window := data[|data| - TREND_WINDOW..];
    }
    var slope, intercept, meanY := Fit(window);
    var ssTot, ssRes := SumSquares(window, meanY, slope, intercept);
    var rSquared := if ssTot == 0.0 then None else Some(1.0 - ssRes / ssTot);
    var direction := Stable;
    if (if slope < 0.0 then -slope else slope) > 0.01 {
      direction := if slope > 0.0 then Increasing else Decreasing;
    }
    r := Some(TrendReport(direction, slope, rSquared, window[0].timestamp, window[|window| - 1].timestamp));
  }

  method Fit(window: seq<DataPoint>) returns (slope: real, intercept: real, meanY: real)
    requires |window| >= 2
    ensures var ys := Values(window); var m := MomentsOf(ys);
      m.n > 0.0 && Divisor(m) > 0.0 && slope == Slope(m) && intercept == Intercept(m) && meanY == Mean(ys)
  {
    var m := SumPoints(window);
    DivisorPositive(Values(window));
    MomentsSum(Values(window));
    slope, intercept, meanY := Slope(m), Intercept(m), m.y / m.n;
  }

  method SumPoints(window: seq<DataPoint>) returns (m: Moments)
    ensures m == MomentsOf(Values(window))
  {
    var sumX, sumY, sumXY, sumX2 := 0.0, 0.0, 0.0, 0.0;
    for i := 0 to |window|
      invariant Moments(i as real, sumX, sumY, sumXY, sumX2) == MomentsOf(Values(window[..i]))
    {
      ValuesPrefix(window, i);
      var x, y := i as real, window[i].value;
      sumX, sumY, sumXY, sumX2 := sumX + x, sumY + y, sumXY + x * y, sumX2 + x * x;
    }
    assert window[..|window|] == window;
    m := Moments(|window| as real, sumX, sumY, sumXY, sumX2);
  }

  method SumSquares(window: seq<DataPoint>, meanY: real, slope: real, intercept: real)
    returns (ssTot: real, ssRes: real)
    ensures ssTot == Deviation(Values(window), meanY) && ssRes == Residual(Values(window), slope, intercept)
  {
    ssTot, ssRes := 0.0, 0.0;
    for i := 0 to |window|
      invariant ssTot == Deviation(Values(window[..i]), meanY)
      invariant ssRes == Residual(Values(window[..i]), slope, intercept)
    {
      SquaresStep(window, i, meanY, slope, intercept);
      var y := window[i].value;
      var predicted := LineAt(slope, intercept, i as real);
      ssTot := ssTot + Square(y - meanY);
      ssRes := ssRes + Square(y - predicted);
    }
    assert window[..|window|] == window;
  }

  lemma SquaresStep(window: seq<DataPoint>, i: nat, meanY: real, slope: real, intercept: real)
    requires i < |window|
    ensures Deviation(Values(window[..i + 1]), meanY)
         == Deviation(Values(window[..i]), meanY) + Square(window[i].value - meanY)
    ensures Residual(Values(window[..i + 1]), slope, intercept)
         == Residual(Values(window[..i]), slope, intercept)
            + Square(window[i].value - LineAt(slope, intercept, i as real))
  {
    ValuesPrefix(window, i);
  }

  // ------------------------------------------------------------------ what a trend is

  /** The window is the end of the data, at most fifty points of it. */
  lemma WindowIsEnd(data: seq<DataPoint>)
    ensures var w := Window(data);
      |w| <= |data| && w == data[|data| - |w|..] && |w| == if |data| < 50 then |data| else 50
  {
  }

  /** Rising and falling take more than a hundredth a step. */
  lemma DirectionMeans(slope: real)
    ensures DirectionOf(slope) == Increasing <==> 100.0 * slope > 1.0
    ensures DirectionOf(slope) == Decreasing <==> 100.0 * slope < -1.0
  {
  }
}
