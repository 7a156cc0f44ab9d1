/** The cost pipeline's own regression and the six-month forecast built on it. */
module Forecast {
  import opened Basics
  import opened Sums
  import opened Trend

  // Below this the regression treats its divisor as zero.
  const TINY: real := 0.000000000001

  function Abs(x: real): real {
    if x < 0.0 then -x else x
  }

  method LinearRegression(vals: seq<real>) returns (slope: real, intercept: real)
    ensures |vals| < 2 ==> slope == 0.0 && intercept == 0.0
    ensures |vals| >= 2 ==>
      var m := MomentsOf(vals); m.n > 0.0 && Divisor(m) > 0.0 && slope == Slope(m) && intercept == Intercept(m)
  {
    if |vals| < 2 {
      return 0.0, 0.0;
    }
    var sumX, sumY, sumXY, sumX2 := 0.0, 0.0, 0.0, 0.0;
    for i := 0 to |vals|
      invariant Moments(i as real, sumX, sumY, sumXY, sumX2) == MomentsOf(vals[..i])
    {
      assert vals[..i + 1][..i] == vals[..i];
      var x, v := i as real, vals[i];
      sumX, sumY, sumXY, sumX2 := sumX + x, sumY + v, sumXY + x * v, sumX2 + x * x;
    }
    assert vals[..|vals|] == vals;
    slope, intercept := Solve(vals, Moments(|vals| as real, sumX, sumY, sumXY, sumX2));
  }

  /** With two values or more the near-zero test of the divisor never succeeds. */
  method Solve(ghost vals: seq<real>, m: Moments) returns (slope: real, intercept: real)
    requires |vals| >= 2 && m == MomentsOf(vals)
    ensures m.n > 0.0 && Divisor(m) > 0.0 && slope == Slope(m) && intercept == Intercept(m)
  {
    DivisorPositive(vals);
    MomentsSum(vals);
    if Abs(Divisor(m)) < TINY {
      assert false;
    }
    slope, intercept := Slope(m), Intercept(m);
  }

  datatype TrendWord = Rising | Falling | Steady

  datatype Projection = Projection(month: nat, cost: real, lower: real, upper: real, trend: TrendWord, growthPct: real)

  function Growth(base: real, projected: real): real {
    if base == 0.0 then 0.0 else (projected - base) / base * 100.0
  }

  function Word(slope: real): TrendWord {
    if slope > 1.0 then Rising else if slope < -1.0 then Falling else Steady
  }

  /** The projection for a month from the last known cost and a slope; never negative. */
  function Project(base: real, slope: real, month: nat): Projection {
    var line := base + slope * month as real;
    var cost := if line < 0.0 then 0.0 else line;
    var lower := cost - cost * 0.08;
    Projection(month, cost, if lower < 0.0 then 0.0 else lower, cost + cost * 0.08, Word(slope), Growth(base, cost))
  }

  /** The slope the forecast uses: regressed from two snapshots on, else three percent. */
  function ForecastSlope(months: seq<real>, base: real): real {
    if |months| >= 2 then
      DivisorPositive(months);
      Slope(MomentsOf(months))
    else base * 0.03
  }

  method GetCostForecast(months: seq<real>, last: Option<real>) returns (r: seq<Projection>)
    ensures |r| == 6
    ensures var base := if last.Some? then last.value else 0.0;
      forall i :: 0 <= i < 6 ==> r[i] == Project(base, ForecastSlope(months, base), i + 1)
  {
    var base := if last.Some? then last.value else 0.0;
    var slope := base * 0.03;
    if |months| >= 2 {
      var ignored;
      slope, ignored := LinearRegression(months);
    }
    r := [];
    for i := 0 to 6
      invariant |r| == i && forall k :: 0 <= k < i ==> r[k] == Project(base, slope, k + 1)
    {
      r := r + [Project(base, slope, i + 1)];
    }
  }

  /** The band always holds the projected cost, and no figure is negative. */
  lemma BandHoldsCost(base: real, slope: real, month: nat)
    ensures var p := Project(base, slope, month); 0.0 <= p.lower <= p.cost <= p.upper
  {
  }

  function AtLeastZero(x: real): real {
    if x < 0.0 then 0.0 else x
  }

  /** A history on a line is continued on that line, as long as it stays above zero. */
  lemma ForecastExtrapolates(months: seq<real>, a: real, c: real, month: nat)
    requires |months| >= 2 && OnLine(months, a, c)
    ensures Project(months[|months| - 1], ForecastSlope(months, months[|months| - 1]), month).cost
         == AtLeastZero(LineAt(a, c, (|months| - 1 + month) as real))
  {
    FitIsLine(months, a, c);
    ProjectAlongLine(a, c, (|months| - 1) as real, month);
  }

  lemma ProjectAlongLine(a: real, c: real, at: real, month: nat)
    ensures Project(LineAt(a, c, at), a, month).cost == AtLeastZero(LineAt(a, c, at + month as real))
  {
    assert a * (at + month as real) == a * at + a * month as real;
  }

  lemma FitIsLine(ys: seq<real>, a: real, c: real)
    requires |ys| >= 2 && OnLine(ys, a, c)
    ensures MomentsOf(ys).n > 0.0 && Divisor(MomentsOf(ys)) > 0.0
    ensures Slope(MomentsOf(ys)) == a && Intercept(MomentsOf(ys)) == c
  {
    ResidualSign(ys, a, c);
    LeastSquares(ys, a, c);
    ResidualSign(ys, Slope(MomentsOf(ys)), Intercept(MomentsOf(ys)));
  }

  // ------------------------------------------------------------------ the figures of a projection

  /** The band is eight percent either way, and the growth is counted from the base. */
  lemma ProjectionMeans(base: real, slope: real, month: nat)
    ensures var p := Project(base, slope, month);
      && p.month == month && 100.0 * p.lower == 92.0 * p.cost && 100.0 * p.upper == 108.0 * p.cost
      && (base != 0.0 ==> Times(p.growthPct, base) == 100.0 * (p.cost - base)) && (base == 0.0 ==> p.growthPct == 0.0)
      && (p.trend == Rising <==> slope > 1.0) && (p.trend == Falling <==> slope < -1.0)
  {
    if base != 0.0 {
      GrowthOf(base, Project(base, slope, month).cost);
    }
  }

  lemma GrowthOf(base: real, projected: real)
    requires base != 0.0
    ensures Times(Growth(base, projected), base) == 100.0 * (projected - base)
  {
    var q := (projected - base) / base;
    assert q * base == projected - base;
  }

  /** With fewer than two snapshots the cost is taken to grow by three percent of the base a month. */
  lemma DefaultGrowth(months: seq<real>, base: real, month: nat)
    requires |months| < 2 && base >= 0.0
    ensures 100.0 * Project(base, ForecastSlope(months, base), month).cost == Times(base, 100.0 + 3.0 * month as real)
  {
    var slope := ForecastSlope(months, base);
    assert slope == base * 0.03;
    GrowsBy(base, month as real);
  }

  lemma GrowsBy(base: real, m: real)
    requires base >= 0.0 && m >= 0.0
    ensures base + base * 0.03 * m >= 0.0
    ensures 100.0 * (base + base * 0.03 * m) == Times(base, 100.0 + 3.0 * m)
  {
  }
}
