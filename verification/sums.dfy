/** Sums over samples, in the shapes the statistics need. */
module Sums {

  function Sum(ys: seq<real>): real {
    if ys == [] then 0.0 else Sum(ys[..|ys| - 1]) + ys[|ys| - 1]
  }

  /** The running sums of a regression over the points (0, ys[0]), (1, ys[1]), ... */
  datatype Moments = Moments(n: real, x: real, y: real, xy: real, xx: real)

  function Grow(m: Moments, x: real, y: real): Moments {
    Moments(m.n + 1.0, m.x + x, m.y + y, m.xy + x * y, m.xx + x * x)
  }

  function MomentsOf(ys: seq<real>): Moments {
    if ys == [] then Moments(0.0, 0.0, 0.0, 0.0, 0.0)
    else Grow(MomentsOf(ys[..|ys| - 1]), (|ys| - 1) as real, ys[|ys| - 1])
  }

  function Times(x: real, y: real): real {
    x * y
  }

  function Square(x: real): real {
    Times(x, x)
  }

  /** The squared deviations from a value, summed. */
  function Deviation(ys: seq<real>, from: real): real {
    if ys == [] then 0.0 else Deviation(ys[..|ys| - 1], from) + Square(ys[|ys| - 1] - from)
  }

  function LineAt(a: real, c: real, x: real): real {
    a * x + c
  }

  /** The squared residuals of the line a * i + c, summed. */
  function Residual(ys: seq<real>, a: real, c: real): real {
    if ys == [] then 0.0
    else Residual(ys[..|ys| - 1], a, c) + Square(ys[|ys| - 1] - LineAt(a, c, (|ys| - 1) as real))
  }

  lemma SumSnoc(ys: seq<real>, y: real)
    ensures Sum(ys + [y]) == Sum(ys) + y
  {
    assert (ys + [y])[..|ys|] == ys;
  }

  lemma DeviationSnoc(ys: seq<real>, from: real, y: real)
    ensures Deviation(ys + [y], from) == Deviation(ys, from) + Square(y - from)
  {
    assert (ys + [y])[..|ys|] == ys;
  }

  lemma {:induction false} SumConcat(a: seq<real>, b: seq<real>)
    ensures Sum(a + b) == Sum(a) + Sum(b)
  {
    if b == [] {
      assert a + b == a;
    } else {
      assert a + b == (a + b[..|b| - 1]) + [b[|b| - 1]];
      SumSnoc(a + b[..|b| - 1], b[|b| - 1]);
      SumConcat(a, b[..|b| - 1]);
    }
  }

  lemma {:induction false} DeviationConcat(a: seq<real>, b: seq<real>, from: real)
    ensures Deviation(a + b, from) == Deviation(a, from) + Deviation(b, from)
  {
    if b == [] {
      assert a + b == a;
    } else {
      assert a + b == (a + b[..|b| - 1]) + [b[|b| - 1]];
      DeviationSnoc(a + b[..|b| - 1], from, b[|b| - 1]);
      DeviationConcat(a, b[..|b| - 1], from);
    }
  }

  /** A sum of squares is not negative, and vanishes only when each square does. */
  lemma {:induction false} DeviationSign(ys: seq<real>, from: real)
    ensures Deviation(ys, from) >= 0.0
    ensures Deviation(ys, from) == 0.0 <==> forall i :: 0 <= i < |ys| ==> ys[i] == from
  {
    if ys != [] {
      var front, last := ys[..|ys| - 1], ys[|ys| - 1];
      DeviationSign(front, from);
      SquareSign(last - from);
      if Deviation(ys, from) == 0.0 {
        forall i | 0 <= i < |ys| ensures ys[i] == from {
          assert i < |front| ==> front[i] == ys[i];
        }
      }
      if forall i :: 0 <= i < |ys| ==> ys[i] == from {
        assert forall i :: 0 <= i < |front| ==> front[i] == ys[i];
      }
    }
  }

  lemma SquareSign(x: real)
    ensures Square(x) >= 0.0
    ensures x == 0.0 ==> Square(x) == 0.0
    ensures x != 0.0 ==> Square(x) > 0.0
  {
    if x > 0.0 {
      TimesPositive(x, x);
    } else if x < 0.0 {
      TimesPositive(-x, -x);
      TimesNegated(x, x);
    }
  }

  lemma TimesPositive(x: real, y: real)
    requires x > 0.0 && y > 0.0
    ensures Times(x, y) > 0.0
  {
  }

  lemma TimesNegated(x: real, y: real)
    ensures Times(-x, -y) == Times(x, y)
  {
  }

  lemma {:induction false} ResidualSign(ys: seq<real>, a: real, c: real)
    ensures Residual(ys, a, c) >= 0.0
    ensures Residual(ys, a, c) == 0.0 <==> forall i :: 0 <= i < |ys| ==> ys[i] == a * i as real + c
  {
    if ys != [] {
      var front, last := ys[..|ys| - 1], ys[|ys| - 1];
      ResidualSign(front, a, c);
      SquareSign(last - (a * (|ys| - 1) as real + c));
      if Residual(ys, a, c) == 0.0 {
        forall i | 0 <= i < |ys| ensures ys[i] == a * i as real + c {
          assert i < |front| ==> front[i] == ys[i];
        }
      }
      if forall i :: 0 <= i < |ys| ==> ys[i] == a * i as real + c {
        assert forall i :: 0 <= i < |front| ==> front[i] == ys[i];
      }
    }
  }

  /** The residuals of a flat line are the deviations from its height. */
  lemma {:induction false} FlatResidual(ys: seq<real>, c: real)
    ensures Residual(ys, 0.0, c) == Deviation(ys, c)
  {
    if ys != [] {
      FlatResidual(ys[..|ys| - 1], c);
    }
  }

  predicate Closed(m: Moments) {
    2.0 * m.x == m.n * (m.n - 1.0) && 6.0 * m.xx == (m.n - 1.0) * m.n * (2.0 * m.n - 1.0)
  }

  lemma {:induction false} MomentsClosed(ys: seq<real>)
    ensures MomentsOf(ys).n == |ys| as real && Closed(MomentsOf(ys))
  {
    if ys == [] {
      NothingClosed();
    } else {
      var front, x, y := ys[..|ys| - 1], (|ys| - 1) as real, ys[|ys| - 1];
      MomentsClosed(front);
      ClosedGrows(MomentsOf(front), x, y);
    }
  }

  lemma NothingClosed()
    ensures Closed(Moments(0.0, 0.0, 0.0, 0.0, 0.0))
  {
  }

  lemma {:induction false} MomentsSum(ys: seq<real>)
    ensures MomentsOf(ys).n == |ys| as real && MomentsOf(ys).y == Sum(ys)
  {
    if ys != [] {
      MomentsSum(ys[..|ys| - 1]);
    }
  }

  lemma ClosedGrows(m: Moments, x: real, y: real)
    requires Closed(m) && m.n == x
    ensures Closed(Grow(m, x, y))
  {
    assert (x - 1.0) * x * (2.0 * x - 1.0) + 6.0 * (x * x) == x * (x + 1.0) * (2.0 * (x + 1.0) - 1.0);
  }

  /** The residuals of the line a * i + c as a quadratic form in a and c; yy is the sum of
      the squared samples. */
  function Form(m: Moments, yy: real, a: real, c: real): real {
    yy - 2.0 * a * m.xy - 2.0 * c * m.y + a * a * m.xx + 2.0 * a * c * m.x + m.n * c * c
  }

  /** A form that grows with each sample as the residual does is the residual. */
  lemma {:induction false} ResidualIs(ys: seq<real>, a: real, c: real, form: (Moments, real) -> real)
    requires form(Moments(0.0, 0.0, 0.0, 0.0, 0.0), 0.0) == 0.0
    requires forall m, yy, x, y ::
               form(Grow(m, x, y), yy + Square(y - 0.0)) == form(m, yy) + Square(y - LineAt(a, c, x))
    ensures Residual(ys, a, c) == form(MomentsOf(ys), Deviation(ys, 0.0))
  {
    if ys != [] {
      ResidualIs(ys[..|ys| - 1], a, c, form);
    }
  }

  lemma ResidualExpands(ys: seq<real>, a: real, c: real)
    ensures Residual(ys, a, c) == Form(MomentsOf(ys), Deviation(ys, 0.0), a, c)
  {
    FormOfNothing(a, c);
    forall m, yy, x, y
      ensures Form(Grow(m, x, y), yy + Square(y - 0.0), a, c) == Form(m, yy, a, c) + Square(y - LineAt(a, c, x))
    {
      FormGrows(m, yy, a, c, x, y);
    }
    ResidualIs(ys, a, c, (m, yy) => Form(m, yy, a, c));
  }

  lemma FormOfNothing(a: real, c: real)
    ensures Form(Moments(0.0, 0.0, 0.0, 0.0, 0.0), 0.0, a, c) == 0.0
  {
  }

  lemma FormGrows(m: Moments, yy: real, a: real, c: real, x: real, y: real)
    ensures Form(Grow(m, x, y), yy + Square(y - 0.0), a, c) == Form(m, yy, a, c) + Square(y - LineAt(a, c, x))
  {
    var l := a * x + c;
    assert Square(y - l) == y * y - 2.0 * (y * l) + l * l;
    assert y * l == a * (x * y) + c * y;
    assert l * l == a * (a * (x * x)) + 2.0 * (a * (c * x)) + c * c;
    assert 2.0 * a * (m.xy + x * y) == 2.0 * a * m.xy + 2.0 * (a * (x * y));
    assert 2.0 * c * (m.y + y) == 2.0 * c * m.y + 2.0 * (c * y);
    assert a * a * (m.xx + x * x) == a * a * m.xx + a * (a * (x * x));
    assert 2.0 * a * c * (m.x + x) == 2.0 * a * c * m.x + 2.0 * (a * (c * x));
    assert (m.n + 1.0) * c * c == m.n * c * c + c * c;
  }
}
