/**
 * Ordinary least squares on a window ys against x = 1, 2, ..., n, the fit that
 * scikit-learn's `LinearRegression(fit_intercept=True)` computes and that Pine
 * Script's `ta.linreg` evaluates. The fit is written in closed form from the sums of
 * x, x*x, y and x*y; the lemmas show it solves the normal equations of least squares,
 * that it is their only solution, and that it reproduces windows lying on a line.
 *
 * The sums are defined by recursions without products, which keeps the solver's
 * non-linear reasoning confined to the small arithmetic lemmas.
 */
module Ols {
  /** 1 + 2 + ... + n. */
  function SumX(n: nat): real
  {
    if n == 0 then 0.0 else SumX(n - 1) + n as real
  }

  /** 1 + 4 + ... + n*n, using n*n == 2 * (1 + ... + n) - n. */
  function SumXX(n: nat): real
  {
    if n == 0 then 0.0 else SumXX(n - 1) + 2.0 * SumX(n) - n as real
  }

  /** Sum of the window, accumulated from the front entry on. */
  function Total(ys: seq<real>): real
  {
    if |ys| == 0 then 0.0 else ys[0] + Total(ys[1..])
  }

  /** Sum of (k + 1) * ys[k]: every entry counted once more for each entry before it. */
  function SumXY(ys: seq<real>): real
  {
    if |ys| == 0 then 0.0 else Total(ys) + SumXY(ys[1..])
  }

  lemma SumsStep(m: real, p: real, q: real, p1: real, q1: real)
    requires 2.0 * p == m * (m + 1.0)
    requires 6.0 * q == m * (m + 1.0) * (2.0 * m + 1.0)
    requires p1 == p + m + 1.0 && q1 == q + 2.0 * p1 - (m + 1.0)
    ensures 2.0 * p1 == (m + 1.0) * (m + 2.0)
    ensures q1 - q == (m + 1.0) * (m + 1.0)
    ensures 6.0 * q1 == (m + 1.0) * (m + 2.0) * (2.0 * (m + 1.0) + 1.0)
  {
  }

  /** Gauss's closed forms: the sums are those of x and of x squared. */
  lemma {:induction false} SumsClosed(n: nat)
    ensures 2.0 * SumX(n) == (n as real) * (n as real + 1.0)
    ensures n > 0 ==> SumXX(n) - SumXX(n - 1) == (n as real) * (n as real)
    ensures 6.0 * SumXX(n) == (n as real) * (n as real + 1.0) * (2.0 * (n as real) + 1.0)
  {
    if n > 0 {
      SumsClosed(n - 1);
      SumsStep((n - 1) as real, SumX(n - 1), SumXX(n - 1), SumX(n), SumXX(n));
    }
  }

  datatype Line = Line(intercept: real, slope: real)

  function At(l: Line, x: real): real
  {
    l.intercept + l.slope * x
  }

  /**
   * The fitted line. When every x is the same (a window of one) the system is
   * singular and the minimum-norm solution has slope 0, as scikit-learn returns.
   */
  function Fit(ys: seq<real>): Line
    requires |ys| >= 1
  {
    var n := |ys| as real;
    var sx := SumX(|ys|);
    var sxx := SumXX(|ys|);
    var sy := Total(ys);
    var sxy := SumXY(ys);
    var d := n * sxx - sx * sx;
    var b := if d == 0.0 then 0.0 else (n * sxy - sx * sy) / d;
    Line((sy - b * sx) / n, b)
  }

  /** The fit evaluated at the window's last x, n. */
  function Linreg(ys: seq<real>): real
    requires |ys| >= 1
  {
    At(Fit(ys), |ys| as real)
  }

  /**
   * The normal equations of least squares for the line l: the residuals
   * y - (a + b*x) sum to zero, and so do the residuals weighted by x.
   */
  predicate Normal(ys: seq<real>, l: Line)
  {
    var n := |ys| as real;
    && Total(ys) == n * l.intercept + l.slope * SumX(|ys|)
    && SumXY(ys) == l.intercept * SumX(|ys|) + l.slope * SumXX(|ys|)
  }

  /** n * Sxx - Sx^2 == n^2 (n + 1) (n - 1) / 12, so the design is regular from two points on. */
  lemma Regular(n: nat)
    requires n >= 2
    ensures (n as real) * SumXX(n) - SumX(n) * SumX(n) > 0.0
  {
    SumsClosed(n);
    RegularArith(n as real, SumX(n), SumXX(n));
  }

  lemma RegularArith(nn: real, sx: real, sxx: real)
    requires nn >= 2.0
    requires 2.0 * sx == nn * (nn + 1.0) && 6.0 * sxx == nn * (nn + 1.0) * (2.0 * nn + 1.0)
    ensures nn * sxx - sx * sx > 0.0
  {
    var q := nn * (nn + 1.0);
    assert 12.0 * (nn * sxx) == 2.0 * nn * q * (2.0 * nn + 1.0);
    assert 12.0 * (sx * sx) == 3.0 * q * q;
    assert 12.0 * (nn * sxx - sx * sx) == q * (nn * (nn - 1.0));
    assert q > 0.0 && nn * (nn - 1.0) > 0.0;
  }

  /** The closed-form coefficients solve the normal equations. */
  lemma SolvesNormal(nn: real, sx: real, sxx: real, sy: real, sxy: real, a: real, b: real)
    requires nn > 0.0
    requires b == (if nn * sxx - sx * sx == 0.0 then 0.0 else (nn * sxy - sx * sy) / (nn * sxx - sx * sx))
    requires nn * sxx - sx * sx == 0.0 ==> nn * sxy - sx * sy == 0.0
    requires a == (sy - b * sx) / nn
    ensures sy == nn * a + b * sx
    ensures sxy == a * sx + b * sxx
  {
    var d := nn * sxx - sx * sx;
    assert nn * a == sy - b * sx;
    assert b * d == nn * sxy - sx * sy;
    assert nn * (sxy - a * sx - b * sxx) == nn * sxy - sx * (nn * a) - b * (nn * sxx);
    assert nn * (sxy - a * sx - b * sxx) == 0.0;
  }

  /** The normal equations determine the coefficients once the design is regular. */
  lemma NormalDetermines(nn: real, sx: real, sxx: real, sy: real, sxy: real, a: real, b: real)
    requires nn > 0.0 && nn * sxx - sx * sx != 0.0
    requires sy == nn * a + b * sx && sxy == a * sx + b * sxx
    ensures b == (nn * sxy - sx * sy) / (nn * sxx - sx * sx)
    ensures a == (sy - b * sx) / nn
  {
    var d := nn * sxx - sx * sx;
    assert nn * sxy - sx * sy == nn * (a * sx + b * sxx) - sx * (nn * a + b * sx);
    assert nn * sxy - sx * sy == b * d;
  }

  lemma SingleSums(ys: seq<real>)
    requires |ys| == 1
    ensures Total(ys) == ys[0] && SumXY(ys) == ys[0]
    ensures SumX(1) == 1.0 && SumXX(1) == 1.0
  {
    assert ys[..0] == [] && ys[1..] == [];
  }

  /** The fitted line satisfies both normal equations. */
  lemma FitIsNormal(ys: seq<real>)
    requires |ys| >= 1
    ensures Normal(ys, Fit(ys))
  {
    var n := |ys|;
    if n >= 2 {
      Regular(n);
    } else {
      SingleSums(ys);
    }
    SolvesNormal(n as real, SumX(n), SumXX(n), Total(ys), SumXY(ys), Fit(ys).intercept, Fit(ys).slope);
  }

  /** From two points on, the fitted line is the only line satisfying the normal equations. */
  lemma NormalIsFit(ys: seq<real>, l: Line)
    requires |ys| >= 2 && Normal(ys, l)
    ensures l == Fit(ys)
  {
    var n := |ys|;
    Regular(n);
    NormalDetermines(n as real, SumX(n), SumXX(n), Total(ys), SumXY(ys), l.intercept, l.slope);
  }

  /** ys lies exactly on the line l at x = 1..|ys|. */
  predicate OnLine(ys: seq<real>, l: Line)
  {
    forall k :: 0 <= k < |ys| ==> ys[k] == At(l, (k + 1) as real)
  }

  lemma LineSumStep(m: real, a: real, b: real, y: real, t0: real, x0: real, t: real, x: real)
    requires y == a + b
    requires t0 == m * (a + b) + b * x0
    requires t == y + t0 && x == x0 + (m + 1.0)
    ensures t == (m + 1.0) * a + b * x
  {
  }

  /** Dropping the first entry of a window on line l leaves a window on l moved one step left. */
  lemma ShiftOnLine(ys: seq<real>, l: Line)
    requires |ys| > 0 && OnLine(ys, l)
    ensures OnLine(ys[1..], Line(l.intercept + l.slope, l.slope))
  {
    var l1 := Line(l.intercept + l.slope, l.slope);
    forall k | 0 <= k < |ys| - 1
      ensures ys[1..][k] == At(l1, (k + 1) as real)
    {
      assert ys[k + 1] == At(l, (k + 2) as real);
    }
  }

  lemma {:induction false} SumOnLine(ys: seq<real>, l: Line)
    requires OnLine(ys, l)
    ensures Total(ys) == (|ys| as real) * l.intercept + l.slope * SumX(|ys|)
  {
    if |ys| > 0 {
      var n := |ys|;
      ShiftOnLine(ys, l);
      SumOnLine(ys[1..], Line(l.intercept + l.slope, l.slope));
      assert ys[0] == At(l, 1.0);
      LineSumStep((n - 1) as real, l.intercept, l.slope, ys[0], Total(ys[1..]), SumX(n - 1), Total(ys), SumX(n));
    }
  }

  lemma MomentStep(nx: real, a: real, b: real, a1: real, s: real, x0: real, xx0: real, t: real, x: real, xx: real, r: real)
    requires s == nx * a + b * x
    requires a1 == a + b && t == a1 * x0 + b * xx0
    requires x == x0 + nx && xx == xx0 + 2.0 * x - nx
    requires r == s + t
    ensures r == a * x + b * xx
  {
  }

  lemma {:induction false} MomentOnLine(ys: seq<real>, l: Line)
    requires OnLine(ys, l)
    ensures SumXY(ys) == l.intercept * SumX(|ys|) + l.slope * SumXX(|ys|)
  {
    if |ys| > 0 {
      var n := |ys|;
      ShiftOnLine(ys, l);
      MomentOnLine(ys[1..], Line(l.intercept + l.slope, l.slope));
      SumOnLine(ys, l);
      MomentStep(n as real, l.intercept, l.slope, l.intercept + l.slope, Total(ys), SumX(n - 1), SumXX(n - 1),
                 SumXY(ys[1..]), SumX(n), SumXX(n), SumXY(ys));
    }
  }

  /** The sums of a window on a line satisfy that line's normal equations. */
  lemma OnLineIsNormal(ys: seq<real>, l: Line)
    requires OnLine(ys, l)
    ensures Normal(ys, l)
  {
    SumOnLine(ys, l);
    MomentOnLine(ys, l);
  }

  /** A window of one value is fitted by the flat line through it. */
  lemma FitSingle(ys: seq<real>)
    requires |ys| == 1
    ensures Fit(ys) == Line(ys[0], 0.0)
  {
    SingleSums(ys);
  }

  /** A window lying exactly on a line c + d*x is reproduced: its linreg value is c + d*n. */
  lemma LinregOfLine(ys: seq<real>, c: real, d: real)
    requires |ys| >= 1
    requires forall k :: 0 <= k < |ys| ==> ys[k] == c + d * ((k + 1) as real)
    ensures Linreg(ys) == c + d * (|ys| as real)
  {
    var l := Line(c, d);
    assert OnLine(ys, l);
    if |ys| >= 2 {
      FitOfLine(ys, l);
    } else {
      LinregSingle(ys);
    }
  }

  /** From two points on, a window on a line is fitted by that line. */
  lemma FitOfLine(ys: seq<real>, l: Line)
    requires |ys| >= 2 && OnLine(ys, l)
    ensures Fit(ys) == l
  {
    OnLineIsNormal(ys, l);
    NormalIsFit(ys, l);
  }

  lemma LinregSingle(ys: seq<real>)
    requires |ys| == 1
    ensures Linreg(ys) == ys[0]
  {
    FitSingle(ys);
  }

  /** A constant window's linreg value is that constant. */
  lemma LinregOfConstant(ys: seq<real>, c: real)
    requires |ys| >= 1
    requires forall k :: 0 <= k < |ys| ==> ys[k] == c
    ensures Linreg(ys) == c
  {
    LinregOfLine(ys, c, 0.0);
  }
}
