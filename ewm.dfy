/**
 * The exponentially weighted mean of pandas (`Series.ewm(span=..., adjust=...).mean()`),
 * written as the recurrence pandas evaluates: a running average `avg` and the weight
 * `weight` of everything averaged so far. A missing input (NaN) leaves the average as it
 * was and only decays the old weight; outputs stay missing until the first observation.
 */
module Ewm {
  import opened Wrappers

  /** The smoothing factor pandas derives from `span`. */
  function Alpha(span: nat): (a: real)
    requires span >= 1
    ensures 0.0 < a <= 1.0
    ensures a * (span as real + 1.0) == 2.0
  {
    2.0 / (span as real + 1.0)
  }

  /** Every value present. */
  function Lift(xs: seq<real>): (r: seq<Option<real>>)
    ensures |r| == |xs| && forall i :: 0 <= i < |xs| ==> r[i] == Some(xs[i])
  {
    seq(|xs|, i requires 0 <= i < |xs| => Some(xs[i]))
  }

  datatype State = State(avg: Option<real>, weight: real)

  /** The old weight after one more step. */
  function Decay(alpha: real, weight: real): (w: real)
    requires 0.0 <= alpha <= 1.0 && weight >= 0.0
    ensures 0.0 <= w <= weight
  {
    NonNegProduct(1.0 - alpha, weight);
    MulMono(weight, 1.0 - alpha, 1.0);
    (1.0 - alpha) * weight
  }

  /** The average of `a` with weight `w` and `v` with weight `nw`. */
  function Blend(w: real, a: real, nw: real, v: real): real
    requires w >= 0.0 && nw > 0.0
  {
    (w * a + nw * v) / (w + nw)
  }

  lemma BlendUnit(w: real, a: real, nw: real, v: real)
    requires w >= 0.0 && nw > 0.0 && w + nw == 1.0
    ensures Blend(w, a, nw, v) == w * a + nw * v
  {
  }

  /** The blended value times the total weight is the weighted total. */
  lemma BlendTimesWeight(w: real, a: real, v: real)
    requires w >= 0.0
    ensures Blend(w, a, 1.0, v) * (w + 1.0) == w * a + v
  {
  }

  /** One step of pandas' ewm mean: `adjust` chooses weight 1 for the new value and a
      growing old weight, otherwise weight `alpha` against an old weight reset to 1. */
  function Step(s: State, x: Option<real>, alpha: real, adjust: bool): (r: State)
    requires 0.0 < alpha <= 1.0 && s.weight >= 0.0
    ensures r.weight >= 0.0
    ensures (s.avg.None? ==> s.weight == 1.0) ==> (r.avg.None? ==> r.weight == 1.0)
  {
    if s.avg.None? then (if x.Some? then State(x, s.weight) else s)
    else
      var w := Decay(alpha, s.weight);
      if x.None? then State(s.avg, w)
      else if adjust then State(Some(Blend(w, s.avg.value, 1.0, x.value)), w + 1.0)
      else State(Some(Blend(w, s.avg.value, alpha, x.value)), 1.0)
  }

  /** The state after the first `k` inputs. */
  function StateAfter(xs: seq<Option<real>>, alpha: real, adjust: bool, k: nat): (s: State)
    requires 0.0 < alpha <= 1.0 && k <= |xs|
    ensures s.weight >= 0.0
    ensures s.avg.None? ==> s.weight == 1.0
  {
    if k == 0 then State(None, 1.0)
    else Step(StateAfter(xs, alpha, adjust, k - 1), xs[k - 1], alpha, adjust)
  }

  /** `xs.ewm(alpha=alpha, adjust=adjust).mean()`: entry i is the average after i + 1 inputs. */
  function Mean(xs: seq<Option<real>>, alpha: real, adjust: bool): (r: seq<Option<real>>)
    requires 0.0 < alpha <= 1.0
    ensures |r| == |xs|
    ensures forall i :: 0 <= i < |xs| ==> r[i] == StateAfter(xs, alpha, adjust, i + 1).avg
  {
    seq(|xs|, i requires 0 <= i < |xs| => StateAfter(xs, alpha, adjust, i + 1).avg)
  }

  lemma NonNegProduct(a: real, b: real)
    requires a >= 0.0 && b >= 0.0
    ensures a * b >= 0.0
  {
  }

  /** Some input among the first `k` is present. */
  predicate SeenBy(xs: seq<Option<real>>, k: nat)
    requires k <= |xs|
  {
    exists j :: 0 <= j < k && xs[j].Some?
  }

  /** The average is defined exactly from the first present input on. */
  lemma {:induction false} DefinedIff(xs: seq<Option<real>>, alpha: real, adjust: bool, k: nat)
    requires 0.0 < alpha <= 1.0 && k <= |xs|
    ensures StateAfter(xs, alpha, adjust, k).avg.Some? <==> SeenBy(xs, k)
  {
    if k > 0 {
      DefinedIff(xs, alpha, adjust, k - 1);
      if SeenBy(xs, k - 1) {
        var j :| 0 <= j < k - 1 && xs[j].Some?;
        assert 0 <= j < k && xs[j].Some?;
      }
      if xs[k - 1].Some? {
        assert 0 <= k - 1 < k && xs[k - 1].Some?;
      }
    }
  }

  lemma MulMono(c: real, x: real, y: real)
    requires c >= 0.0 && x <= y
    ensures c * x <= c * y
  {
    assert c * y - c * x == c * (y - x);
    NonNegProduct(c, y - x);
  }

  /** Dividing bounds by a positive denominator. */
  lemma DivBetween(s: real, d: real, lo: real, hi: real)
    requires d > 0.0 && lo * d <= s <= hi * d
    ensures lo <= s / d <= hi
  {
    var q := s / d;
    assert q * d == s;
  }

  /** A weighted average of two values in [lo, hi] stays in [lo, hi]. */
  lemma Convex(w: real, a: real, nw: real, v: real, lo: real, hi: real)
    requires w >= 0.0 && nw > 0.0
    requires lo <= a <= hi && lo <= v <= hi
    ensures lo <= Blend(w, a, nw, v) <= hi
  {
    MulMono(w, lo, a);
    MulMono(w, a, hi);
    MulMono(nw, lo, v);
    MulMono(nw, v, hi);
    DivBetween(w * a + nw * v, w + nw, lo, hi);
  }

  /** Every present input among the first k lies in [lo, hi]. */
  predicate Within(xs: seq<Option<real>>, k: nat, lo: real, hi: real)
    requires k <= |xs|
  {
    forall j :: 0 <= j < k && xs[j].Some? ==> lo <= xs[j].value <= hi
  }

  lemma {:induction false} StateWithin(xs: seq<Option<real>>, alpha: real, adjust: bool, k: nat, lo: real, hi: real)
    requires 0.0 < alpha <= 1.0 && k <= |xs|
    requires Within(xs, k, lo, hi)
    ensures StateAfter(xs, alpha, adjust, k).avg.Some? ==> lo <= StateAfter(xs, alpha, adjust, k).avg.value <= hi
  {
    if k > 0 {
      StateWithin(xs, alpha, adjust, k - 1, lo, hi);
      var p := StateAfter(xs, alpha, adjust, k - 1);
      if p.avg.Some? && xs[k - 1].Some? {
        Convex(Decay(alpha, p.weight), p.avg.value, if adjust then 1.0 else alpha, xs[k - 1].value, lo, hi);
      }
    }
  }

  /** The mean is bounded by the inputs seen so far: entry i lies in [lo, hi] whenever every
      present input up to i does. */
  lemma MeanWithin(xs: seq<Option<real>>, alpha: real, adjust: bool, i: nat, lo: real, hi: real)
    requires 0.0 < alpha <= 1.0 && i < |xs|
    requires Within(xs, i + 1, lo, hi)
    ensures Mean(xs, alpha, adjust)[i].Some? ==> lo <= Mean(xs, alpha, adjust)[i].value <= hi
  {
    StateWithin(xs, alpha, adjust, i + 1, lo, hi);
  }

  /** Every present input among the first k is at least lo. */
  predicate AtLeast(xs: seq<Option<real>>, k: nat, lo: real)
    requires k <= |xs|
  {
    forall j :: 0 <= j < k && xs[j].Some? ==> lo <= xs[j].value
  }

  lemma ConvexLower(w: real, a: real, nw: real, v: real, lo: real)
    requires w >= 0.0 && nw > 0.0 && lo <= a && lo <= v
    ensures lo <= Blend(w, a, nw, v)
  {
    Convex(w, a, nw, v, lo, if a < v then v else a);
  }

  lemma {:induction false} StateAtLeast(xs: seq<Option<real>>, alpha: real, adjust: bool, k: nat, lo: real)
    requires 0.0 < alpha <= 1.0 && k <= |xs|
    requires AtLeast(xs, k, lo)
    ensures StateAfter(xs, alpha, adjust, k).avg.Some? ==> lo <= StateAfter(xs, alpha, adjust, k).avg.value
  {
    if k > 0 {
      StateAtLeast(xs, alpha, adjust, k - 1, lo);
      var p := StateAfter(xs, alpha, adjust, k - 1);
      if p.avg.Some? && xs[k - 1].Some? {
        ConvexLower(Decay(alpha, p.weight), p.avg.value, if adjust then 1.0 else alpha, xs[k - 1].value, lo);
      }
    }
  }

  /** A lower bound on the inputs seen so far bounds the mean from below. */
  lemma MeanAtLeast(xs: seq<Option<real>>, alpha: real, adjust: bool, i: nat, lo: real)
    requires 0.0 < alpha <= 1.0 && i < |xs|
    requires AtLeast(xs, i + 1, lo)
    ensures Mean(xs, alpha, adjust)[i].Some? ==> lo <= Mean(xs, alpha, adjust)[i].value
  {
    StateAtLeast(xs, alpha, adjust, i + 1, lo);
  }

  /** The mean is defined at i exactly when some input up to i is present. */
  lemma MeanDefined(xs: seq<Option<real>>, alpha: real, adjust: bool, i: nat)
    requires 0.0 < alpha <= 1.0 && i < |xs|
    ensures Mean(xs, alpha, adjust)[i].Some? <==> SeenBy(xs, i + 1)
  {
    DefinedIff(xs, alpha, adjust, i + 1);
  }

  // ---------------------------------------------------------------------------
  // adjust=False on fully present inputs is the textbook EMA recurrence

  /** The EMA recurrence seeded with the first value. */
  function EmaAt(xs: seq<real>, alpha: real, t: nat): real
    requires t < |xs|
  {
    if t == 0 then xs[0] else alpha * xs[t] + (1.0 - alpha) * EmaAt(xs, alpha, t - 1)
  }

  lemma NonAdjustedStep(a: real, v: real, alpha: real)
    requires 0.0 < alpha <= 1.0
    ensures Step(State(Some(a), 1.0), Some(v), alpha, false) == State(Some(alpha * v + (1.0 - alpha) * a), 1.0)
  {
    var w := Decay(alpha, 1.0);
    assert w == 1.0 - alpha;
    BlendUnit(w, a, alpha, v);
    var s := State(Some(a), 1.0);
    assert Decay(alpha, s.weight) == w;
    assert Step(s, Some(v), alpha, false) == State(Some(Blend(w, a, alpha, v)), 1.0);
    assert Blend(w, a, alpha, v) == alpha * v + (1.0 - alpha) * a;
  }

  lemma {:induction false} NonAdjustedStateIsEma(xs: seq<real>, alpha: real, k: nat)
    requires 0.0 < alpha <= 1.0 && 1 <= k <= |xs|
    ensures StateAfter(Lift(xs), alpha, false, k) == State(Some(EmaAt(xs, alpha, k - 1)), 1.0)
  {
    if k > 1 {
      NonAdjustedStateIsEma(xs, alpha, k - 1);
      var e := EmaAt(xs, alpha, k - 2);
      var x := xs[k - 1];
      var l := Lift(xs);
      NonAdjustedStep(e, x, alpha);
      assert l[k - 1] == Some(x);
      assert StateAfter(l, alpha, false, k) == Step(State(Some(e), 1.0), Some(x), alpha, false);
      assert EmaAt(xs, alpha, k - 1) == alpha * x + (1.0 - alpha) * e;
    }
  }

  /** pandas' `ewm(adjust=False).mean()` of a series without NaN is the EMA recurrence. */
  lemma NonAdjustedIsEma(xs: seq<real>, alpha: real)
    requires 0.0 < alpha <= 1.0
    ensures forall t :: 0 <= t < |xs| ==> Mean(Lift(xs), alpha, false)[t] == Some(EmaAt(xs, alpha, t))
  {
    forall t | 0 <= t < |xs| ensures Mean(Lift(xs), alpha, false)[t] == Some(EmaAt(xs, alpha, t)) {
      NonAdjustedStateIsEma(xs, alpha, t + 1);
    }
  }

  // ---------------------------------------------------------------------------
  // adjust=True on fully present inputs is a normalised power-weighted sum

  function Pow(b: real, e: nat): real {
    if e == 0 then 1.0 else b * Pow(b, e - 1)
  }

  /** The sum over i < m of b^(k-1-i) * xs[i]. */
  function WeightedSum(xs: seq<real>, b: real, k: nat, m: nat): real
    requires m <= k <= |xs|
  {
    if m == 0 then 0.0 else WeightedSum(xs, b, k, m - 1) + Pow(b, k - m) * xs[m - 1]
  }

  /** The sum over i < m of b^(k-1-i). */
  function TotalWeight(b: real, k: nat, m: nat): real
    requires m <= k
  {
    if m == 0 then 0.0 else TotalWeight(b, k, m - 1) + Pow(b, k - m)
  }

  lemma {:induction false} ShiftWeights(xs: seq<real>, b: real, k: nat, m: nat)
    requires m <= k < |xs|
    ensures WeightedSum(xs, b, k + 1, m) == b * WeightedSum(xs, b, k, m)
    ensures TotalWeight(b, k + 1, m) == b * TotalWeight(b, k, m)
  {
    if m > 0 {
      ShiftWeights(xs, b, k, m - 1);
      assert Pow(b, k + 1 - m) == b * Pow(b, k - m);
    }
  }

  lemma SumsStep(xs: seq<real>, b: real, k: nat)
    requires 1 <= k < |xs|
    ensures WeightedSum(xs, b, k + 1, k + 1) == b * WeightedSum(xs, b, k, k) + xs[k]
    ensures TotalWeight(b, k + 1, k + 1) == b * TotalWeight(b, k, k) + 1.0
  {
    ShiftWeights(xs, b, k, k);
  }

  /** The numerator and the denominator of the adjusted average as recurrences. */
  function AdjNum(xs: seq<real>, b: real, k: nat): real
    requires 1 <= k <= |xs|
  {
    if k == 1 then xs[0] else b * AdjNum(xs, b, k - 1) + xs[k - 1]
  }

  function AdjDen(b: real, k: nat): (d: real)
    requires k >= 1 && b >= 0.0
    ensures d >= 1.0
  {
    if k == 1 then 1.0
    else
      var p := AdjDen(b, k - 1);
      NonNegProduct(b, p);
      b * p + 1.0
  }

  lemma AdjUnfold(xs: seq<real>, b: real, k: nat)
    requires 2 <= k <= |xs| && b >= 0.0
    ensures AdjNum(xs, b, k) == b * AdjNum(xs, b, k - 1) + xs[k - 1]
    ensures AdjDen(b, k) == b * AdjDen(b, k - 1) + 1.0
  {
  }

  /** One adjusted step from an average `a` of total weight `t`, on plain values. */
  lemma AdjustedStepValues(a: real, t: real, v: real, alpha: real, b: real, s: real, ws: real, tw: real)
    requires 0.0 < alpha <= 1.0 && b == 1.0 - alpha && t >= 0.0
    requires a * t == s && ws == b * s + v && tw == b * t + 1.0
    ensures var r := Step(State(Some(a), t), Some(v), alpha, true);
      r.weight == tw && r.avg.Some? && r.avg.value * tw == ws
  {
    var w := Decay(alpha, t);
    assert w == b * t;
    BlendTimesWeight(w, a, v);
    assert w * a == b * s;
  }

  /** The adjusted average tracks the pair (numerator, denominator). */
  predicate Tracks(st: State, n: real, d: real)
  {
    st.weight == d && st.avg.Some? && st.avg.value * d == n
  }

  lemma AdjustedStepTracks(st: State, v: real, alpha: real, b: real, s0: real, d: real, ws: real, tw: real)
    requires 0.0 < alpha <= 1.0 && b == 1.0 - alpha && d >= 0.0
    requires Tracks(st, s0, d) && ws == b * s0 + v && tw == b * d + 1.0
    ensures Tracks(Step(st, Some(v), alpha, true), ws, tw)
  {
    AdjustedStepValues(st.avg.value, d, v, alpha, b, s0, ws, tw);
    assert st == State(Some(st.avg.value), d);
  }

  lemma AdjustedStateFirst(xs: seq<real>, alpha: real)
    requires 0.0 < alpha <= 1.0 && 1 <= |xs|
    ensures Tracks(StateAfter(Lift(xs), alpha, true, 1), AdjNum(xs, 1.0 - alpha, 1), AdjDen(1.0 - alpha, 1))
  {
    assert Lift(xs)[0] == Some(xs[0]);
    assert StateAfter(Lift(xs), alpha, true, 0) == State(None, 1.0);
  }

  lemma AdjustedStateNext(xs: seq<real>, alpha: real, k: nat)
    requires 0.0 < alpha <= 1.0 && 2 <= k <= |xs|
    requires Tracks(StateAfter(Lift(xs), alpha, true, k - 1), AdjNum(xs, 1.0 - alpha, k - 1), AdjDen(1.0 - alpha, k - 1))
    ensures Tracks(StateAfter(Lift(xs), alpha, true, k), AdjNum(xs, 1.0 - alpha, k), AdjDen(1.0 - alpha, k))
  {
    var b := 1.0 - alpha;
    assert Lift(xs)[k - 1] == Some(xs[k - 1]);
    AdjUnfold(xs, b, k);
    AdjustedStepTracks(StateAfter(Lift(xs), alpha, true, k - 1), xs[k - 1], alpha, b, AdjNum(xs, b, k - 1), AdjDen(b, k - 1), AdjNum(xs, b, k), AdjDen(b, k));
  }

  /** After k >= 1 inputs without NaN the adjusted state is the ratio of the two recurrences. */
  lemma {:induction false} AdjustedStateRec(xs: seq<real>, alpha: real, k: nat)
    requires 0.0 < alpha <= 1.0 && 1 <= k <= |xs|
    ensures Tracks(StateAfter(Lift(xs), alpha, true, k), AdjNum(xs, 1.0 - alpha, k), AdjDen(1.0 - alpha, k))
  {
    if k == 1 {
      AdjustedStateFirst(xs, alpha);
    } else {
      AdjustedStateRec(xs, alpha, k - 1);
      AdjustedStateNext(xs, alpha, k);
    }
  }

  /** The recurrences are the power-weighted sums: the numerator is sum(b^(k-1-i) * xs[i])
      and the denominator sum(b^(k-1-i)) over i < k. */
  lemma {:induction false} RecurrencesAreSums(xs: seq<real>, b: real, k: nat)
    requires 1 <= k <= |xs| && b >= 0.0
    ensures AdjNum(xs, b, k) == WeightedSum(xs, b, k, k)
    ensures AdjDen(b, k) == TotalWeight(b, k, k)
  {
    if k > 1 {
      RecurrencesAreSums(xs, b, k - 1);
      SumsStep(xs, b, k - 1);
    }
  }

  /** pandas' `ewm(adjust=True).mean()` of a series without NaN: entry t is defined and,
      multiplied by the denominator recurrence (at least 1), gives the numerator recurrence.
      With `RecurrencesAreSums` this says entry t is sum(b^(t-i) * xs[i]) / sum(b^(t-i))
      over i <= t, with b = 1 - alpha. */
  lemma AdjustedIsWeightedAverage(xs: seq<real>, alpha: real, t: nat)
    requires 0.0 < alpha <= 1.0 && t < |xs|
    ensures Mean(Lift(xs), alpha, true)[t].Some?
    ensures Mean(Lift(xs), alpha, true)[t].value * AdjDen(1.0 - alpha, t + 1) == AdjNum(xs, 1.0 - alpha, t + 1)
  {
    AdjustedStateRec(xs, alpha, t + 1);
    var st := StateAfter(Lift(xs), alpha, true, t + 1);
    assert Mean(Lift(xs), alpha, true)[t] == st.avg;
  }
}
