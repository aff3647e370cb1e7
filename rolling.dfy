/**
 * Fixed-size trailing windows, as pandas `Series.rolling(window=w)` computes them
 * with the default `min_periods=w`: the value at index i uses the w entries that end
 * at i, and is undefined (NaN, here `None`) while fewer than w entries exist.
 */
module Rolling {
  import opened Wrappers
  import Ewm

  /** Total of a sequence, accumulated from the front. */
  function Sum(xs: seq<real>): real
  {
    if |xs| == 0 then 0.0 else Sum(xs[..|xs| - 1]) + xs[|xs| - 1]
  }

  predicate AllBetween(xs: seq<real>, lo: real, hi: real)
  {
    forall i :: 0 <= i < |xs| ==> lo <= xs[i] <= hi
  }

  lemma {:induction false} SumBounds(xs: seq<real>, lo: real, hi: real)
    requires AllBetween(xs, lo, hi)
    ensures |xs| as real * lo <= Sum(xs) <= |xs| as real * hi
  {
    if |xs| > 0 {
      var p := xs[..|xs| - 1];
      SumBounds(p, lo, hi);
      var m := |p| as real;
      assert (m + 1.0) * lo == m * lo + lo;
      assert (m + 1.0) * hi == m * hi + hi;
    }
  }

  /** Arithmetic mean of a non-empty window. */
  function Mean(xs: seq<real>): real
    requires |xs| > 0
  {
    Sum(xs) / |xs| as real
  }

  /** A mean lies between any bounds of the values it averages. */
  lemma MeanBetween(xs: seq<real>, lo: real, hi: real)
    requires |xs| > 0 && AllBetween(xs, lo, hi)
    ensures lo <= Mean(xs) <= hi
  {
    SumBounds(xs, lo, hi);
    Ewm.DivBetween(Sum(xs), |xs| as real, lo, hi);
  }

  /** Largest element of a non-empty window. */
  function Max(xs: seq<real>): (m: real)
    requires |xs| > 0
    ensures forall i :: 0 <= i < |xs| ==> xs[i] <= m
    ensures exists i :: 0 <= i < |xs| && xs[i] == m
  {
    if |xs| == 1 then xs[0]
    else
      var p := Max(xs[..|xs| - 1]);
      if xs[|xs| - 1] > p then xs[|xs| - 1] else p
  }

  /** Smallest element of a non-empty window. */
  function Min(xs: seq<real>): (m: real)
    requires |xs| > 0
    ensures forall i :: 0 <= i < |xs| ==> m <= xs[i]
    ensures exists i :: 0 <= i < |xs| && xs[i] == m
  {
    if |xs| == 1 then xs[0]
    else
      var p := Min(xs[..|xs| - 1]);
      if xs[|xs| - 1] < p then xs[|xs| - 1] else p
  }

  /** Sum of squared deviations from c. */
  function SquaredDeviations(xs: seq<real>, c: real): (s: real)
    ensures s >= 0.0
  {
    if |xs| == 0 then 0.0
    else
      var d := xs[|xs| - 1] - c;
      SquaredDeviations(xs[..|xs| - 1], c) + d * d
  }

  /** Sample variance (ddof = 1), the square of pandas' rolling `std()`. */
  function SampleVariance(xs: seq<real>): (v: real)
    requires |xs| >= 2
    ensures v >= 0.0
  {
    var s := SquaredDeviations(xs, Mean(xs));
    Ewm.DivBetween(s, (|xs| - 1) as real, 0.0, s / ((|xs| - 1) as real));
    s / ((|xs| - 1) as real)
  }

  /** The window of w entries ending at index i. */
  function Window<T>(xs: seq<T>, i: nat, w: nat): (r: seq<T>)
    requires w <= i + 1 <= |xs|
    ensures |r| == w && forall k :: 0 <= k < w ==> r[k] == xs[i + 1 - w + k]
  {
    xs[i + 1 - w..i + 1]
  }

  function RollingMean(xs: seq<real>, w: nat): (r: seq<Option<real>>)
    requires w >= 1
    ensures |r| == |xs|
  {
    seq(|xs|, i requires 0 <= i < |xs| => if i + 1 >= w then Some(Mean(Window(xs, i, w))) else None)
  }

  function RollingMax(xs: seq<real>, w: nat): (r: seq<Option<real>>)
    requires w >= 1
    ensures |r| == |xs|
  {
    seq(|xs|, i requires 0 <= i < |xs| => if i + 1 >= w then Some(Max(Window(xs, i, w))) else None)
  }

  function RollingMin(xs: seq<real>, w: nat): (r: seq<Option<real>>)
    requires w >= 1
    ensures |r| == |xs|
  {
    seq(|xs|, i requires 0 <= i < |xs| => if i + 1 >= w then Some(Min(Window(xs, i, w))) else None)
  }

  /** Rolling sample variance; a window of one value has none (pandas gives NaN). */
  function RollingVariance(xs: seq<real>, w: nat): (r: seq<Option<real>>)
    requires w >= 1
    ensures |r| == |xs|
  {
    seq(|xs|, i requires 0 <= i < |xs| => if w >= 2 && i + 1 >= w then Some(SampleVariance(Window(xs, i, w))) else None)
  }

  /** A rolling mean is defined from the first full window on, and lies within that window's range. */
  lemma RollingMeanAt(xs: seq<real>, w: nat, i: nat)
    requires w >= 1 && i < |xs|
    ensures RollingMean(xs, w)[i].Some? <==> i + 1 >= w
    ensures i + 1 >= w ==>
      Min(Window(xs, i, w)) <= RollingMean(xs, w)[i].value <= Max(Window(xs, i, w))
  {
    if i + 1 >= w {
      var win := Window(xs, i, w);
      MeanBetween(win, Min(win), Max(win));
    }
  }
}
