/**
 * Element-wise series operations shared by both indicator implementations: the
 * true range, bar-to-bar differences, directional movement, and NaN-aware division.
 */
module Series {
  import opened Wrappers

  function Abs(x: real): (r: real)
    ensures r >= 0.0 && (r == x || r == -x)
  {
    if x < 0.0 then -x else x
  }

  function Max3(a: real, b: real, c: real): (m: real)
    ensures a <= m && b <= m && c <= m
    ensures m == a || m == b || m == c
  {
    if a >= b && a >= c then a else if b >= c then b else c
  }

  /** `series.diff().fillna(0)`: the change from the previous bar, 0 on the first. */
  function Diff(xs: seq<real>): (r: seq<real>)
    ensures |r| == |xs|
    ensures |xs| > 0 ==> r[0] == 0.0
    ensures forall i :: 1 <= i < |xs| ==> r[i] == xs[i] - xs[i - 1]
  {
    seq(|xs|, i requires 0 <= i < |xs| => if i == 0 then 0.0 else xs[i] - xs[i - 1])
  }

  /** `-series.diff()` filled with 0: the fall from the previous bar. */
  function Fall(xs: seq<real>): (r: seq<real>)
    ensures |r| == |xs|
    ensures |xs| > 0 ==> r[0] == 0.0
    ensures forall i :: 1 <= i < |xs| ==> r[i] == xs[i - 1] - xs[i]
  {
    seq(|xs|, i requires 0 <= i < |xs| => if i == 0 then 0.0 else xs[i - 1] - xs[i])
  }

  /** The bar range high - low. */
  function HighLow(h: seq<real>, l: seq<real>): (r: seq<real>)
    requires |h| == |l|
    ensures |r| == |h| && forall i :: 0 <= i < |h| ==> r[i] == h[i] - l[i]
  {
    seq(|h|, i requires 0 <= i < |h| => h[i] - l[i])
  }

  /**
   * The true range as the row-wise maximum (NaN skipped) of high - low,
   * |high - previous close| and |low - previous close|: on the first bar only
   * high - low exists.
   */
  function TrueRange(h: seq<real>, l: seq<real>, c: seq<real>): (r: seq<real>)
    requires |h| == |l| == |c|
    ensures |r| == |h|
  {
    seq(|h|, i requires 0 <= i < |h| =>
      if i == 0 then h[0] - l[0] else Max3(h[i] - l[i], Abs(h[i] - c[i - 1]), Abs(l[i] - c[i - 1])))
  }

  /** The true range is the largest of the three distances, so never negative after the first bar. */
  lemma TrueRangeAt(h: seq<real>, l: seq<real>, c: seq<real>, i: nat)
    requires |h| == |l| == |c| && 1 <= i < |h|
    ensures var t := TrueRange(h, l, c)[i];
      && h[i] - l[i] <= t && Abs(h[i] - c[i - 1]) <= t && Abs(l[i] - c[i - 1]) <= t
      && (t == h[i] - l[i] || t == Abs(h[i] - c[i - 1]) || t == Abs(l[i] - c[i - 1]))
      && t >= 0.0
  {
  }

  /** With a well-formed first bar every true range is non-negative. */
  lemma TrueRangeNonNegative(h: seq<real>, l: seq<real>, c: seq<real>)
    requires |h| == |l| == |c| && (|h| > 0 ==> l[0] <= h[0])
    ensures forall i :: 0 <= i < |h| ==> TrueRange(h, l, c)[i] >= 0.0
  {
    forall i | 1 <= i < |h| ensures TrueRange(h, l, c)[i] >= 0.0 {
      TrueRangeAt(h, l, c, i);
    }
  }

  /** Positive directional movement: the rise, when it beats the fall and is positive. */
  function PlusDm(up: real, down: real): real
  {
    if up > down && up > 0.0 then up else 0.0
  }

  /** Negative directional movement: the fall, when it beats the rise and is positive. */
  function MinusDm(up: real, down: real): real
  {
    if down > up && down > 0.0 then down else 0.0
  }

  /** Directional movement is never negative, and at most one direction moves on a bar. */
  lemma DmExclusive(up: real, down: real)
    ensures PlusDm(up, down) >= 0.0 && MinusDm(up, down) >= 0.0
    ensures PlusDm(up, down) == 0.0 || MinusDm(up, down) == 0.0
    ensures PlusDm(up, down) > 0.0 <==> up > down && up > 0.0
    ensures MinusDm(up, down) > 0.0 <==> down > up && down > 0.0
  {
  }

  /** `a / b` in floating point where the model keeps only finite results: 0 / 0 (NaN)
      and x / 0 (infinite) are both missing. */
  function Div(a: Option<real>, b: Option<real>): (r: Option<real>)
    ensures r.Some? <==> a.Some? && b.Some? && b.value != 0.0
    ensures r.Some? ==> r.value * b.value == a.value
  {
    if a.Some? && b.Some? && b.value != 0.0 then Some(a.value / b.value) else None
  }

  function Scale(k: real, xs: seq<Option<real>>): (r: seq<Option<real>>)
    ensures |r| == |xs|
    ensures forall i :: 0 <= i < |xs| ==> r[i].Some? == xs[i].Some?
    ensures forall i :: 0 <= i < |xs| && xs[i].Some? ==> r[i].value == k * xs[i].value
  {
    seq(|xs|, i requires 0 <= i < |xs| => if xs[i].Some? then Some(k * xs[i].value) else None)
  }

  /** `series.fillna(v)`. */
  function FillNa(xs: seq<Option<real>>, v: real): (r: seq<real>)
    ensures |r| == |xs|
    ensures forall i :: 0 <= i < |xs| ==> r[i] == xs[i].GetOr(v)
  {
    seq(|xs|, i requires 0 <= i < |xs| => xs[i].GetOr(v))
  }
}
