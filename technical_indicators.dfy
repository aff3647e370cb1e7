/**
 * The indicator engine used by the multi-timeframe pipelines (the `TechnicalIndicators`
 * class): EMAs, ADX, ATR, SMI and the squeeze momentum indicator, each a series of the
 * same length as the input bars, and `calculate_all_indicators`, which adds them all to a
 * copy of a bar frame.
 */
module TechnicalIndicators {
  import opened Wrappers
  import Ewm
  import Rolling
  import Ols
  import Roots
  import Series
  import Strings
  import opened Frames

  // ---------------------------------------------------------------------------
  // EMA

  /** `close.ewm(span=period, adjust=False).mean()`. */
  function Ema(c: seq<real>, period: nat): (r: seq<Option<real>>)
    requires period >= 1
    ensures |r| == |c|
  {
    Ewm.Mean(Ewm.Lift(c), Ewm.Alpha(period), false)
  }

  /** Every EMA entry exists and follows the recurrence seeded with the first close. */
  lemma EmaIsRecurrence(c: seq<real>, period: nat)
    requires period >= 1
    ensures forall t :: 0 <= t < |c| ==> Ema(c, period)[t] == Some(Ewm.EmaAt(c, Ewm.Alpha(period), t))
  {
    Ewm.NonAdjustedIsEma(c, Ewm.Alpha(period));
  }

  /** The EMA stays within any bounds of the closes seen so far. */
  lemma EmaWithin(c: seq<real>, period: nat, t: nat, lo: real, hi: real)
    requires period >= 1 && t < |c|
    requires forall j :: 0 <= j <= t ==> lo <= c[j] <= hi
    ensures Ema(c, period)[t].Some? && lo <= Ema(c, period)[t].value <= hi
  {
    EmaIsRecurrence(c, period);
    Ewm.MeanWithin(Ewm.Lift(c), Ewm.Alpha(period), false, t, lo, hi);
  }

  /** A constant close has that constant as its EMA. */
  lemma EmaOfConstant(c: seq<real>, period: nat, k: real)
    requires period >= 1
    requires forall j :: 0 <= j < |c| ==> c[j] == k
    ensures forall t :: 0 <= t < |c| ==> Ema(c, period)[t] == Some(k)
  {
    forall t | 0 <= t < |c| ensures Ema(c, period)[t] == Some(k) {
      EmaWithin(c, period, t, k, k);
    }
  }

  // ---------------------------------------------------------------------------
  // ADX (the SMI.py variant)

  /** pandas' `ewm(span=span, adjust=True).mean()`, the "SMMA" of the source. */
  function Smma(xs: seq<Option<real>>, span: nat): (r: seq<Option<real>>)
    requires span >= 1
    ensures |r| == |xs|
  {
    Ewm.Mean(xs, Ewm.Alpha(span), true)
  }

  /** The span used for the true range and the directional movements, whatever the ADX period. */
  const DmSpan: nat := 14

  function PlusDms(h: seq<real>, l: seq<real>): (r: seq<real>)
    requires |h| == |l|
    ensures |r| == |h|
  {
    var up := Series.Diff(h);
    var down := Series.Fall(l);
    seq(|h|, i requires 0 <= i < |h| => Series.PlusDm(up[i], down[i]))
  }

  function MinusDms(h: seq<real>, l: seq<real>): (r: seq<real>)
    requires |h| == |l|
    ensures |r| == |h|
  {
    var up := Series.Diff(h);
    var down := Series.Fall(l);
    seq(|h|, i requires 0 <= i < |h| => Series.MinusDm(up[i], down[i]))
  }

  /** A directional index, 100 * smoothed movement / smoothed true range. */
  function Di(dm: Option<real>, tr: Option<real>): Option<real>
  {
    if dm.Some? then Series.Div(Some(100.0 * dm.value), tr) else None
  }

  /** |+DI - -DI| / (+DI + -DI), dividing by 1 when the sum is 0. */
  function DxRatio(p: Option<real>, m: Option<real>): Option<real>
  {
    if p.None? || m.None? then None
    else
      var s := p.value + m.value;
      if s == 0.0 then Some(Series.Abs(p.value - m.value))
      else Some(Series.Abs(p.value - m.value) / s)
  }

  function SmoothedTrueRange(h: seq<real>, l: seq<real>, c: seq<real>): (r: seq<Option<real>>)
    requires |h| == |l| == |c|
    ensures |r| == |h|
  {
    Smma(Ewm.Lift(Series.TrueRange(h, l, c)), DmSpan)
  }

  /** A directional index series from the raw movements and the smoothed true range. */
  function DiSeries(dm: seq<real>, trs: seq<Option<real>>): (r: seq<Option<real>>)
    requires |trs| == |dm|
    ensures |r| == |dm|
  {
    var s := Smma(Ewm.Lift(dm), DmSpan);
    seq(|dm|, i requires 0 <= i < |dm| => Di(s[i], trs[i]))
  }

  function Ratios(pd: seq<Option<real>>, md: seq<Option<real>>): (r: seq<Option<real>>)
    requires |pd| == |md|
    ensures |r| == |pd|
  {
    seq(|pd|, i requires 0 <= i < |pd| => DxRatio(pd[i], md[i]))
  }

  function DxRatios(h: seq<real>, l: seq<real>, c: seq<real>): (r: seq<Option<real>>)
    requires |h| == |l| == |c|
    ensures |r| == |h|
  {
    var trs := SmoothedTrueRange(h, l, c);
    Ratios(DiSeries(PlusDms(h, l), trs), DiSeries(MinusDms(h, l), trs))
  }

  /** The ADX series: 100 times the SMMA of the DX ratios over `period`. */
  function AdxSeries(h: seq<real>, l: seq<real>, c: seq<real>, period: nat): (r: seq<Option<real>>)
    requires |h| == |l| == |c| && period >= 1
    ensures |r| == |h|
  {
    Series.Scale(100.0, Smma(DxRatios(h, l, c), period))
  }

  /** The first loop of `calculate_adx_smi_style`: per-bar directional movement. */
  method DirectionalMovement(up: seq<real>, down: seq<real>) returns (plus: seq<real>, minus: seq<real>)
    requires |up| == |down|
    ensures |plus| == |up| && |minus| == |up|
    ensures forall j :: 0 <= j < |up| ==> plus[j] == Series.PlusDm(up[j], down[j])
    ensures forall j :: 0 <= j < |up| ==> minus[j] == Series.MinusDm(up[j], down[j])
  {
    plus := [];
    minus := [];
    for i := 0 to |up|
      invariant |plus| == i && |minus| == i
      invariant forall j :: 0 <= j < i ==> plus[j] == Series.PlusDm(up[j], down[j])
      invariant forall j :: 0 <= j < i ==> minus[j] == Series.MinusDm(up[j], down[j])
    {
      if up[i] > down[i] && up[i] > 0.0 {
        plus := plus + [up[i]];
      } else {
        plus := plus + [0.0];
      }
      if down[i] > up[i] && down[i] > 0.0 {
        minus := minus + [down[i]];
      } else {
        minus := minus + [0.0];
      }
    }
  }

  /** The second loop of `calculate_adx_smi_style`: per-bar DX ratio. */
  method DxLoop(pd: seq<Option<real>>, md: seq<Option<real>>) returns (tmp: seq<Option<real>>)
    requires |pd| == |md|
    ensures tmp == Ratios(pd, md)
  {
    tmp := [];
    for i := 0 to |pd|
      invariant |tmp| == i
      invariant forall j :: 0 <= j < i ==> tmp[j] == DxRatio(pd[j], md[j])
    {
      if pd[i].None? || md[i].None? {
        tmp := tmp + [None];
      } else if pd[i].value + md[i].value == 0.0 {
        tmp := tmp + [Some(Series.Abs(pd[i].value - md[i].value) / 1.0)];
      } else {
        tmp := tmp + [Some(Series.Abs(pd[i].value - md[i].value) / (pd[i].value + md[i].value))];
      }
    }
  }

  /** `calculate_adx_smi_style`. */
  method CalculateAdxSmiStyle(h: seq<real>, l: seq<real>, c: seq<real>, period: nat) returns (adx: seq<Option<real>>)
    requires |h| == |l| == |c| && period >= 1
    ensures adx == AdxSeries(h, l, c, period)
  {
    var trs := SmoothedTrueRange(h, l, c);
    var plus, minus := DirectionalMovement(Series.Diff(h), Series.Fall(l));
    assert plus == PlusDms(h, l) && minus == MinusDms(h, l);
    var tmp := DxLoop(DiSeries(plus, trs), DiSeries(minus, trs));
    adx := Series.Scale(100.0, Smma(tmp, period));
  }

  /** Two non-negative indices give a ratio in [0, 1]. */
  lemma DxRatioBounded(p: Option<real>, m: Option<real>)
    requires p.Some? ==> p.value >= 0.0
    requires m.Some? ==> m.value >= 0.0
    ensures DxRatio(p, m).Some? ==> 0.0 <= DxRatio(p, m).value <= 1.0
  {
    if p.Some? && m.Some? && p.value + m.value != 0.0 {
      var s := p.value + m.value;
      Ewm.DivBetween(Series.Abs(p.value - m.value), s, 0.0, 1.0);
    }
  }

  lemma DiNonNegative(dm: Option<real>, tr: Option<real>)
    requires dm.Some? ==> dm.value >= 0.0
    requires tr.Some? ==> tr.value >= 0.0
    ensures Di(dm, tr).Some? ==> Di(dm, tr).value >= 0.0
  {
    if Di(dm, tr).Some? {
      Ewm.DivBetween(100.0 * dm.value, tr.value, 0.0, 100.0 * dm.value / tr.value);
    }
  }

  /** A smoothed series of non-negative values is non-negative where defined. */
  lemma SmmaNonNegative(xs: seq<real>, span: nat, i: nat)
    requires span >= 1 && i < |xs|
    requires forall j :: 0 <= j < |xs| ==> xs[j] >= 0.0
    ensures Smma(Ewm.Lift(xs), span)[i].Some? ==> Smma(Ewm.Lift(xs), span)[i].value >= 0.0
  {
    Ewm.MeanAtLeast(Ewm.Lift(xs), Ewm.Alpha(span), true, i, 0.0);
  }

  lemma DxRatiosBounded(h: seq<real>, l: seq<real>, c: seq<real>)
    requires |h| == |l| == |c| && (|h| > 0 ==> l[0] <= h[0])
    ensures forall i :: 0 <= i < |h| && DxRatios(h, l, c)[i].Some? ==>
      0.0 <= DxRatios(h, l, c)[i].value <= 1.0
  {
    var tr := Series.TrueRange(h, l, c);
    var pl := PlusDms(h, l);
    var mi := MinusDms(h, l);
    var trs := SmoothedTrueRange(h, l, c);
    Series.TrueRangeNonNegative(h, l, c);
    forall j | 0 <= j < |h| ensures pl[j] >= 0.0 && mi[j] >= 0.0 {
      Series.DmExclusive(Series.Diff(h)[j], Series.Fall(l)[j]);
    }
    forall i | 0 <= i < |h| ensures DxRatios(h, l, c)[i].Some? ==> 0.0 <= DxRatios(h, l, c)[i].value <= 1.0 {
      SmmaNonNegative(tr, DmSpan, i);
      SmmaNonNegative(pl, DmSpan, i);
      SmmaNonNegative(mi, DmSpan, i);
      DiNonNegative(Smma(Ewm.Lift(pl), DmSpan)[i], trs[i]);
      DiNonNegative(Smma(Ewm.Lift(mi), DmSpan)[i], trs[i]);
      DxRatioBounded(DiSeries(pl, trs)[i], DiSeries(mi, trs)[i]);
    }
  }

  /** ADX lies in [0, 100] wherever it is defined. */
  lemma AdxBounded(h: seq<real>, l: seq<real>, c: seq<real>, period: nat, i: nat)
    requires |h| == |l| == |c| && period >= 1 && i < |h|
    requires l[0] <= h[0]
    ensures AdxSeries(h, l, c, period)[i].Some? ==> 0.0 <= AdxSeries(h, l, c, period)[i].value <= 100.0
  {
    var dx := DxRatios(h, l, c);
    DxRatiosBounded(h, l, c);
    Ewm.MeanWithin(dx, Ewm.Alpha(period), true, i, 0.0, 1.0);
  }

  /** On bars that never move the true range is 0 throughout, every ratio is 0 / 0, and ADX
      is undefined (NaN) everywhere. */
  lemma AdxOfFlat(h: seq<real>, l: seq<real>, c: seq<real>, period: nat, k: real)
    requires |h| == |l| == |c| && period >= 1
    requires forall j :: 0 <= j < |h| ==> h[j] == k && l[j] == k && c[j] == k
    ensures forall i :: 0 <= i < |h| ==> AdxSeries(h, l, c, period)[i].None?
  {
    var tr := Series.TrueRange(h, l, c);
    var dx := DxRatios(h, l, c);
    forall j | 0 <= j < |h| ensures tr[j] == 0.0 {
      if j > 0 {
        Series.TrueRangeAt(h, l, c, j);
      }
    }
    forall i | 0 <= i < |h| ensures dx[i].None? {
      Ewm.MeanWithin(Ewm.Lift(tr), Ewm.Alpha(DmSpan), true, i, 0.0, 0.0);
    }
    forall i | 0 <= i < |h| ensures AdxSeries(h, l, c, period)[i].None? {
      Ewm.MeanDefined(dx, Ewm.Alpha(period), true, i);
    }
  }

  // ---------------------------------------------------------------------------
  // ATR (the SMI.py variant)

  const AtrWindow: nat := 14

  /** `calculate_atr_smi_style`: the 14-bar mean of the true range, 0 before the first full window. */
  function AtrSmiStyle(h: seq<real>, l: seq<real>, c: seq<real>): (r: seq<real>)
    requires |h| == |l| == |c|
    ensures |r| == |h|
  {
    Series.FillNa(Rolling.RollingMean(Series.TrueRange(h, l, c), AtrWindow), 0.0)
  }

  lemma AtrAt(h: seq<real>, l: seq<real>, c: seq<real>, i: nat)
    requires |h| == |l| == |c| && i < |h|
    ensures i + 1 < AtrWindow ==> AtrSmiStyle(h, l, c)[i] == 0.0
    ensures i + 1 >= AtrWindow ==>
      AtrSmiStyle(h, l, c)[i] == Rolling.Mean(Rolling.Window(Series.TrueRange(h, l, c), i, AtrWindow))
    ensures l[0] <= h[0] ==> AtrSmiStyle(h, l, c)[i] >= 0.0
  {
    var tr := Series.TrueRange(h, l, c);
    if i + 1 >= AtrWindow {
      var w := Rolling.Window(tr, i, AtrWindow);
      if l[0] <= h[0] {
        Series.TrueRangeNonNegative(h, l, c);
        Rolling.MeanBetween(w, 0.0, Rolling.Max(w));
      }
    }
  }

  // ---------------------------------------------------------------------------
  // SMI (the SMI.py variant) and the squeeze momentum source

  /** close - avg(avg(lowest low, highest high), sma(close)), missing while a window is missing. */
  function Centered(c: real, lowest: Option<real>, highest: Option<real>, sma: Option<real>): Option<real>
  {
    if lowest.Some? && highest.Some? && sma.Some? then
      Some(c - ((lowest.value + highest.value) / 2.0 + sma.value) / 2.0)
    else None
  }

  /** The detrended price both momentum indicators regress: defined from the first full window of k bars. */
  function MidSource(h: seq<real>, l: seq<real>, c: seq<real>, k: nat): (r: seq<Option<real>>)
    requires |h| == |l| == |c| && k >= 1
    ensures |r| == |c|
    ensures forall i :: 0 <= i < |c| ==> (r[i].Some? <==> i + 1 >= k)
  {
    var lowest := Rolling.RollingMin(l, k);
    var highest := Rolling.RollingMax(h, k);
    var sma := Rolling.RollingMean(c, k);
    seq(|c|, i requires 0 <= i < |c| => Centered(c[i], lowest[i], highest[i], sma[i]))
  }

  /** Bars whose close lies within their own range. */
  predicate WellFormedBars(h: seq<real>, l: seq<real>, c: seq<real>)
    requires |h| == |l| == |c|
  {
    forall i :: 0 <= i < |c| ==> l[i] <= c[i] <= h[i]
  }

  lemma CenteredBounded(x: real, lo: real, hi: real, sma: real)
    requires lo <= x <= hi && lo <= sma <= hi
    ensures Centered(x, Some(lo), Some(hi), Some(sma)).Some?
    ensures -(hi - lo) <= Centered(x, Some(lo), Some(hi), Some(sma)).value <= hi - lo
  {
  }

  /** The window extremes bracket every close in the window of well-formed bars. */
  lemma WindowBrackets(h: seq<real>, l: seq<real>, c: seq<real>, k: nat, i: nat)
    requires |h| == |l| == |c| && k >= 1 && k <= i + 1 <= |c|
    requires WellFormedBars(h, l, c)
    ensures var lo := Rolling.Min(Rolling.Window(l, i, k));
      var hi := Rolling.Max(Rolling.Window(h, i, k));
      && lo <= c[i] <= hi
      && Rolling.AllBetween(Rolling.Window(c, i, k), lo, hi)
  {
    var wl := Rolling.Window(l, i, k);
    var wh := Rolling.Window(h, i, k);
    var wc := Rolling.Window(c, i, k);
    var lo := Rolling.Min(wl);
    var hi := Rolling.Max(wh);
    forall j | 0 <= j < k ensures lo <= wc[j] <= hi {
      var t := i + 1 - k + j;
      assert wl[j] == l[t] && wh[j] == h[t] && wc[j] == c[t];
    }
    assert wc[k - 1] == c[i];
  }

  /** On well-formed bars the source is at most the window's high-low range away from 0. */
  lemma MidSourceBounded(h: seq<real>, l: seq<real>, c: seq<real>, k: nat, i: nat)
    requires |h| == |l| == |c| && k >= 1 && k <= i + 1 <= |c|
    requires WellFormedBars(h, l, c)
    ensures var spread := Rolling.Max(Rolling.Window(h, i, k)) - Rolling.Min(Rolling.Window(l, i, k));
      -spread <= MidSource(h, l, c, k)[i].value <= spread
  {
    var lo := Rolling.Min(Rolling.Window(l, i, k));
    var hi := Rolling.Max(Rolling.Window(h, i, k));
    var wc := Rolling.Window(c, i, k);
    WindowBrackets(h, l, c, k, i);
    Rolling.MeanBetween(wc, lo, hi);
    assert MidSource(h, l, c, k)[i] == Centered(c[i], Some(lo), Some(hi), Some(Rolling.Mean(wc)));
    CenteredBounded(c[i], lo, hi, Rolling.Mean(wc));
  }

  /** The SMI's source: the detrended price with the missing head filled with 0. */
  function SmiSource(h: seq<real>, l: seq<real>, c: seq<real>, k: nat): (r: seq<real>)
    requires |h| == |l| == |c| && k >= 1
    ensures |r| == |c|
  {
    Series.FillNa(MidSource(h, l, c, k), 0.0)
  }

  /** The SMI of a source series: the least-squares line through the last k entries evaluated
      at the newest one, from index 2k + 1 on; 0 before. */
  function SmiOf(y: seq<real>, k: nat): (r: seq<real>)
    requires k >= 1
    ensures |r| == |y|
  {
    seq(|y|, i requires 0 <= i < |y| => if i > 2 * k then Ols.Linreg(Rolling.Window(y, i, k)) else 0.0)
  }

  function SmiSeries(h: seq<real>, l: seq<real>, c: seq<real>, k: nat): (r: seq<real>)
    requires |h| == |l| == |c| && k >= 1
    ensures |r| == |c|
  {
    SmiOf(SmiSource(h, l, c, k), k)
  }

  function Reverse<T>(xs: seq<T>): (r: seq<T>)
    ensures |r| == |xs| && forall i :: 0 <= i < |xs| ==> r[i] == xs[|xs| - 1 - i]
  {
    seq(|xs|, i requires 0 <= i < |xs| => xs[|xs| - 1 - i])
  }

  /** The loop of `calculate_smi_smi_style`: regressions collected from the newest bar back,
      zero-padded, then reversed into bar order. */
  method RegressBackwards(y: seq<real>, k: nat) returns (smi: seq<real>)
    requires k >= 1
    ensures smi == SmiOf(y, k)
  {
    var n := |y|;
    var smh: seq<real> := [];
    var i: int := n - 1;
    while i > 2 * k
      invariant 2 * k <= i <= n - 1 || i == n - 1
      invariant |smh| == n - 1 - i
      invariant forall q :: 0 <= q < |smh| ==> smh[q] == Ols.Linreg(Rolling.Window(y, n - 1 - q, k))
    {
      smh := smh + [Ols.Linreg(Rolling.Window(y, i, k))];
      i := i - 1;
    }
    var padded := smh + seq(n - |smh|, _ => 0.0);
    smi := Reverse(padded);
    forall q | 0 <= q < n ensures smi[q] == SmiOf(y, k)[q] {
      assert smi[q] == padded[n - 1 - q];
      if q > 2 * k {
        assert padded[n - 1 - q] == smh[n - 1 - q];
      }
    }
  }

  /** `calculate_smi_smi_style`. */
  method CalculateSmiSmiStyle(h: seq<real>, l: seq<real>, c: seq<real>, k: nat) returns (smi: seq<real>)
    requires |h| == |l| == |c| && k >= 1
    ensures smi == SmiSeries(h, l, c, k)
  {
    smi := RegressBackwards(SmiSource(h, l, c, k), k);
  }

  lemma FlatExtremes(xs: seq<real>, v: real)
    requires |xs| > 0 && forall j :: 0 <= j < |xs| ==> xs[j] == v
    ensures Rolling.Min(xs) == v && Rolling.Max(xs) == v
  {
  }

  /** A flat market has a zero source throughout. */
  lemma FlatSource(h: seq<real>, l: seq<real>, c: seq<real>, k: nat, v: real)
    requires |h| == |l| == |c| && k >= 1
    requires forall j :: 0 <= j < |c| ==> h[j] == v && l[j] == v && c[j] == v
    ensures forall i :: 0 <= i < |c| ==> SmiSource(h, l, c, k)[i] == 0.0
  {
    forall i | 0 <= i < |c| && i + 1 >= k ensures MidSource(h, l, c, k)[i].value == 0.0 {
      FlatSourceAt(h, l, c, k, v, i);
    }
  }

  lemma FlatSourceAt(h: seq<real>, l: seq<real>, c: seq<real>, k: nat, v: real, i: nat)
    requires |h| == |l| == |c| && k >= 1 && k <= i + 1 <= |c|
    requires forall j :: 0 <= j < |c| ==> h[j] == v && l[j] == v && c[j] == v
    ensures MidSource(h, l, c, k)[i].value == 0.0
  {
    var wc := Rolling.Window(c, i, k);
    FlatWindow(l, i, k, v);
    FlatWindow(h, i, k, v);
    FlatWindow(c, i, k, v);
    Rolling.MeanBetween(wc, v, v);
    assert MidSource(h, l, c, k)[i] == Centered(c[i], Some(v), Some(v), Some(Rolling.Mean(wc)));
  }

  lemma FlatWindow(xs: seq<real>, i: nat, k: nat, v: real)
    requires 1 <= k <= i + 1 <= |xs| && forall j :: 0 <= j < |xs| ==> xs[j] == v
    ensures Rolling.Min(Rolling.Window(xs, i, k)) == v && Rolling.Max(Rolling.Window(xs, i, k)) == v
    ensures Rolling.AllBetween(Rolling.Window(xs, i, k), v, v)
  {
    var w := Rolling.Window(xs, i, k);
    assert forall j :: 0 <= j < |w| ==> w[j] == xs[i + 1 - k + j];
    FlatExtremes(w, v);
  }

  /** A flat market has a zero SMI throughout. */
  lemma SmiOfFlat(h: seq<real>, l: seq<real>, c: seq<real>, k: nat, v: real)
    requires |h| == |l| == |c| && k >= 1
    requires forall j :: 0 <= j < |c| ==> h[j] == v && l[j] == v && c[j] == v
    ensures forall i :: 0 <= i < |c| ==> SmiSeries(h, l, c, k)[i] == 0.0
  {
    var src := SmiSource(h, l, c, k);
    FlatSource(h, l, c, k, v);
    forall i | 0 <= i < |c| && i > 2 * k ensures SmiOf(src, k)[i] == 0.0 {
      Ols.LinregOfConstant(Rolling.Window(src, i, k), 0.0);
    }
  }

  // ---------------------------------------------------------------------------
  // Squeeze momentum (LazyBear / Pine Script)

  datatype SqueezeState = SqueezeOn | SqueezeOff | NoSqueeze
  {
    function Label(): string
    {
      match this
      case SqueezeOn => "squeeze_on"
      case SqueezeOff => "squeeze_off"
      case NoSqueeze => "no_squeeze"
    }

    /** `_convert_squeeze_state_to_numeric`. */
    function Numeric(): int
    {
      match this
      case SqueezeOn => 1
      case SqueezeOff => -1
      case NoSqueeze => 0
    }
  }

  /** Distinct states carry distinct labels and distinct numbers. */
  lemma StateEncodingsInjective(a: SqueezeState, b: SqueezeState)
    ensures a.Label() == b.Label() ==> a == b
    ensures a.Numeric() == b.Numeric() ==> a == b
  {
    if a != b {
      assert a.Label()[9] != b.Label()[9];
    }
  }

  datatype SqueezeParams = SqueezeParams(bbLength: nat, bbMult: real, kcLength: nat, kcMult: real, useTrueRange: bool)

  /** The parameters `calculate_all_indicators` always passes. */
  const PineSqueeze := SqueezeParams(18, 2.0, 20, 1.5, true)

  /** The Bollinger basis and variance and the Keltner channel at one bar. */
  datatype Bands = Bands(basis: real, variance: real, lowerKc: real, upperKc: real)

  function KcRange(h: seq<real>, l: seq<real>, c: seq<real>, useTrueRange: bool): (r: seq<real>)
    requires |h| == |l| == |c|
    ensures |r| == |c|
  {
    if useTrueRange then Series.TrueRange(h, l, c) else Series.HighLow(h, l)
  }

  /** The bands at bar i, missing while any rolling window is incomplete. */
  function BandsAt(h: seq<real>, l: seq<real>, c: seq<real>, p: SqueezeParams, i: nat): (r: Option<Bands>)
    requires |h| == |l| == |c| && p.bbLength >= 1 && p.kcLength >= 1 && i < |c|
    ensures r.Some? <==> p.bbLength >= 2 && i + 1 >= p.bbLength && i + 1 >= p.kcLength
  {
    var basis := Rolling.RollingMean(c, p.bbLength)[i];
    var variance := Rolling.RollingVariance(c, p.bbLength)[i];
    var ma := Rolling.RollingMean(c, p.kcLength)[i];
    var rangeMa := Rolling.RollingMean(KcRange(h, l, c, p.useTrueRange), p.kcLength)[i];
    if basis.Some? && variance.Some? && ma.Some? && rangeMa.Some? then
      Some(Bands(basis.value, variance.value, ma.value - rangeMa.value * p.kcMult, ma.value + rangeMa.value * p.kcMult))
    else None
  }

  /** Both Bollinger bands inside the Keltner channel: basis - mult*sd > lower_kc and basis + mult*sd < upper_kc. */
  predicate Inside(b: Bands, mult: real)
  {
    Roots.ScaledRootBelow(mult, b.variance, b.basis - b.lowerKc) && Roots.ScaledRootBelow(mult, b.variance, b.upperKc - b.basis)
  }

  /** Both Bollinger bands outside the Keltner channel. */
  predicate Outside(b: Bands, mult: real)
  {
    Roots.ScaledRootAbove(mult, b.variance, b.basis - b.lowerKc) && Roots.ScaledRootAbove(mult, b.variance, b.upperKc - b.basis)
  }

  /** With sd the standard deviation, the square-root-free tests are the source's band comparisons. */
  lemma BandTests(b: Bands, mult: real, sd: real)
    requires sd >= 0.0 && sd * sd == b.variance
    ensures Inside(b, mult) <==> b.basis - mult * sd > b.lowerKc && b.basis + mult * sd < b.upperKc
    ensures Outside(b, mult) <==> b.basis - mult * sd < b.lowerKc && b.basis + mult * sd > b.upperKc
  {
    Roots.RootWitness(mult, sd, b.variance, b.basis - b.lowerKc);
    Roots.RootWitness(mult, sd, b.variance, b.upperKc - b.basis);
  }

  /** The state column: `no_squeeze`, overwritten by `squeeze_on`, then by `squeeze_off`. */
  function SqueezeStates(h: seq<real>, l: seq<real>, c: seq<real>, p: SqueezeParams): (r: seq<SqueezeState>)
    requires |h| == |l| == |c| && p.bbLength >= 1 && p.kcLength >= 1
    ensures |r| == |c|
  {
    seq(|c|, i requires 0 <= i < |c| =>
      var b := BandsAt(h, l, c, p, i);
      if b.Some? && Outside(b.value, p.bbMult) then SqueezeOff
      else if b.Some? && Inside(b.value, p.bbMult) then SqueezeOn
      else NoSqueeze)
  }

  /** A bar is never both in and out of a squeeze, so the overwrite order does not matter, and
      no squeeze is reported before every band exists. */
  lemma SqueezeStateAt(h: seq<real>, l: seq<real>, c: seq<real>, p: SqueezeParams, i: nat)
    requires |h| == |l| == |c| && p.bbLength >= 1 && p.kcLength >= 1 && i < |c|
    ensures var b := BandsAt(h, l, c, p, i);
      && (SqueezeStates(h, l, c, p)[i] == SqueezeOn <==> b.Some? && Inside(b.value, p.bbMult))
      && (SqueezeStates(h, l, c, p)[i] == SqueezeOff <==> b.Some? && Outside(b.value, p.bbMult))
    ensures p.bbLength < 2 || i + 1 < p.bbLength || i + 1 < p.kcLength ==> SqueezeStates(h, l, c, p)[i] == NoSqueeze
  {
    var b := BandsAt(h, l, c, p, i);
    if b.Some? {
      Roots.BelowAboveExclusive(p.bbMult, b.value.variance, b.value.basis - b.value.lowerKc);
    }
  }

  function AllPresent(ys: seq<Option<real>>): bool
  {
    forall j :: 0 <= j < |ys| ==> ys[j].Some?
  }

  function Present(ys: seq<Option<real>>): (r: seq<real>)
    requires AllPresent(ys)
    ensures |r| == |ys| && forall j :: 0 <= j < |ys| ==> ys[j] == Some(r[j])
  {
    seq(|ys|, j requires 0 <= j < |ys| => ys[j].value)
  }

  /** The momentum of a source series: the regression of the last kc entries at x = kc where
      the window holds no NaN, 0 elsewhere. */
  function MomentumOf(src: seq<Option<real>>, kc: nat): (r: seq<real>)
    requires kc >= 1
    ensures |r| == |src|
  {
    seq(|src|, i requires 0 <= i < |src| =>
      if i + 1 >= kc && AllPresent(Rolling.Window(src, i, kc)) then Ols.Linreg(Present(Rolling.Window(src, i, kc)))
      else 0.0)
  }

  function MomentumSeries(h: seq<real>, l: seq<real>, c: seq<real>, kc: nat): (r: seq<real>)
    requires |h| == |l| == |c| && kc >= 1
    ensures |r| == |c|
  {
    MomentumOf(MidSource(h, l, c, kc), kc)
  }

  /** The NaN test leaves the first 2*kc - 2 bars at 0; from there on every window is complete. */
  lemma MomentumAt(h: seq<real>, l: seq<real>, c: seq<real>, kc: nat, i: nat)
    requires |h| == |l| == |c| && kc >= 1 && i < |c|
    ensures i + 2 < 2 * kc ==> MomentumSeries(h, l, c, kc)[i] == 0.0
    ensures i + 2 >= 2 * kc ==>
      && AllPresent(Rolling.Window(MidSource(h, l, c, kc), i, kc))
      && MomentumSeries(h, l, c, kc)[i] == Ols.Linreg(Present(Rolling.Window(MidSource(h, l, c, kc), i, kc)))
  {
    var src := MidSource(h, l, c, kc);
    if i + 1 >= kc {
      var w := Rolling.Window(src, i, kc);
      if i + 2 < 2 * kc {
        assert w[0] == src[i + 1 - kc] && w[0].None?;
      }
    }
  }

  /** The momentum loop of `calculate_squeeze_momentum`. */
  method MomentumLoop(src: seq<Option<real>>, kc: nat) returns (momentum: seq<real>)
    requires kc >= 1
    ensures momentum == MomentumOf(src, kc)
  {
    momentum := [];
    for i := 0 to |src|
      invariant |momentum| == i
      invariant forall j :: 0 <= j < i ==> momentum[j] == MomentumOf(src, kc)[j]
    {
      if i >= kc - 1 {
        var y := src[i - kc + 1..i + 1];
        if |y| == kc && AllPresent(y) {
          momentum := momentum + [Ols.Linreg(Present(y))];
        } else {
          momentum := momentum + [0.0];
        }
      } else {
        momentum := momentum + [0.0];
      }
    }
  }

  /** `calculate_squeeze_momentum`: the momentum loop and the masked state column. */
  method CalculateSqueezeMomentum(h: seq<real>, l: seq<real>, c: seq<real>, p: SqueezeParams)
    returns (momentum: seq<real>, state: seq<SqueezeState>)
    requires |h| == |l| == |c| && p.bbLength >= 1 && p.kcLength >= 1
    ensures momentum == MomentumSeries(h, l, c, p.kcLength)
    ensures state == SqueezeStates(h, l, c, p)
  {
    momentum := MomentumLoop(MidSource(h, l, c, p.kcLength), p.kcLength);
    var on := seq(|c|, i requires 0 <= i < |c| => var b := BandsAt(h, l, c, p, i); b.Some? && Inside(b.value, p.bbMult));
    var off := seq(|c|, i requires 0 <= i < |c| => var b := BandsAt(h, l, c, p, i); b.Some? && Outside(b.value, p.bbMult));
    state := seq(|c|, _ => NoSqueeze);
    state := seq(|c|, i requires 0 <= i < |c| => if on[i] then SqueezeOn else state[i]);
    state := seq(|c|, i requires 0 <= i < |c| => if off[i] then SqueezeOff else state[i]);
  }

  // ---------------------------------------------------------------------------
  // calculate_all_indicators

  /** What the indicators read: an `open` column and numeric `high`, `low` and `close`. */
  predicate IsBarFrame(df: Frame)
  {
    df.Valid() && "open" in df.cols && df.HasNumeric("high") && df.HasNumeric("low") && df.HasNumeric("close")
  }

  function High(df: Frame): (r: seq<real>)
    requires IsBarFrame(df)
    ensures |r| == df.height
  {
    Values(df.cols["high"])
  }

  function Low(df: Frame): (r: seq<real>)
    requires IsBarFrame(df)
    ensures |r| == df.height
  {
    Values(df.cols["low"])
  }

  function Close(df: Frame): (r: seq<real>)
    requires IsBarFrame(df)
    ensures |r| == df.height
  {
    Values(df.cols["close"])
  }

  /** The column name `ema{period}`. */
  function EmaName(p: nat): (n: string)
    ensures |n| > 3 && n[..3] == "ema"
  {
    "ema" + Strings.NatToString(p)
  }

  const DefaultEmaPeriods: seq<nat> := [10, 55, 200]

  /** The default EMA columns are `ema10`, `ema55` and `ema200`. */
  lemma DefaultEmaNames()
    ensures EmaName(10) == "ema10" && EmaName(55) == "ema55" && EmaName(200) == "ema200"
  {
    assert Strings.DigitCount(10) == 2 && Strings.DigitCount(55) == 2 && Strings.DigitCount(200) == 3;
    assert Strings.NatToString(10) == "10";
    assert Strings.NatToString(55) == "55";
    assert Strings.NatToString(200) == "200";
  }

  function EmaPeriods(periods: Option<seq<nat>>): seq<nat>
  {
    periods.GetOr(DefaultEmaPeriods)
  }

  predicate PositivePeriods(ps: seq<nat>)
  {
    forall j :: 0 <= j < |ps| ==> ps[j] >= 1
  }

  /** The columns the indicators add after the EMAs, in order. */
  const IndicatorNames: seq<string> :=
    ["adx", "atr", "smi", "squeeze_momentum", "squeeze_state", "squeeze_state_numeric"]

  function EmaNames(ps: seq<nat>): (r: seq<string>)
    ensures |r| == |ps| && forall j :: 0 <= j < |ps| ==> r[j] == EmaName(ps[j])
  {
    seq(|ps|, j requires 0 <= j < |ps| => EmaName(ps[j]))
  }

  function EmaColumns(c: seq<real>, ps: seq<nat>): (r: seq<seq<Cell>>)
    requires PositivePeriods(ps)
    ensures |r| == |ps| && forall j :: 0 <= j < |ps| ==> r[j] == Opts(Ema(c, ps[j]))
  {
    seq(|ps|, j requires 0 <= j < |ps| => Opts(Ema(c, ps[j])))
  }

  lemma EmaNameInjective(p: nat, q: nat)
    requires EmaName(p) == EmaName(q)
    ensures p == q
  {
    var a := Strings.NatToString(p);
    var b := Strings.NatToString(q);
    assert a == EmaName(p)[3..] && b == EmaName(q)[3..];
    Strings.NatToStringInjective(p, q);
  }

  function Labels(st: seq<SqueezeState>): (r: seq<Cell>)
    ensures |r| == |st| && forall i :: 0 <= i < |st| ==> r[i] == Text(st[i].Label())
  {
    seq(|st|, i requires 0 <= i < |st| => Text(st[i].Label()))
  }

  function StateNumbers(st: seq<SqueezeState>): (r: seq<Cell>)
    ensures |r| == |st| && forall i :: 0 <= i < |st| ==> r[i] == Num(st[i].Numeric() as real)
  {
    seq(|st|, i requires 0 <= i < |st| => Num(st[i].Numeric() as real))
  }

  /** The columns `calculate_all_indicators` assigns, in order. */
  function AddedNames(ps: seq<nat>): (r: seq<string>)
    ensures |r| == |ps| + |IndicatorNames|
    ensures forall j :: 0 <= j < |ps| ==> r[j] == EmaName(ps[j])
    ensures forall j :: 0 <= j < |IndicatorNames| ==> r[|ps| + j] == IndicatorNames[j]
  {
    EmaNames(ps) + IndicatorNames
  }

  /** The values assigned to `AddedNames(ps)`. The squeeze always uses the Pine Script
      parameters, whatever is passed. */
  function AddedColumns(h: seq<real>, l: seq<real>, c: seq<real>, ps: seq<nat>, adxPeriod: nat, smiPeriod: nat): (r: seq<seq<Cell>>)
    requires |h| == |l| == |c| && adxPeriod >= 1 && smiPeriod >= 1 && PositivePeriods(ps)
    ensures |r| == |ps| + |IndicatorNames| && forall j :: 0 <= j < |r| ==> |r[j]| == |c|
    ensures forall j :: 0 <= j < |ps| ==> r[j] == Opts(Ema(c, ps[j]))
    ensures forall j :: 0 <= j < |IndicatorNames| ==> r[|ps| + j] == OtherColumns(h, l, c, adxPeriod, smiPeriod)[j]
  {
    EmaColumns(c, ps) + OtherColumns(h, l, c, adxPeriod, smiPeriod)
  }

  /** The columns assigned after the EMAs. */
  function OtherColumns(h: seq<real>, l: seq<real>, c: seq<real>, adxPeriod: nat, smiPeriod: nat): (r: seq<seq<Cell>>)
    requires |h| == |l| == |c| && adxPeriod >= 1 && smiPeriod >= 1
    ensures |r| == |IndicatorNames| && forall j :: 0 <= j < |r| ==> |r[j]| == |c|
  {
    var st := SqueezeStates(h, l, c, PineSqueeze);
    [ Opts(AdxSeries(h, l, c, adxPeriod)),
      Nums(AtrSmiStyle(h, l, c)),
      Nums(SmiSeries(h, l, c, smiPeriod)),
      Nums(MomentumSeries(h, l, c, PineSqueeze.kcLength)),
      Labels(st),
      StateNumbers(st) ]
  }

  /** The frame `calculate_all_indicators` returns. */
  function IndicatorFrame(df: Frame, emaPeriods: Option<seq<nat>>, adxPeriod: nat, smiPeriod: nat): (r: Frame)
    requires IsBarFrame(df) && adxPeriod >= 1 && smiPeriod >= 1 && PositivePeriods(EmaPeriods(emaPeriods))
    ensures r.Valid() && r.height == df.height
    ensures forall n :: n in r.cols <==> n in df.cols || n in AddedNames(EmaPeriods(emaPeriods))
  {
    var ps := EmaPeriods(emaPeriods);
    AddColumns(df, AddedNames(ps), AddedColumns(High(df), Low(df), Close(df), ps, adxPeriod, smiPeriod))
  }

  /** A name that does not start with "ema" and is not one of the fixed indicator names. */
  predicate Unassigned(n: string)
  {
    (|n| < 3 || n[..3] != "ema") && n !in IndicatorNames
  }

  lemma FixedNamesDistinct()
    ensures Distinct(IndicatorNames)
    ensures forall j :: 0 <= j < |IndicatorNames| ==> IndicatorNames[j][..3] != "ema"
  {
    var ns := IndicatorNames;
    assert ns[0][0] == 'a' && ns[1][0] == 'a' && ns[2][0] == 's' && ns[3][0] == 's' && ns[4][0] == 's' && ns[5][0] == 's';
    assert ns[0][1] == 'd' && ns[1][1] == 't' && ns[2][1] == 'm' && ns[3][1] == 'q';
    assert |ns[3]| == 16 && |ns[4]| == 13 && |ns[5]| == 21;
  }

  /** Two positions of `AddedNames(ps)` with the same name are EMAs of the same period. */
  lemma NamesCollide(ps: seq<nat>, i: nat, j: nat)
    requires i < |AddedNames(ps)| && j < |AddedNames(ps)| && AddedNames(ps)[i] == AddedNames(ps)[j]
    ensures i == j || (i < |ps| && j < |ps| && ps[i] == ps[j])
  {
    var names := AddedNames(ps);
    var k := |ps|;
    FixedNamesDistinct();
    if i < k && j < k {
      EmaNameInjective(ps[i], ps[j]);
    } else if i >= k && j >= k {
      assert names[i] == IndicatorNames[i - k] && names[j] == IndicatorNames[j - k];
    }
  }

  /** Assigning `AddedNames(ps)` keeps every input column it does not name, and each
      assigned name holds its column, as long as equal periods get equal EMA columns. */
  lemma Assigned(df: Frame, ps: seq<nat>, cols: seq<seq<Cell>>)
    requires df.Valid() && |cols| == |ps| + |IndicatorNames|
    requires forall j :: 0 <= j < |cols| ==> |cols[j]| == df.height
    requires forall i, j :: 0 <= i < |ps| && 0 <= j < |ps| && ps[i] == ps[j] ==> cols[i] == cols[j]
    ensures var names := AddedNames(ps);
      var r := AddColumns(df, names, cols);
      && (forall n :: n in r.cols <==> n in df.cols || n in names)
      && (forall n :: n in df.cols && n !in names ==> r.cols[n] == df.cols[n])
      && (forall j :: 0 <= j < |names| ==> r.cols[names[j]] == cols[j])
  {
    var names := AddedNames(ps);
    forall i, j | 0 <= i < |names| && 0 <= j < |names| && names[i] == names[j] ensures cols[i] == cols[j] {
      NamesCollide(ps, i, j);
    }
    forall n | n in df.cols && n !in names ensures AddColumns(df, names, cols).cols[n] == df.cols[n] {
      AddColumnsKeeps(df, names, cols, n);
    }
    forall j | 0 <= j < |names| ensures AddColumns(df, names, cols).cols[names[j]] == cols[j] {
      AddColumnsHolds(df, names, cols, j);
    }
  }

  /** An unassigned name is not among `AddedNames(ps)`. */
  lemma UnassignedNotAdded(ps: seq<nat>, n: string)
    requires Unassigned(n)
    ensures n !in AddedNames(ps)
  {
    var names := AddedNames(ps);
    forall j | 0 <= j < |names| ensures names[j] != n {
      if j < |ps| {
        assert names[j][..3] == "ema";
      } else {
        assert names[j] == IndicatorNames[j - |ps|];
      }
    }
  }

  /** Each EMA period's column holds that EMA of the close. */
  lemma IndicatorEma(df: Frame, emaPeriods: Option<seq<nat>>, adxPeriod: nat, smiPeriod: nat, j: nat)
    requires IsBarFrame(df) && adxPeriod >= 1 && smiPeriod >= 1 && PositivePeriods(EmaPeriods(emaPeriods))
    requires j < |EmaPeriods(emaPeriods)|
    ensures var p := EmaPeriods(emaPeriods)[j];
      var r := IndicatorFrame(df, emaPeriods, adxPeriod, smiPeriod);
      EmaName(p) in r.cols && r.cols[EmaName(p)] == Opts(Ema(Close(df), p))
  {
    var ps := EmaPeriods(emaPeriods);
    var cols := AddedColumns(High(df), Low(df), Close(df), ps, adxPeriod, smiPeriod);
    Assigned(df, ps, cols);
    assert AddedNames(ps)[j] == EmaName(ps[j]);
  }

  /** The indicator names after the EMAs hold the columns of `OtherColumns`. */
  lemma IndicatorOthers(df: Frame, emaPeriods: Option<seq<nat>>, adxPeriod: nat, smiPeriod: nat, j: nat)
    requires IsBarFrame(df) && adxPeriod >= 1 && smiPeriod >= 1 && PositivePeriods(EmaPeriods(emaPeriods))
    requires j < |IndicatorNames|
    ensures var r := IndicatorFrame(df, emaPeriods, adxPeriod, smiPeriod);
      IndicatorNames[j] in r.cols && r.cols[IndicatorNames[j]] == OtherColumns(High(df), Low(df), Close(df), adxPeriod, smiPeriod)[j]
  {
    var ps := EmaPeriods(emaPeriods);
    AssignedOther(df, ps, AddedColumns(High(df), Low(df), Close(df), ps, adxPeriod, smiPeriod), j);
  }

  lemma AssignedOther(df: Frame, ps: seq<nat>, cols: seq<seq<Cell>>, j: nat)
    requires df.Valid() && |cols| == |ps| + |IndicatorNames| && j < |IndicatorNames|
    requires forall i :: 0 <= i < |cols| ==> |cols[i]| == df.height
    requires forall i, k :: 0 <= i < |ps| && 0 <= k < |ps| && ps[i] == ps[k] ==> cols[i] == cols[k]
    ensures var r := AddColumns(df, AddedNames(ps), cols);
      IndicatorNames[j] in r.cols && r.cols[IndicatorNames[j]] == cols[|ps| + j]
  {
    Assigned(df, ps, cols);
    assert AddedNames(ps)[|ps| + j] == IndicatorNames[j];
  }

  /** Input columns such as the bars, `date` and `timestamp` are never overwritten. */
  lemma IndicatorKeeps(df: Frame, emaPeriods: Option<seq<nat>>, adxPeriod: nat, smiPeriod: nat, n: string)
    requires IsBarFrame(df) && adxPeriod >= 1 && smiPeriod >= 1 && PositivePeriods(EmaPeriods(emaPeriods))
    requires n in df.cols && Unassigned(n)
    ensures var r := IndicatorFrame(df, emaPeriods, adxPeriod, smiPeriod);
      n in r.cols && r.cols[n] == df.cols[n]
  {
    var ps := EmaPeriods(emaPeriods);
    UnassignedNotAdded(ps, n);
    AddColumnsKeeps(df, AddedNames(ps), AddedColumns(High(df), Low(df), Close(df), ps, adxPeriod, smiPeriod), n);
  }

  /** A name of another length than the fixed ones, not starting with 'e', is not assigned. */
  lemma UnassignedByShape(n: string)
    requires |n| >= 3 && n[0] != 'e' && |n| !in {3, 13, 16, 21}
    ensures Unassigned(n)
  {
    assert n[..3][0] == n[0];
    var ns := IndicatorNames;
    assert |ns[0]| == 3 && |ns[1]| == 3 && |ns[2]| == 3 && |ns[3]| == 16 && |ns[4]| == 13 && |ns[5]| == 21;
  }

  /** The bar and time columns are not indicator names. */
  lemma BarNamesUnassigned()
    ensures Unassigned("open") && Unassigned("high") && Unassigned("low") && Unassigned("close")
    ensures Unassigned("volume") && Unassigned("date") && Unassigned("timestamp")
  {
    UnassignedByShape("open");
    UnassignedByShape("high");
    UnassignedByShape("close");
    UnassignedByShape("volume");
    UnassignedByShape("date");
    UnassignedByShape("timestamp");
    var ns := IndicatorNames;
    assert "low"[..3] == "low" && "low"[0] == 'l' && ns[0][0] == 'a' && ns[1][0] == 'a' && ns[2][0] == 's';
  }

  /** Each EMA column, in the source's loop over the periods. */
  method EmaLoop(c: seq<real>, ps: seq<nat>) returns (cols: seq<seq<Cell>>)
    requires PositivePeriods(ps)
    ensures cols == EmaColumns(c, ps)
  {
    cols := [];
    for j := 0 to |ps|
      invariant cols == EmaColumns(c, ps[..j])
    {
      cols := cols + [Opts(Ema(c, ps[j]))];
    }
    assert ps[..|ps|] == ps;
  }

  /** The indicator calls after the EMA loop, in the source's order. */
  method OtherIndicators(h: seq<real>, l: seq<real>, c: seq<real>, adxPeriod: nat, smiPeriod: nat)
    returns (others: seq<seq<Cell>>)
    requires |h| == |l| == |c| && adxPeriod >= 1 && smiPeriod >= 1
    ensures others == OtherColumns(h, l, c, adxPeriod, smiPeriod)
  {
    var adx := CalculateAdxSmiStyle(h, l, c, adxPeriod);
    var atr := AtrSmiStyle(h, l, c);
    var smi := CalculateSmiSmiStyle(h, l, c, smiPeriod);
    var momentum, state := CalculateSqueezeMomentum(h, l, c, PineSqueeze);
    others := [Opts(adx), Nums(atr), Nums(smi), Nums(momentum), Labels(state), StateNumbers(state)];
  }

  /**
   * `calculate_all_indicators`: a copy of the bars with every indicator column added.
   * `atrPeriod` is only logged and the squeeze call uses its own fixed parameters, so the
   * result depends on neither `atrPeriod` nor the Bollinger/Keltner arguments.
   */
  method CalculateAllIndicators(df: Frame, emaPeriods: Option<seq<nat>>, adxPeriod: nat,
                                atrPeriod: nat, smiPeriod: nat, bbLength: nat, bbMult: real,
                                kcLength: nat, kcMult: real, useTrueRange: bool)
    returns (r: Frame)
    requires IsBarFrame(df) && adxPeriod >= 1 && smiPeriod >= 1 && PositivePeriods(EmaPeriods(emaPeriods))
    ensures r == IndicatorFrame(df, emaPeriods, adxPeriod, smiPeriod)
  {
    var periods := if emaPeriods.None? then DefaultEmaPeriods else emaPeriods.value;
    var h, l, c := High(df), Low(df), Close(df);
    var emas := EmaLoop(c, periods);
    var others := OtherIndicators(h, l, c, adxPeriod, smiPeriod);
    r := AssignColumns(df, AddedNames(periods), emas + others);
  }
}
