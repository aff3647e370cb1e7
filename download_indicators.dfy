/**
 * The indicator variants of the download script: a non-adjusted EMA smoothing of the true
 * range, the directional movements and DX; a Bollinger/Keltner squeeze test with plain
 * high - low as the Keltner width and a four-bar momentum; and the `ema_cross` and
 * `price_vs_ema55` columns. `calculate_adx` and `calculate_squeeze_momentum` write every
 * intermediate series into the frame they are given, which is modelled by `Table`.
 */
module DownloadIndicators {
  import opened Wrappers
  import opened Frames
  import Ewm
  import Rolling
  import Series
  import Roots
  import TI = TechnicalIndicators

  /** `series.ewm(span=period, adjust=False).mean()`. */
  function Smooth(xs: seq<Option<real>>, period: nat): (r: seq<Option<real>>)
    requires period >= 1
    ensures |r| == |xs|
  {
    Ewm.Mean(xs, Ewm.Alpha(period), false)
  }

  // ---------------------------------------------------------------------------
  // calculate_adx

  /** `np.maximum` of high - low and the two distances to the previous close; NaN on the
      first bar, where the previous close is missing and `np.maximum` propagates it. */
  function TrueRanges(h: seq<real>, l: seq<real>, c: seq<real>): (r: seq<Option<real>>)
    requires |h| == |l| == |c|
    ensures |r| == |h|
    ensures forall i :: 0 <= i < |h| ==> (r[i].Some? <==> i >= 1)
  {
    var tr := Series.TrueRange(h, l, c);
    seq(|h|, i requires 0 <= i < |h| => if i == 0 then None else Some(tr[i]))
  }

  /** From the second bar on, the true range is the largest of the three distances. */
  lemma TrueRangesAt(h: seq<real>, l: seq<real>, c: seq<real>, i: nat)
    requires |h| == |l| == |c| && 1 <= i < |h|
    ensures var t := TrueRanges(h, l, c)[i].value;
      && h[i] - l[i] <= t && Series.Abs(h[i] - c[i - 1]) <= t && Series.Abs(l[i] - c[i - 1]) <= t
      && (t == h[i] - l[i] || t == Series.Abs(h[i] - c[i - 1]) || t == Series.Abs(l[i] - c[i - 1]))
      && t >= 0.0
  {
    Series.TrueRangeAt(h, l, c, i);
  }

  /** `high - high.shift(1)`: missing on the first bar. */
  function Ups(h: seq<real>): (r: seq<Option<real>>)
    ensures |r| == |h|
  {
    seq(|h|, i requires 0 <= i < |h| => if i == 0 then None else Some(h[i] - h[i - 1]))
  }

  /** `low.shift(1) - low`: missing on the first bar. */
  function Downs(l: seq<real>): (r: seq<Option<real>>)
    ensures |r| == |l|
  {
    seq(|l|, i requires 0 <= i < |l| => if i == 0 then None else Some(l[i - 1] - l[i]))
  }

  /** `np.where(a > b, np.maximum(a, 0), 0)`: a comparison with NaN is false. */
  function WhereMove(a: Option<real>, b: Option<real>): real
  {
    if a.Some? && b.Some? && a.value > b.value then (if a.value > 0.0 then a.value else 0.0) else 0.0
  }

  function PlusDmColumn(h: seq<real>, l: seq<real>): (r: seq<real>)
    requires |h| == |l|
    ensures |r| == |h|
  {
    var up := Ups(h);
    var down := Downs(l);
    seq(|h|, i requires 0 <= i < |h| => WhereMove(up[i], down[i]))
  }

  function MinusDmColumn(h: seq<real>, l: seq<real>): (r: seq<real>)
    requires |h| == |l|
    ensures |r| == |h|
  {
    var up := Ups(h);
    var down := Downs(l);
    seq(|h|, i requires 0 <= i < |h| => WhereMove(down[i], up[i]))
  }

  /** The `np.where` form of the directional movements equals the rule of the main indicator
      module, where the first bar's movements are 0. */
  lemma DmAgree(h: seq<real>, l: seq<real>)
    requires |h| == |l|
    ensures PlusDmColumn(h, l) == TI.PlusDms(h, l)
    ensures MinusDmColumn(h, l) == TI.MinusDms(h, l)
  {
    var up := Series.Diff(h);
    var down := Series.Fall(l);
    forall i | 0 <= i < |h|
      ensures PlusDmColumn(h, l)[i] == TI.PlusDms(h, l)[i]
      ensures MinusDmColumn(h, l)[i] == TI.MinusDms(h, l)[i]
    {
      if i == 0 {
        assert up[0] == 0.0 && down[0] == 0.0;
      }
    }
  }

  /** Both movements are never negative, never both positive, and both 0 on the first bar. */
  lemma DmFacts(h: seq<real>, l: seq<real>, i: nat)
    requires |h| == |l| && i < |h|
    ensures PlusDmColumn(h, l)[i] >= 0.0 && MinusDmColumn(h, l)[i] >= 0.0
    ensures PlusDmColumn(h, l)[i] == 0.0 || MinusDmColumn(h, l)[i] == 0.0
    ensures i == 0 ==> PlusDmColumn(h, l)[i] == 0.0 && MinusDmColumn(h, l)[i] == 0.0
  {
    var up := Ups(h);
    var down := Downs(l);
    assert PlusDmColumn(h, l)[i] == WhereMove(up[i], down[i]);
    assert MinusDmColumn(h, l)[i] == WhereMove(down[i], up[i]);
  }

  function TrSmooth(h: seq<real>, l: seq<real>, c: seq<real>, period: nat): (r: seq<Option<real>>)
    requires |h| == |l| == |c| && period >= 1
    ensures |r| == |h|
  {
    Smooth(TrueRanges(h, l, c), period)
  }

  function PlusSmooth(h: seq<real>, l: seq<real>, period: nat): (r: seq<Option<real>>)
    requires |h| == |l| && period >= 1
    ensures |r| == |h|
  {
    Smooth(Ewm.Lift(PlusDmColumn(h, l)), period)
  }

  function MinusSmooth(h: seq<real>, l: seq<real>, period: nat): (r: seq<Option<real>>)
    requires |h| == |l| && period >= 1
    ensures |r| == |h|
  {
    Smooth(Ewm.Lift(MinusDmColumn(h, l)), period)
  }

  /** The smoothed movements follow the EMA recurrence seeded with the first movement, 0. */
  lemma DmSmoothIsEma(h: seq<real>, l: seq<real>, period: nat)
    requires |h| == |l| && period >= 1
    ensures forall t :: 0 <= t < |h| ==>
      PlusSmooth(h, l, period)[t] == Some(Ewm.EmaAt(PlusDmColumn(h, l), Ewm.Alpha(period), t))
    ensures forall t :: 0 <= t < |h| ==>
      MinusSmooth(h, l, period)[t] == Some(Ewm.EmaAt(MinusDmColumn(h, l), Ewm.Alpha(period), t))
  {
    Ewm.NonAdjustedIsEma(PlusDmColumn(h, l), Ewm.Alpha(period));
    Ewm.NonAdjustedIsEma(MinusDmColumn(h, l), Ewm.Alpha(period));
  }

  /** `100 * (dm_smooth / tr_smooth)`; a zero smoothed true range gives no value. */
  function DiOf(dm: Option<real>, tr: Option<real>): (r: Option<real>)
    ensures r.Some? <==> dm.Some? && tr.Some? && tr.value != 0.0
    ensures r.Some? ==> r.value * tr.value == 100.0 * dm.value
  {
    var q := Series.Div(dm, tr);
    if q.Some? then Some(100.0 * q.value) else None
  }

  function DiSeries(dms: seq<Option<real>>, trs: seq<Option<real>>): (r: seq<Option<real>>)
    requires |dms| == |trs|
    ensures |r| == |dms|
  {
    seq(|dms|, i requires 0 <= i < |dms| => DiOf(dms[i], trs[i]))
  }

  function PlusDi(h: seq<real>, l: seq<real>, c: seq<real>, period: nat): (r: seq<Option<real>>)
    requires |h| == |l| == |c| && period >= 1
    ensures |r| == |h|
  {
    DiSeries(PlusSmooth(h, l, period), TrSmooth(h, l, c, period))
  }

  function MinusDi(h: seq<real>, l: seq<real>, c: seq<real>, period: nat): (r: seq<Option<real>>)
    requires |h| == |l| == |c| && period >= 1
    ensures |r| == |h|
  {
    DiSeries(MinusSmooth(h, l, period), TrSmooth(h, l, c, period))
  }

  /** `100 * abs(p - m) / (p + m)`, missing when either index is, or when the sum is 0. */
  function Dx(p: Option<real>, m: Option<real>): (r: Option<real>)
    ensures r.Some? <==> p.Some? && m.Some? && p.value + m.value != 0.0
    ensures r.Some? ==> r.value * (p.value + m.value) == 100.0 * Series.Abs(p.value - m.value)
  {
    if p.Some? && m.Some? && p.value + m.value != 0.0 then
      Some(100.0 * Series.Abs(p.value - m.value) / (p.value + m.value))
    else None
  }

  function DxSeries(h: seq<real>, l: seq<real>, c: seq<real>, period: nat): (r: seq<Option<real>>)
    requires |h| == |l| == |c| && period >= 1
    ensures |r| == |h|
  {
    var p := PlusDi(h, l, c, period);
    var m := MinusDi(h, l, c, period);
    seq(|h|, i requires 0 <= i < |h| => Dx(p[i], m[i]))
  }

  /** The ADX this script stores: DX smoothed once more with the same span. */
  function AdxOf(h: seq<real>, l: seq<real>, c: seq<real>, period: nat): (r: seq<Option<real>>)
    requires |h| == |l| == |c| && period >= 1
    ensures |r| == |h|
  {
    Smooth(DxSeries(h, l, c, period), period)
  }

  /** The smoothed true range is never negative. */
  lemma TrSmoothNonNegative(h: seq<real>, l: seq<real>, c: seq<real>, period: nat, i: nat)
    requires |h| == |l| == |c| && period >= 1 && i < |h|
    ensures TrSmooth(h, l, c, period)[i].Some? ==> TrSmooth(h, l, c, period)[i].value >= 0.0
  {
    var tr := TrueRanges(h, l, c);
    forall j | 0 <= j < i + 1 && tr[j].Some? ensures 0.0 <= tr[j].value {
      TrueRangesAt(h, l, c, j);
    }
    Ewm.MeanAtLeast(tr, Ewm.Alpha(period), false, i, 0.0);
  }

  lemma DiNonNegative(dm: Option<real>, tr: Option<real>)
    requires dm.Some? ==> dm.value >= 0.0
    requires tr.Some? ==> tr.value >= 0.0
    ensures DiOf(dm, tr).Some? ==> DiOf(dm, tr).value >= 0.0
  {
    if DiOf(dm, tr).Some? {
      Ewm.NonNegProduct(100.0, dm.value);
    }
  }

  /** Both directional indices are never negative. */
  lemma DisNonNegative(h: seq<real>, l: seq<real>, c: seq<real>, period: nat, i: nat)
    requires |h| == |l| == |c| && period >= 1 && i < |h|
    ensures PlusDi(h, l, c, period)[i].Some? ==> PlusDi(h, l, c, period)[i].value >= 0.0
    ensures MinusDi(h, l, c, period)[i].Some? ==> MinusDi(h, l, c, period)[i].value >= 0.0
  {
    var pm := Ewm.Lift(PlusDmColumn(h, l));
    var mm := Ewm.Lift(MinusDmColumn(h, l));
    forall j | 0 <= j < i + 1 ensures pm[j].value >= 0.0 && mm[j].value >= 0.0 {
      DmFacts(h, l, j);
    }
    Ewm.MeanAtLeast(pm, Ewm.Alpha(period), false, i, 0.0);
    Ewm.MeanAtLeast(mm, Ewm.Alpha(period), false, i, 0.0);
    TrSmoothNonNegative(h, l, c, period, i);
    DiNonNegative(PlusSmooth(h, l, period)[i], TrSmooth(h, l, c, period)[i]);
    DiNonNegative(MinusSmooth(h, l, period)[i], TrSmooth(h, l, c, period)[i]);
  }

  /** DX of two non-negative indices lies in [0, 100]. */
  lemma DxBounded(p: Option<real>, m: Option<real>)
    requires p.Some? ==> p.value >= 0.0
    requires m.Some? ==> m.value >= 0.0
    ensures Dx(p, m).Some? ==> 0.0 <= Dx(p, m).value <= 100.0
  {
    if Dx(p, m).Some? {
      var s := p.value + m.value;
      var a := 100.0 * Series.Abs(p.value - m.value);
      assert 0.0 <= a <= 100.0 * s;
      Ewm.DivBetween(a, s, 0.0, 100.0);
    }
  }

  /** Every ADX value this script produces lies in [0, 100]. */
  lemma AdxBounded(h: seq<real>, l: seq<real>, c: seq<real>, period: nat, i: nat)
    requires |h| == |l| == |c| && period >= 1 && i < |h|
    ensures AdxOf(h, l, c, period)[i].Some? ==> 0.0 <= AdxOf(h, l, c, period)[i].value <= 100.0
  {
    var dx := DxSeries(h, l, c, period);
    forall j | 0 <= j < i + 1 && dx[j].Some? ensures 0.0 <= dx[j].value <= 100.0 {
      DisNonNegative(h, l, c, period, j);
      DxBounded(PlusDi(h, l, c, period)[j], MinusDi(h, l, c, period)[j]);
    }
    Ewm.MeanWithin(dx, Ewm.Alpha(period), false, i, 0.0, 100.0);
  }

  /** The columns `calculate_adx` writes, in order. */
  const AdxNames: seq<string> :=
    ["tr", "plus_dm", "minus_dm", "tr_smooth", "plus_dm_smooth", "minus_dm_smooth", "plus_di", "minus_di", "dx", "adx"]

  function AdxColumns(h: seq<real>, l: seq<real>, c: seq<real>, period: nat): (r: seq<seq<Cell>>)
    requires |h| == |l| == |c| && period >= 1
    ensures |r| == |AdxNames| && forall j :: 0 <= j < |r| ==> |r[j]| == |h|
    ensures r[|r| - 1] == Opts(AdxOf(h, l, c, period))
  {
    [ Opts(TrueRanges(h, l, c)),
      Nums(PlusDmColumn(h, l)),
      Nums(MinusDmColumn(h, l)),
      Opts(TrSmooth(h, l, c, period)),
      Opts(PlusSmooth(h, l, period)),
      Opts(MinusSmooth(h, l, period)),
      Opts(PlusDi(h, l, c, period)),
      Opts(MinusDi(h, l, c, period)),
      Opts(DxSeries(h, l, c, period)),
      Opts(AdxOf(h, l, c, period)) ]
  }

  // ---------------------------------------------------------------------------
  // calculate_squeeze_momentum

  /** The script's defaults: 20-bar bands two deviations wide, a 20-bar channel 1.5 ranges wide. */
  datatype BandParams = BandParams(bbPeriod: nat, bbStd: real, kcPeriod: nat, kcMult: real)

  const DefaultBands := BandParams(20, 2.0, 20, 1.5)

  predicate ValidParams(p: BandParams)
  {
    p.bbPeriod >= 1 && p.kcPeriod >= 1
  }

  /** The Bollinger basis and variance and the Keltner channel at bar i, missing while a
      window is incomplete. The channel is kc_middle -/+ kc_mult * mean(high - low). */
  function BandsAt(h: seq<real>, l: seq<real>, c: seq<real>, p: BandParams, i: nat): (r: Option<TI.Bands>)
    requires |h| == |l| == |c| && ValidParams(p) && i < |c|
    ensures r.Some? <==> p.bbPeriod >= 2 && i + 1 >= p.bbPeriod && i + 1 >= p.kcPeriod
  {
    var basis := Rolling.RollingMean(c, p.bbPeriod)[i];
    var variance := Rolling.RollingVariance(c, p.bbPeriod)[i];
    var middle := Rolling.RollingMean(c, p.kcPeriod)[i];
    var width := Rolling.RollingMean(Series.HighLow(h, l), p.kcPeriod)[i];
    if basis.Some? && variance.Some? && middle.Some? && width.Some? then
      Some(TI.Bands(basis.value, variance.value, middle.value - p.kcMult * width.value, middle.value + p.kcMult * width.value))
    else None
  }

  /** The channel is as wide as 2 * kc_mult times the mean high - low range of the window. */
  lemma KeltnerWidth(h: seq<real>, l: seq<real>, c: seq<real>, p: BandParams, i: nat)
    requires |h| == |l| == |c| && ValidParams(p) && i < |c|
    requires BandsAt(h, l, c, p, i).Some?
    ensures var b := BandsAt(h, l, c, p, i).value;
      b.upperKc - b.lowerKc == 2.0 * p.kcMult * Rolling.Mean(Rolling.Window(Series.HighLow(h, l), i, p.kcPeriod))
  {
  }

  /** `squeeze_on`: both Bollinger bands strictly inside the channel (false on missing values);
      `TechnicalIndicators.BandTests` relates `Inside` to the comparisons with the deviation. */
  function SqueezeOn(h: seq<real>, l: seq<real>, c: seq<real>, p: BandParams): (r: seq<bool>)
    requires |h| == |l| == |c| && ValidParams(p)
    ensures |r| == |c|
  {
    seq(|c|, i requires 0 <= i < |c| => var b := BandsAt(h, l, c, p, i); b.Some? && TI.Inside(b.value, p.bbStd))
  }

  /** `squeeze_off`: both Bollinger bands strictly outside the channel. */
  function SqueezeOff(h: seq<real>, l: seq<real>, c: seq<real>, p: BandParams): (r: seq<bool>)
    requires |h| == |l| == |c| && ValidParams(p)
    ensures |r| == |c|
  {
    seq(|c|, i requires 0 <= i < |c| => var b := BandsAt(h, l, c, p, i); b.Some? && TI.Outside(b.value, p.bbStd))
  }

  /** A bar is never both in and out of a squeeze. */
  lemma SqueezeExclusive(h: seq<real>, l: seq<real>, c: seq<real>, p: BandParams, i: nat)
    requires |h| == |l| == |c| && ValidParams(p) && i < |c|
    ensures !(SqueezeOn(h, l, c, p)[i] && SqueezeOff(h, l, c, p)[i])
  {
    var b := BandsAt(h, l, c, p, i);
    if b.Some? {
      Roots.BelowAboveExclusive(p.bbStd, b.value.variance, b.value.basis - b.value.lowerKc);
    }
  }

  /** `close - close.shift(4)`. */
  function Momentum(c: seq<real>): (r: seq<Option<real>>)
    ensures |r| == |c|
    ensures forall i :: 0 <= i < |c| ==> (r[i].Some? <==> i >= 4)
  {
    seq(|c|, i requires 0 <= i < |c| => if i < 4 then None else Some(c[i] - c[i - 4]))
  }

  /** `np.where(squeeze_on, 0, momentum)`. */
  function SqueezeMomentum(h: seq<real>, l: seq<real>, c: seq<real>, p: BandParams): (r: seq<Option<real>>)
    requires |h| == |l| == |c| && ValidParams(p)
    ensures |r| == |c|
  {
    var on := SqueezeOn(h, l, c, p);
    var m := Momentum(c);
    seq(|c|, i requires 0 <= i < |c| => if on[i] then Some(0.0) else m[i])
  }

  /** During a squeeze the momentum is 0; otherwise it is the four-bar change of the close,
      missing on the first four bars. */
  lemma SqueezeMomentumAt(h: seq<real>, l: seq<real>, c: seq<real>, p: BandParams, i: nat)
    requires |h| == |l| == |c| && ValidParams(p) && i < |c|
    ensures SqueezeOn(h, l, c, p)[i] ==> SqueezeMomentum(h, l, c, p)[i] == Some(0.0)
    ensures !SqueezeOn(h, l, c, p)[i] && i < 4 ==> SqueezeMomentum(h, l, c, p)[i].None?
    ensures !SqueezeOn(h, l, c, p)[i] && i >= 4 ==> SqueezeMomentum(h, l, c, p)[i] == Some(c[i] - c[i - 4])
  {
  }

  /** With the default parameters nothing is reported before the 20th bar. */
  lemma DefaultWarmUp(h: seq<real>, l: seq<real>, c: seq<real>, i: nat)
    requires |h| == |l| == |c| && i < |c| && i < 19
    ensures !SqueezeOn(h, l, c, DefaultBands)[i] && !SqueezeOff(h, l, c, DefaultBands)[i]
    ensures i < 4 ==> SqueezeMomentum(h, l, c, DefaultBands)[i].None?
  {
  }

  /** `rolling(...).std()` kept exact: sqrt(variance) as a symbolic cell. */
  function StdCells(vs: seq<Option<real>>): (r: seq<Cell>)
    ensures |r| == |vs|
    ensures forall i :: 0 <= i < |vs| ==> (r[i] == Null <==> vs[i].None?)
    ensures forall i :: 0 <= i < |vs| && vs[i].Some? ==> r[i] == Surd(0.0, 1.0, vs[i].value)
  {
    seq(|vs|, i requires 0 <= i < |vs| => if vs[i].Some? then Surd(0.0, 1.0, vs[i].value) else Null)
  }

  /** `basis + k * std` as a symbolic cell. */
  function BandCells(basis: seq<Option<real>>, vs: seq<Option<real>>, k: real): (r: seq<Cell>)
    requires |basis| == |vs|
    ensures |r| == |vs|
    ensures forall i :: 0 <= i < |vs| ==> (r[i] == Null <==> basis[i].None? || vs[i].None?)
    ensures forall i :: 0 <= i < |vs| && basis[i].Some? && vs[i].Some? ==> r[i] == Surd(basis[i].value, k, vs[i].value)
  {
    seq(|vs|, i requires 0 <= i < |vs| =>
      if basis[i].Some? && vs[i].Some? then Surd(basis[i].value, k, vs[i].value) else Null)
  }

  /** `middle + k * width`. */
  function Channel(middle: seq<Option<real>>, width: seq<Option<real>>, k: real): (r: seq<Option<real>>)
    requires |middle| == |width|
    ensures |r| == |middle|
    ensures forall i :: 0 <= i < |r| ==> (r[i].Some? <==> middle[i].Some? && width[i].Some?)
  {
    seq(|middle|, i requires 0 <= i < |middle| =>
      if middle[i].Some? && width[i].Some? then Some(middle[i].value + k * width[i].value) else None)
  }

  function Flags(bs: seq<bool>): (r: seq<Cell>)
    ensures |r| == |bs| && forall i :: 0 <= i < |bs| ==> r[i] == Flag(bs[i])
  {
    seq(|bs|, i requires 0 <= i < |bs| => Flag(bs[i]))
  }

  /** The columns `calculate_squeeze_momentum` writes, in order. */
  const SqueezeNames: seq<string> :=
    ["bb_middle", "bb_std", "bb_upper", "bb_lower", "kc_middle", "kc_atr", "kc_upper", "kc_lower",
     "squeeze_on", "squeeze_off", "momentum", "squeeze_momentum"]

  function SqueezeColumns(h: seq<real>, l: seq<real>, c: seq<real>, p: BandParams): (r: seq<seq<Cell>>)
    requires |h| == |l| == |c| && ValidParams(p)
    ensures |r| == |SqueezeNames| && forall j :: 0 <= j < |r| ==> |r[j]| == |c|
    ensures r[|r| - 1] == Opts(SqueezeMomentum(h, l, c, p))
  {
    var basis := Rolling.RollingMean(c, p.bbPeriod);
    var vs := Rolling.RollingVariance(c, p.bbPeriod);
    var middle := Rolling.RollingMean(c, p.kcPeriod);
    var width := Rolling.RollingMean(Series.HighLow(h, l), p.kcPeriod);
    [ Opts(basis),
      StdCells(vs),
      BandCells(basis, vs, p.bbStd),
      BandCells(basis, vs, -p.bbStd),
      Opts(middle),
      Opts(width),
      Opts(Channel(middle, width, p.kcMult)),
      Opts(Channel(middle, width, -p.kcMult)),
      Flags(SqueezeOn(h, l, c, p)),
      Flags(SqueezeOff(h, l, c, p)),
      Opts(Momentum(c)),
      Opts(SqueezeMomentum(h, l, c, p)) ]
  }

  // ---------------------------------------------------------------------------
  // The frame the two functions write into

  /** A name that does not collide with any helper column either function writes. */
  lemma HelperNamesDistinct()
    ensures Distinct(AdxNames) && Distinct(SqueezeNames)
  {
    var a := AdxNames;
    assert |a[0]| == 2 && |a[1]| == 7 && |a[2]| == 8 && |a[3]| == 9 && |a[4]| == 14;
    assert |a[5]| == 15 && |a[6]| == 7 && |a[7]| == 8 && |a[8]| == 2 && |a[9]| == 3;
    assert a[0][0] != a[8][0] && a[1][6] != a[6][6] && a[2][7] != a[7][7];
    var s := SqueezeNames;
    assert |s[0]| == 9 && |s[1]| == 6 && |s[2]| == 8 && |s[3]| == 8 && |s[4]| == 9 && |s[5]| == 6;
    assert |s[6]| == 8 && |s[7]| == 8 && |s[8]| == 10 && |s[9]| == 11 && |s[10]| == 8 && |s[11]| == 16;
    assert s[0][0] != s[4][0] && s[1][0] != s[5][0];
    assert s[2][0] == 'b' && s[3][0] == 'b' && s[6][0] == 'k' && s[7][0] == 'k' && s[10][0] == 'm';
    assert s[2][3] != s[3][3] && s[6][3] != s[7][3];
  }

  /** The bar columns are none of the helper columns. */
  lemma BarsNotHelpers(n: string)
    requires n in ["open", "high", "low", "close", "volume"]
    ensures n !in AdxNames && n !in SqueezeNames
  {
    var a := AdxNames;
    var s := SqueezeNames;
    assert |a[0]| == 2 && |a[1]| == 7 && |a[2]| == 8 && |a[3]| == 9 && |a[4]| == 14;
    assert |a[5]| == 15 && |a[6]| == 7 && |a[7]| == 8 && |a[8]| == 2 && |a[9]| == 3;
    assert |s[0]| == 9 && |s[1]| == 6 && |s[2]| == 8 && |s[3]| == 8 && |s[4]| == 9 && |s[5]| == 6;
    assert |s[6]| == 8 && |s[7]| == 8 && |s[8]| == 10 && |s[9]| == 11 && |s[10]| == 8 && |s[11]| == 16;
    assert s[1][0] == 'b' && s[5][0] == 'k';
    assert "volume"[0] == 'v';
  }

  /** Writing helper columns leaves every other column, the bars in particular, as it was,
      and each helper name ends up holding its series. */
  lemma Written(f: Frame, names: seq<string>, cols: seq<seq<Cell>>)
    requires f.Valid() && |names| == |cols| && Distinct(names)
    requires forall j :: 0 <= j < |cols| ==> |cols[j]| == f.height
    ensures var r := AddColumns(f, names, cols);
      && (forall n :: n in f.cols && n !in names ==> r.cols[n] == f.cols[n])
      && (forall j :: 0 <= j < |names| ==> r.cols[names[j]] == cols[j])
  {
    DistinctConsistent(names, cols);
    forall n | n in f.cols && n !in names ensures AddColumns(f, names, cols).cols[n] == f.cols[n] {
      AddColumnsKeeps(f, names, cols, n);
    }
    forall j | 0 <= j < |names| ensures AddColumns(f, names, cols).cols[names[j]] == cols[j] {
      AddColumnsHolds(f, names, cols, j);
    }
  }

  /** The frame `calculate_adx` and `calculate_squeeze_momentum` write into. */
  class Table {
    var frame: Frame

    constructor (f: Frame)
      ensures frame == f
    {
      frame := f;
    }

    /** `calculate_adx(data, period)`: writes its ten series into the frame and returns `adx`. */
    method CalculateAdx(period: nat) returns (adx: seq<Option<real>>)
      requires TI.IsBarFrame(frame) && period >= 1
      modifies this
      ensures TI.IsBarFrame(old(frame)) && frame.height == old(frame).height
      ensures frame == AddColumns(old(frame), AdxNames,
        AdxColumns(TI.High(old(frame)), TI.Low(old(frame)), TI.Close(old(frame)), period))
      ensures adx == AdxOf(TI.High(old(frame)), TI.Low(old(frame)), TI.Close(old(frame)), period)
    {
      var h, l, c := TI.High(frame), TI.Low(frame), TI.Close(frame);
      adx := AdxOf(h, l, c, period);
      frame := AssignColumns(frame, AdxNames, AdxColumns(h, l, c, period));
    }

    /** `calculate_squeeze_momentum(data, ...)`: writes its twelve series and returns the last. */
    method CalculateSqueezeMomentum(p: BandParams) returns (momentum: seq<Option<real>>)
      requires TI.IsBarFrame(frame) && ValidParams(p)
      modifies this
      ensures TI.IsBarFrame(old(frame)) && frame.height == old(frame).height
      ensures frame == AddColumns(old(frame), SqueezeNames,
        SqueezeColumns(TI.High(old(frame)), TI.Low(old(frame)), TI.Close(old(frame)), p))
      ensures momentum == SqueezeMomentum(TI.High(old(frame)), TI.Low(old(frame)), TI.Close(old(frame)), p)
    {
      var h, l, c := TI.High(frame), TI.Low(frame), TI.Close(frame);
      momentum := SqueezeMomentum(h, l, c, p);
      frame := AssignColumns(frame, SqueezeNames, SqueezeColumns(h, l, c, p));
    }
  }

  /** After `calculate_adx` the bars are unchanged and `adx` holds the returned series. */
  lemma AdxFrame(f: Frame, period: nat, n: string)
    requires TI.IsBarFrame(f) && period >= 1 && n in f.cols && n in ["open", "high", "low", "close", "volume"]
    ensures var cols := AdxColumns(TI.High(f), TI.Low(f), TI.Close(f), period);
      var r := AddColumns(f, AdxNames, cols);
      && r.cols[n] == f.cols[n]
      && r.cols["adx"] == cols[|cols| - 1]
  {
    var cols := AdxColumns(TI.High(f), TI.Low(f), TI.Close(f), period);
    HelperNamesDistinct();
    BarsNotHelpers(n);
    Written(f, AdxNames, cols);
    assert AdxNames[|AdxNames| - 1] == "adx";
  }

  /** After `calculate_squeeze_momentum` the bars are unchanged and `squeeze_momentum` holds
      the returned series. */
  lemma SqueezeFrame(f: Frame, p: BandParams, n: string)
    requires TI.IsBarFrame(f) && ValidParams(p) && n in f.cols && n in ["open", "high", "low", "close", "volume"]
    ensures var cols := SqueezeColumns(TI.High(f), TI.Low(f), TI.Close(f), p);
      var r := AddColumns(f, SqueezeNames, cols);
      && r.cols[n] == f.cols[n]
      && r.cols["squeeze_momentum"] == cols[|cols| - 1]
  {
    var cols := SqueezeColumns(TI.High(f), TI.Low(f), TI.Close(f), p);
    HelperNamesDistinct();
    BarsNotHelpers(n);
    Written(f, SqueezeNames, cols);
    assert SqueezeNames[|SqueezeNames| - 1] == "squeeze_momentum";
  }

  // ---------------------------------------------------------------------------
  // ema_cross and price_vs_ema55

  /** `np.where(ema10 > ema55, 1, -1)`; a missing EMA compares false. */
  function EmaCross(fast: seq<Option<real>>, slow: seq<Option<real>>): (r: seq<int>)
    requires |fast| == |slow|
    ensures |r| == |fast|
    ensures forall i :: 0 <= i < |r| ==> r[i] == 1 || r[i] == -1
  {
    seq(|fast|, i requires 0 <= i < |fast| =>
      if fast[i].Some? && slow[i].Some? && fast[i].value > slow[i].value then 1 else -1)
  }

  /** On the closes the cross is 1 exactly when the 10-bar EMA recurrence is above the 55-bar one. */
  lemma EmaCrossOfCloses(c: seq<real>, t: nat)
    requires t < |c|
    ensures EmaCross(TI.Ema(c, 10), TI.Ema(c, 55))[t] == 1 <==>
      Ewm.EmaAt(c, Ewm.Alpha(10), t) > Ewm.EmaAt(c, Ewm.Alpha(55), t)
  {
    TI.EmaIsRecurrence(c, 10);
    TI.EmaIsRecurrence(c, 55);
  }

  /** `(close - ema55) / ema55 * 100`, missing where the EMA is missing or 0. */
  function PriceVsEma(c: seq<real>, slow: seq<Option<real>>): (r: seq<Option<real>>)
    requires |c| == |slow|
    ensures |r| == |c|
    ensures forall i :: 0 <= i < |c| ==> (r[i].Some? <==> slow[i].Some? && slow[i].value != 0.0)
  {
    seq(|c|, i requires 0 <= i < |c| =>
      var q := Series.Div(Some(c[i] - slow[i].GetOr(0.0)), slow[i]);
      if q.Some? then Some(q.value * 100.0) else None)
  }

  /** The percentage times the EMA is 100 times the distance of the close from it, so with a
      positive EMA it is positive exactly when the close is above the EMA. */
  lemma PriceVsEmaAt(c: seq<real>, slow: seq<Option<real>>, i: nat)
    requires |c| == |slow| && i < |c| && slow[i].Some? && slow[i].value != 0.0
    ensures PriceVsEma(c, slow)[i].value * slow[i].value == 100.0 * (c[i] - slow[i].value)
    ensures slow[i].value > 0.0 ==> (PriceVsEma(c, slow)[i].value > 0.0 <==> c[i] > slow[i].value)
  {
    var e := slow[i].value;
    var q := (c[i] - e) / e;
    assert q * e == c[i] - e;
    assert PriceVsEma(c, slow)[i].value == q * 100.0;
    if e > 0.0 {
      if q > 0.0 {
        Roots.PositiveProduct(q, e);
      } else if c[i] > e {
        Ewm.NonNegProduct(-q, e);
      }
    }
  }
}
