/**
 * `MultitemporalPipeline.add_4h_context_to_1h`: every 1H row receives four boolean flags
 * and five raw values read from one 4H bar. The bar is chosen by the prefix search
 * `timestamp_4h <= timestamp_1h` followed by `idxmax`, which returns the FIRST qualifying
 * bar; with 4H bars in increasing order that is the first bar of the frame for every 1H
 * row after it. `AddContextTo1H` models the routine as written; `AddContextCorrected`
 * picks the latest qualifying bar, the one that contains the 1H row.
 */
module Context1H {
  import opened Wrappers
  import opened Frames
  import opened Alignment
  import TI = TechnicalIndicators

  /** `a > b` on two cells of a row: a NaN, like any other non-number, compares False. */
  predicate Greater(a: Cell, b: Cell)
  {
    a.Num? && b.Num? && a.x > b.x
  }

  /** The 4H columns the context reads (lines 70-83). */
  predicate HasSources(p: Frame)
  {
    && p.Valid() && "close" in p.cols && "ema10" in p.cols && "ema55" in p.cols
    && "ema200" in p.cols && "smi" in p.cols && "adx" in p.cols
  }

  /** The four flags of lines 54-57, then the five raw copies of lines 79-83, in the order
      the routine writes them. */
  const ContextNames: seq<string> :=
    ["tendencia_4h", "smi_4h_activo", "adx_4h_fuerte", "ema_alignment_4h",
     "close_4h", "ema10_4h", "ema55_4h", "smi_4h", "adx_4h"]

  /** The first `FlagCount` context columns are the flags. */
  const FlagCount: nat := 4

  /** The nine names are distinct and none of them is `timestamp`. */
  lemma ContextNamesFresh()
    ensures |ContextNames| == 9 && Distinct(ContextNames) && "timestamp" !in ContextNames
  {
    var cs := ContextNames;
    assert |cs[0]| == 12 && |cs[1]| == 13 && |cs[2]| == 13 && |cs[3]| == 16 && |cs[4]| == 8;
    assert |cs[5]| == 8 && |cs[6]| == 8 && |cs[7]| == 6 && |cs[8]| == 6;
    assert cs[1][0] == 's' && cs[2][0] == 'a' && cs[4][0] == 'c' && cs[5][0] == 'e' && cs[6][0] == 'e';
    assert cs[5][3] == '1' && cs[6][3] == '5' && cs[7][0] == 's' && cs[8][0] == 'a';
  }

  /** The nine values lines 70-83 write for the 4H bar at row `k`. */
  function ContextRow(p: Frame, k: nat): (r: seq<Cell>)
    requires HasSources(p) && k < p.height
    ensures |r| == |ContextNames|
    ensures forall j :: 0 <= j < FlagCount ==> r[j].Flag?
    ensures r[3].b ==> r[0].b
    ensures r[3].b <==> r[0].b && Greater(p.cols["ema55"][k], p.cols["ema200"][k])
  {
    var ema10, ema55, ema200 := p.cols["ema10"][k], p.cols["ema55"][k], p.cols["ema200"][k];
    var smi, adx := p.cols["smi"][k], p.cols["adx"][k];
    [Flag(Greater(ema10, ema55)), Flag(Greater(smi, Num(0.0))), Flag(Greater(adx, Num(25.0))),
     Flag(Greater(ema10, ema55) && Greater(ema55, ema200)),
     p.cols["close"][k], ema10, ema55, smi, adx]
  }

  /** The last bar starting at or before `t`: the bar containing `t` when the bars are in
      increasing order. */
  function LastAtOrBefore(pts: seq<int>, t: int): (r: Option<nat>)
    ensures r.Some? <==> exists k :: 0 <= k < |pts| && pts[k] <= t
    ensures r.Some? ==> r.value < |pts| && pts[r.value] <= t
    ensures r.Some? ==> forall j :: r.value < j < |pts| ==> pts[j] > t
  {
    if |pts| == 0 then None
    else if pts[|pts| - 1] <= t then Some(|pts| - 1)
    else
      var r := LastAtOrBefore(pts[..|pts| - 1], t);
      assert forall k :: 0 <= k < |pts| - 1 ==> pts[..|pts| - 1][k] == pts[k];
      r
  }

  /** Some 4H bar starts at or before `t` (line 65). */
  predicate HasBar(pts: seq<int>, t: int)
  {
    exists k :: 0 <= k < |pts| && pts[k] <= t
  }

  /** The 4H row a 1H row at time `t` takes its context from: as written (lines 64-67) the
      first bar at or before `t`; when `latest`, the last one. */
  function Pick(pts: seq<int>, t: int, latest: bool): (r: Option<nat>)
    ensures r.Some? <==> HasBar(pts, t)
    ensures r.Some? ==> r.value < |pts| && pts[r.value] <= t
  {
    if latest then LastAtOrBefore(pts, t) else PrefixMatchOf(pts, t)
  }

  /** Context cell `v` of a 1H row at time `t` that held `before`: the bar's value when a
      bar qualifies, `before` otherwise. */
  predicate Filled(p: Frame, pts: seq<int>, t: int, latest: bool, j: nat, before: Cell, v: Cell)
    requires HasSources(p) && |pts| == p.height && j < |ContextNames|
  {
    match Pick(pts, t, latest)
    case None => v == before
    case Some(k) => v == ContextRow(p, k)[j]
  }

  ghost predicate RowState(p: Frame, pts: seq<int>, sts: seq<int>, latest: bool,
                           init: seq<seq<Cell>>, ctx: seq<seq<Cell>>, idx: nat, j: nat, i: nat)
    requires HasSources(p) && |pts| == p.height && j < |ContextNames| && i < |sts|
    requires |init| == |ctx| == |ContextNames| && |init[j]| == |ctx[j]| == |sts|
  {
    if i < idx then Filled(p, pts, sts[i], latest, j, init[j][i], ctx[j][i])
    else ctx[j][i] == init[j][i]
  }

  ghost predicate FilledUpTo(p: Frame, pts: seq<int>, sts: seq<int>, latest: bool,
                             init: seq<seq<Cell>>, ctx: seq<seq<Cell>>, idx: nat)
    requires HasSources(p) && |pts| == p.height
    requires |init| == |ContextNames| && forall j :: 0 <= j < |init| ==> |init[j]| == |sts|
  {
    && |ctx| == |ContextNames|
    && (forall j :: 0 <= j < |ctx| ==> |ctx[j]| == |sts|)
    && (forall j, i :: 0 <= j < |ctx| && 0 <= i < |sts| ==> RowState(p, pts, sts, latest, init, ctx, idx, j, i))
  }

  /** Row `idx` of each context column set to the bar's value. */
  function WriteRow(ctx: seq<seq<Cell>>, idx: nat, row: seq<Cell>): (r: seq<seq<Cell>>)
    requires |row| == |ctx| && forall j :: 0 <= j < |ctx| ==> idx < |ctx[j]|
    ensures |r| == |ctx| && forall j :: 0 <= j < |ctx| ==> |r[j]| == |ctx[j]|
    ensures forall j, i :: 0 <= j < |ctx| && 0 <= i < |ctx[j]| ==> r[j][i] == if i == idx then row[j] else ctx[j][i]
  {
    seq(|ctx|, j requires 0 <= j < |ctx| => ctx[j][idx := row[j]])
  }

  /** One turn of the row loop. */
  lemma FillStep(p: Frame, pts: seq<int>, sts: seq<int>, latest: bool,
                 init: seq<seq<Cell>>, prev: seq<seq<Cell>>, ctx: seq<seq<Cell>>, idx: nat)
    requires HasSources(p) && |pts| == p.height && idx < |sts|
    requires |init| == |ContextNames| && forall j :: 0 <= j < |init| ==> |init[j]| == |sts|
    requires FilledUpTo(p, pts, sts, latest, init, prev, idx)
    requires ctx == match Pick(pts, sts[idx], latest)
      case None => prev
      case Some(k) => WriteRow(prev, idx, ContextRow(p, k))
    ensures FilledUpTo(p, pts, sts, latest, init, ctx, idx + 1)
  {
    var next := idx + 1;
    forall j, i | 0 <= j < |ctx| && 0 <= i < |sts|
      ensures RowState(p, pts, sts, latest, init, ctx, next, j, i)
    {
      assert RowState(p, pts, sts, latest, init, prev, idx, j, i);
    }
  }

  /** Lines 61-83 for the 1H row `idx`: when a 4H bar qualifies, its nine values are
      written into the row; `hit` tells whether one did. */
  method FillRow(p: Frame, pts: seq<int>, sts: seq<int>, latest: bool, init: seq<seq<Cell>>,
                 ctx: seq<seq<Cell>>, idx: nat) returns (next: seq<seq<Cell>>, hit: bool)
    requires HasSources(p) && |pts| == p.height && idx < |sts|
    requires |init| == |ContextNames| && forall j :: 0 <= j < |init| ==> |init[j]| == |sts|
    requires FilledUpTo(p, pts, sts, latest, init, ctx, idx)
    ensures FilledUpTo(p, pts, sts, latest, init, next, idx + 1)
    ensures hit <==> HasBar(pts, sts[idx])
  {
    next, hit := ctx, false;
    var bar := Pick(pts, sts[idx], latest);
    if bar.Some? {
      var row := ContextRow(p, bar.value);
      next, hit := WriteRow(ctx, idx, row), true;
    }
    FillStep(p, pts, sts, latest, init, ctx, next, idx);
  }

  /** Lines 60-83 on the context columns: each 1H row in turn, and when a 4H bar qualifies
      the nine values of that bar written into the row. `matched` tells whether any row
      was written, which is when pandas creates the raw columns. */
  method FillContext(p: Frame, pts: seq<int>, sts: seq<int>, latest: bool, init: seq<seq<Cell>>)
    returns (ctx: seq<seq<Cell>>, matched: bool)
    requires HasSources(p) && |pts| == p.height
    requires |init| == |ContextNames| && forall j :: 0 <= j < |init| ==> |init[j]| == |sts|
    ensures FilledUpTo(p, pts, sts, latest, init, ctx, |sts|)
    ensures matched <==> exists i :: 0 <= i < |sts| && HasBar(pts, sts[i])
  {
    ctx, matched := init, false;
    for idx := 0 to |sts|
      invariant FilledUpTo(p, pts, sts, latest, init, ctx, idx)
      invariant matched <==> exists i :: 0 <= i < idx && HasBar(pts, sts[i])
    {
      var hit;
      ctx, hit := FillRow(p, pts, sts, latest, init, ctx, idx);
      matched := matched || hit;
    }
  }

  /** The context column names the routine writes: nine distinct names, none of them
      `timestamp`. The frame-level members take them as a parameter; `ContextNames` is
      what the routine passes. */
  predicate ContextLayout(names: seq<string>)
  {
    |names| == |ContextNames| && Distinct(names) && "timestamp" !in names
  }

  /** What context column `j` holds at row `i` before the loop: False for a flag (lines
      54-57); for a raw column, the frame's own value if it has that column and NaN otherwise. */
  function Before(s: Frame, names: seq<string>, j: nat, i: nat): Cell
    requires s.Valid() && j < |names| && i < s.height
  {
    if j < FlagCount then Flag(false)
    else if names[j] in s.cols then s.cols[names[j]][i] else Null
  }

  /** Context column `j` of the result, for the 1H frame `s` and the 4H frame `p`. */
  ghost predicate ContextColumn(p: Frame, s: Frame, latest: bool, names: seq<string>, j: nat, col: seq<Cell>)
    requires Dated(p) && Dated(s) && HasSources(p) && j < |names| == |ContextNames|
  {
    && |col| == s.height
    && forall i :: 0 <= i < s.height ==>
         Filled(p, DateTimes(p), DateTimes(s)[i], latest, j, Before(s, names, j, i), col[i])
  }

  /** Some 1H row has a 4H bar at or before it. */
  predicate AnyBar(p: Frame, s: Frame)
    requires Dated(p) && Dated(s)
  {
    exists i :: 0 <= i < s.height && HasBar(DateTimes(p), DateTimes(s)[i])
  }

  /** The frame lines 50-86 return for the indicator frames `s` (1H) and `p` (4H), with
      the context columns called `names`: the same rows, the 1H columns kept, `timestamp`
      gone, the four flags always present and the raw columns present when the frame had
      them or some row found a bar. */
  ghost predicate WithContext(p: Frame, s: Frame, latest: bool, names: seq<string>, r: Frame)
    requires Dated(p) && Dated(s) && HasSources(p) && ContextLayout(names)
  {
    && r.Valid() && r.height == s.height
    && (forall n :: n in r.cols <==>
          n != "timestamp" && (n in s.cols || n in names[..FlagCount] || (n in names && AnyBar(p, s))))
    && (forall n :: n in s.cols && n != "timestamp" && n !in names ==> r.cols[n] == s.cols[n])
    && (forall j :: 0 <= j < |names| && names[j] in r.cols ==>
          ContextColumn(p, s, latest, names, j, r.cols[names[j]]))
  }

  /** A column of False. */
  function Falses(n: nat): (r: seq<Cell>)
    ensures |r| == n && forall i :: 0 <= i < n ==> r[i] == Flag(false)
  {
    seq(n, _ => Flag(false))
  }

  /** Lines 54-57: the flag columns set to False, one after the other. */
  function ResetFlags(f: Frame, flags: seq<string>): (r: Frame)
    requires f.Valid()
    ensures r.Valid() && r.height == f.height
    ensures forall n :: n in r.cols <==> n in f.cols || n in flags
    ensures forall n :: n in f.cols && n !in flags ==> r.cols[n] == f.cols[n]
    ensures forall n :: n in flags ==> r.cols[n] == Falses(f.height)
    decreases |flags|
  {
    if |flags| == 0 then f
    else
      assert forall n :: n in flags <==> n == flags[0] || n in flags[1..];
      ResetFlags(WithColumn(f, flags[0], Falses(f.height)), flags[1..])
  }

  /** The context columns after the loop, written back: a column the frame lacks is
      created only if some row was written, as `df.at` creates it on the first write. */
  method AssignContext(f: Frame, names: seq<string>, ctx: seq<seq<Cell>>, matched: bool) returns (r: Frame)
    requires f.Valid() && Distinct(names) && |ctx| == |names| && forall j :: 0 <= j < |ctx| ==> |ctx[j]| == f.height
    ensures r.Valid() && r.height == f.height
    ensures forall n :: n in r.cols <==> n in f.cols || (n in names && matched)
    ensures forall n :: n in f.cols && n !in names ==> r.cols[n] == f.cols[n]
    ensures forall j :: 0 <= j < |names| && (names[j] in f.cols || matched) ==> r.cols[names[j]] == ctx[j]
  {
    r := f;
    for j := 0 to |names|
      invariant r.Valid() && r.height == f.height
      invariant forall n :: n in r.cols <==> n in f.cols || (n in names[..j] && matched)
      invariant forall n :: n in f.cols && n !in names[..j] ==> r.cols[n] == f.cols[n]
      invariant forall c :: 0 <= c < j && (names[c] in f.cols || matched) ==> r.cols[names[c]] == ctx[c]
    {
      var name := names[j];
      assert names[..j + 1] == names[..j] + [name];
      if name in f.cols || matched {
        r := WithColumn(r, name, ctx[j]);
      }
    }
    assert names[..|names|] == names;
  }

  /** The context columns before the loop, read off the frame with its flags reset. */
  function Initial(f: Frame, names: seq<string>): (init: seq<seq<Cell>>)
    requires f.Valid()
    ensures |init| == |names| && forall j :: 0 <= j < |names| ==> |init[j]| == f.height
  {
    seq(|names|, j requires 0 <= j < |names| => if names[j] in f.cols then f.cols[names[j]] else Nulls(f.height))
  }

  /** The flags reset keeps the stamps. */
  lemma StampsKept(s: Frame, s1: Frame, s2: Frame, names: seq<string>)
    requires Dated(s) && s1 == Stamp(s) && ContextLayout(names)
    requires s2 == ResetFlags(s1, names[..FlagCount])
    ensures Stamped(s2) && Stamps(s2) == DateTimes(s)
  {
    assert "timestamp" !in names[..FlagCount];
    assert s2.cols["timestamp"] == s1.cols["timestamp"];
    forall i | 0 <= i < s2.height ensures Stamps(s2)[i] == DateTimes(s)[i] {
    }
  }

  /** Before the loop, each context cell holds what `Before` says. */
  lemma InitialCells(s: Frame, s1: Frame, s2: Frame, names: seq<string>)
    requires Dated(s) && s1 == Stamp(s) && ContextLayout(names)
    requires s2 == ResetFlags(s1, names[..FlagCount])
    ensures forall j, i :: 0 <= j < |names| && 0 <= i < s.height ==> Initial(s2, names)[j][i] == Before(s, names, j, i)
  {
    var init := Initial(s2, names);
    forall j | 0 <= j < |names| ensures forall i :: 0 <= i < s.height ==> init[j][i] == Before(s, names, j, i) {
      var n := names[j];
      if j < FlagCount {
        assert n in names[..FlagCount];
        assert init[j] == Falses(s.height);
      } else {
        assert n !in names[..FlagCount] by {
          forall c | 0 <= c < FlagCount ensures names[..FlagCount][c] != n {
          }
        }
        assert n != "timestamp";
        assert n in s2.cols <==> n in s.cols;
        assert n in s.cols ==> init[j] == s.cols[n];
      }
    }
  }

  /** Lines 50-86 on the indicator frames: stamp both, reset the flags, walk the 1H rows,
      write the context columns back and drop `timestamp`. */
  method AddContext(p: Frame, s: Frame, latest: bool, names: seq<string>) returns (r: Frame)
    requires Dated(p) && Dated(s) && HasSources(p) && ContextLayout(names)
    ensures WithContext(p, s, latest, names, r)
  {
    var s1 := Stamp(s);
    var p1 := Stamp(p);
    var s2 := ResetFlags(s1, names[..FlagCount]);
    StampsKept(s, s1, s2, names);
    InitialCells(s, s1, s2, names);
    var init := Initial(s2, names);
    var ctx, matched := FillContext(p, Stamps(p1), Stamps(s2), latest, init);
    var s3 := AssignContext(s2, names, ctx, matched);
    r := Drop(s3, "timestamp");
    Contextualized(p, s, latest, names, s2, ctx, matched, s3, r);
  }

  /** The frame after the write-back and the drop. */
  lemma Contextualized(p: Frame, s: Frame, latest: bool, names: seq<string>, s2: Frame,
                       ctx: seq<seq<Cell>>, matched: bool, s3: Frame, r: Frame)
    requires Dated(p) && Dated(s) && HasSources(p) && ContextLayout(names)
    requires s2 == ResetFlags(Stamp(s), names[..FlagCount])
    requires Stamped(s2) && Stamps(s2) == DateTimes(s)
    requires forall j, i :: 0 <= j < |names| && 0 <= i < s.height ==> Initial(s2, names)[j][i] == Before(s, names, j, i)
    requires FilledUpTo(p, DateTimes(p), Stamps(s2), latest, Initial(s2, names), ctx, s.height)
    requires matched <==> exists i :: 0 <= i < s.height && HasBar(DateTimes(p), Stamps(s2)[i])
    requires s3.Valid() && s3.height == s2.height
    requires forall n :: n in s3.cols <==> n in s2.cols || (n in names && matched)
    requires forall n :: n in s2.cols && n !in names ==> s3.cols[n] == s2.cols[n]
    requires forall j :: 0 <= j < |names| && (names[j] in s2.cols || matched) ==> s3.cols[names[j]] == ctx[j]
    requires "timestamp" in s3.cols && r == Drop(s3, "timestamp")
    ensures WithContext(p, s, latest, names, r)
  {
    var init := Initial(s2, names);
    assert matched <==> AnyBar(p, s);
    forall n | n in s.cols && n != "timestamp" && n !in names ensures r.cols[n] == s.cols[n] {
      assert n !in names[..FlagCount];
    }
    forall j | 0 <= j < |names| && names[j] in r.cols ensures ContextColumn(p, s, latest, names, j, r.cols[names[j]]) {
      forall i | 0 <= i < s.height
        ensures Filled(p, DateTimes(p), DateTimes(s)[i], latest, j, Before(s, names, j, i), r.cols[names[j]][i])
      {
        assert RowState(p, DateTimes(p), Stamps(s2), latest, init, ctx, s.height, j, i);
      }
    }
  }

  /** A 1H row with no 4H bar at or before it keeps its defaults: the four flags False
      (lines 54-57) and any raw column it already had unchanged. */
  lemma UnmatchedRow(p: Frame, s: Frame, latest: bool, names: seq<string>, r: Frame, i: nat)
    requires Dated(p) && Dated(s) && HasSources(p) && ContextLayout(names)
    requires WithContext(p, s, latest, names, r) && i < s.height
    requires !HasBar(DateTimes(p), DateTimes(s)[i])
    ensures forall j :: 0 <= j < FlagCount ==> names[j] in r.cols && r.cols[names[j]][i] == Flag(false)
    ensures forall j :: FlagCount <= j < |names| && names[j] in s.cols ==> r.cols[names[j]][i] == s.cols[names[j]][i]
  {
    forall j | 0 <= j < FlagCount ensures names[j] in r.cols && r.cols[names[j]][i] == Flag(false) {
      assert names[j] == names[..FlagCount][j];
      assert ContextColumn(p, s, latest, names, j, r.cols[names[j]]);
    }
    forall j | FlagCount <= j < |names| && names[j] in s.cols ensures r.cols[names[j]][i] == s.cols[names[j]][i] {
      assert ContextColumn(p, s, latest, names, j, r.cols[names[j]]);
    }
  }

  /** A 1H row whose picked 4H bar is `k` (lines 70-83): the trend, SMI and ADX flags
      compare that bar's EMA10 with its EMA55, its SMI with 0 and its ADX with 25; the
      alignment flag needs EMA10 > EMA55 > EMA200; the raw columns hold the bar's close,
      EMA10, EMA55, SMI and ADX. */
  lemma MatchedRow(p: Frame, s: Frame, latest: bool, names: seq<string>, r: Frame, i: nat)
    requires Dated(p) && Dated(s) && HasSources(p) && ContextLayout(names)
    requires WithContext(p, s, latest, names, r) && i < s.height
    requires Pick(DateTimes(p), DateTimes(s)[i], latest).Some?
    ensures forall j :: 0 <= j < |names| ==> names[j] in r.cols
    ensures var k := Pick(DateTimes(p), DateTimes(s)[i], latest).value;
      && r.cols[names[0]][i] == Flag(Greater(p.cols["ema10"][k], p.cols["ema55"][k]))
      && r.cols[names[1]][i] == Flag(Greater(p.cols["smi"][k], Num(0.0)))
      && r.cols[names[2]][i] == Flag(Greater(p.cols["adx"][k], Num(25.0)))
      && r.cols[names[3]][i] == Flag(Greater(p.cols["ema10"][k], p.cols["ema55"][k])
                                      && Greater(p.cols["ema55"][k], p.cols["ema200"][k]))
      && r.cols[names[4]][i] == p.cols["close"][k]
      && r.cols[names[5]][i] == p.cols["ema10"][k]
      && r.cols[names[6]][i] == p.cols["ema55"][k]
      && r.cols[names[7]][i] == p.cols["smi"][k]
      && r.cols[names[8]][i] == p.cols["adx"][k]
  {
    var k := Pick(DateTimes(p), DateTimes(s)[i], latest).value;
    MatchedCells(p, s, latest, names, r, i, k);
    var row := ContextRow(p, k);
    assert r.cols[names[0]][i] == row[0] && r.cols[names[1]][i] == row[1] && r.cols[names[2]][i] == row[2];
    assert r.cols[names[3]][i] == row[3] && r.cols[names[4]][i] == row[4] && r.cols[names[5]][i] == row[5];
    assert r.cols[names[6]][i] == row[6] && r.cols[names[7]][i] == row[7] && r.cols[names[8]][i] == row[8];
  }

  /** The context cells of a matched row are the picked bar's context row. */
  lemma MatchedCells(p: Frame, s: Frame, latest: bool, names: seq<string>, r: Frame, i: nat, k: nat)
    requires Dated(p) && Dated(s) && HasSources(p) && ContextLayout(names)
    requires WithContext(p, s, latest, names, r) && i < s.height
    requires Pick(DateTimes(p), DateTimes(s)[i], latest) == Some(k)
    ensures forall j :: 0 <= j < |names| ==> names[j] in r.cols && r.cols[names[j]][i] == ContextRow(p, k)[j]
  {
    assert AnyBar(p, s);
    forall j | 0 <= j < |names| ensures names[j] in r.cols && r.cols[names[j]][i] == ContextRow(p, k)[j] {
      if j < FlagCount {
        assert names[j] == names[..FlagCount][j];
      }
      assert ContextColumn(p, s, latest, names, j, r.cols[names[j]]);
    }
  }

  /** Line 73-76 against line 70: a row whose EMAs are aligned on its 4H bar is also in
      an up-trend there. */
  lemma AlignmentImpliesTrend(p: Frame, s: Frame, latest: bool, names: seq<string>, r: Frame, i: nat)
    requires Dated(p) && Dated(s) && HasSources(p) && ContextLayout(names)
    requires WithContext(p, s, latest, names, r) && i < s.height
    ensures names[0] in r.cols && names[3] in r.cols
    ensures r.cols[names[3]][i] == Flag(true) ==> r.cols[names[0]][i] == Flag(true)
  {
    assert names[0] == names[..FlagCount][0] && names[3] == names[..FlagCount][3];
    assert ContextColumn(p, s, latest, names, 0, r.cols[names[0]]);
    assert ContextColumn(p, s, latest, names, 3, r.cols[names[3]]);
  }

  /** As written, with the 4H bars in increasing order, every 1H row that finds a bar
      finds the FIRST bar of the frame, so all of them carry the same context. */
  lemma AsWrittenPicksFirstBar(p: Frame, s: Frame, names: seq<string>, r: Frame, i: nat)
    requires Dated(p) && Dated(s) && HasSources(p) && ContextLayout(names)
    requires WithContext(p, s, false, names, r) && i < s.height
    requires NonDecreasing(DateTimes(p)) && HasBar(DateTimes(p), DateTimes(s)[i])
    ensures p.height > 0
    ensures forall j :: 0 <= j < |names| ==> names[j] in r.cols && r.cols[names[j]][i] == ContextRow(p, 0)[j]
  {
    PrefixPicksFirstBar(DateTimes(p), DateTimes(s)[i]);
    MatchedCells(p, s, false, names, r, i, 0);
  }

  /** 4H bars are at least four hours apart. */
  predicate Spaced(pts: seq<int>)
  {
    forall a, b :: 0 <= a < b < |pts| ==> pts[a] + FourHours <= pts[b]
  }

  /** Bars opened at 00:00 and 04:00 and a 1H row at 05:00: the search as written picks the
      00:00 bar, although the 04:00 bar is the one that contains the row; the latest bar
      at or before the row is that one. */
  lemma FirstBarCounterexample()
    ensures Spaced([0, 240]) && Covers(240, 300) && !Covers(0, 300)
    ensures Pick([0, 240], 300, false) == Some(0)
    ensures Pick([0, 240], 300, true) == Some(1) == MatchOf([0, 240], 300)
  {
    var pts := [0, 240];
    assert pts[1] <= 300;
    assert PrefixMask(pts, 300) == [true, true];
    assert CoverMask(pts, 300) == [false, true];
    assert IdxMax([false, true][1..]) == Some(0);
  }

  /** The corrected search: when some bar contains the 1H row, the latest bar at or before
      the row is that bar, the one `sincronizar_primary_secondary` picks by containment. */
  lemma LatestIsContainingBar(pts: seq<int>, t: int)
    requires Spaced(pts)
    ensures MatchOf(pts, t).Some? ==> Pick(pts, t, true) == MatchOf(pts, t)
  {
  }

  /** With the corrected search and 4H bars at least four hours apart, a 1H row that some
      4H bar contains carries that bar's context. */
  lemma CorrectedUsesContainingBar(p: Frame, s: Frame, names: seq<string>, r: Frame, i: nat)
    requires Dated(p) && Dated(s) && HasSources(p) && ContextLayout(names)
    requires WithContext(p, s, true, names, r) && i < s.height
    requires Spaced(DateTimes(p)) && MatchOf(DateTimes(p), DateTimes(s)[i]).Some?
    ensures var k := MatchOf(DateTimes(p), DateTimes(s)[i]).value;
      forall j :: 0 <= j < |names| ==> names[j] in r.cols && r.cols[names[j]][i] == ContextRow(p, k)[j]
  {
    var k := MatchOf(DateTimes(p), DateTimes(s)[i]).value;
    LatestIsContainingBar(DateTimes(p), DateTimes(s)[i]);
    MatchedCells(p, s, true, names, r, i, k);
  }

  /** The 4H indicator frame holds every column the context reads. */
  lemma IndicatorSources(df: Frame)
    requires TI.IsBarFrame(df)
    ensures HasSources(AllIndicators(df))
  {
    AllIndicatorsKeep(df);
    AllIndicatorsNames(df);
    SourcesPresent(df, AllIndicators(df));
  }

  lemma SourcesPresent(df: Frame, q: Frame)
    requires TI.IsBarFrame(df) && q.Valid()
    requires forall n :: n in q.cols <==> n in df.cols || n in ["ema10", "ema55", "ema200"] || n in TI.IndicatorNames
    ensures HasSources(q)
  {
    var ns := TI.IndicatorNames;
    assert "adx" == ns[0] && "smi" == ns[2];
  }

  /** `add_4h_context_to_1h` as written (lines 40-88): the indicators of both frames, then
      the context of the first 4H bar at or before each 1H row. */
  method AddContextTo1H(df1h: Frame, df4h: Frame) returns (r: Frame)
    requires TI.IsBarFrame(df1h) && Dated(df1h) && TI.IsBarFrame(df4h) && Dated(df4h)
    ensures Dated(AllIndicators(df1h)) && Dated(AllIndicators(df4h)) && HasSources(AllIndicators(df4h))
    ensures ContextLayout(ContextNames)
    ensures WithContext(AllIndicators(df4h), AllIndicators(df1h), false, ContextNames, r)
  {
    AllIndicatorsKeep(df1h);
    AllIndicatorsKeep(df4h);
    IndicatorSources(df4h);
    ContextNamesFresh();
    var s := ComputeIndicators(df1h);
    var p := ComputeIndicators(df4h);
    r := AddContext(p, s, false, ContextNames);
  }

  /** The routine with lines 64-66 searching for the latest 4H bar at or before each 1H row. */
  method AddContextCorrected(df1h: Frame, df4h: Frame) returns (r: Frame)
    requires TI.IsBarFrame(df1h) && Dated(df1h) && TI.IsBarFrame(df4h) && Dated(df4h)
    ensures Dated(AllIndicators(df1h)) && Dated(AllIndicators(df4h)) && HasSources(AllIndicators(df4h))
    ensures ContextLayout(ContextNames)
    ensures WithContext(AllIndicators(df4h), AllIndicators(df1h), true, ContextNames, r)
  {
    AllIndicatorsKeep(df1h);
    AllIndicatorsKeep(df4h);
    IndicatorSources(df4h);
    ContextNamesFresh();
    var s := ComputeIndicators(df1h);
    var p := ComputeIndicators(df4h);
    r := AddContext(p, s, true, ContextNames);
  }
}
