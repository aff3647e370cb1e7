/**
 * What the three multi-timeframe synchronizers share: the `timestamp` helper column built
 * from `date`, the boolean masks they search the primary (4h) bars with, `mask.idxmax()`
 * (the FIRST position holding True), and the per-row copy loop of the two
 * `sincronizar_primary_secondary` routines, which raises KeyError when a copied column
 * does not exist in the primary frame.
 */
module Alignment {
  import opened Wrappers
  import opened Frames
  import TI = TechnicalIndicators

  /** `pd.Timedelta(hours=4)` in minutes. */
  const FourHours: int := 240

  /** The 4h bar opened at `tp` contains the instant `ts`: `tp <= ts < tp + 4h`. */
  predicate Covers(tp: int, ts: int)
  {
    tp <= ts < tp + FourHours
  }

  /** The containment mask over the primary timestamps. */
  function CoverMask(pts: seq<int>, ts: int): (m: seq<bool>)
    ensures |m| == |pts| && forall k :: 0 <= k < |pts| ==> (m[k] <==> Covers(pts[k], ts))
  {
    seq(|pts|, k requires 0 <= k < |pts| => Covers(pts[k], ts))
  }

  /** The mask `t_4h <= t_1h`, with no upper bound. */
  function PrefixMask(pts: seq<int>, ts: int): (m: seq<bool>)
    ensures |m| == |pts| && forall k :: 0 <= k < |pts| ==> (m[k] <==> pts[k] <= ts)
  {
    seq(|pts|, k requires 0 <= k < |pts| => pts[k] <= ts)
  }

  /** `mask.any()` and `mask.idxmax()` together: the first position holding True, if any. */
  function IdxMax(mask: seq<bool>): (r: Option<nat>)
    ensures r.Some? <==> exists k :: 0 <= k < |mask| && mask[k]
    ensures r.Some? ==> r.value < |mask| && mask[r.value] && forall j :: 0 <= j < r.value ==> !mask[j]
  {
    if |mask| == 0 then None
    else if mask[0] then Some(0)
    else
      match IdxMax(mask[1..])
      case None => None
      case Some(k) => Some(k + 1)
  }

  /** The primary bar a secondary instant is matched to by the containment search. */
  function MatchOf(pts: seq<int>, ts: int): (r: Option<nat>)
    ensures r.Some? <==> exists k :: 0 <= k < |pts| && Covers(pts[k], ts)
    ensures r.Some? ==> r.value < |pts| && Covers(pts[r.value], ts)
    ensures r.Some? ==> forall j :: 0 <= j < r.value ==> !Covers(pts[j], ts)
  {
    var m := CoverMask(pts, ts);
    var r := IdxMax(m);
    assert r.Some? <==> exists k :: 0 <= k < |pts| && Covers(pts[k], ts) by {
      if exists k :: 0 <= k < |pts| && Covers(pts[k], ts) {
        var k :| 0 <= k < |pts| && Covers(pts[k], ts);
        assert m[k];
      }
    }
    r
  }

  /** The primary bar the prefix search picks: the first bar not after the instant. */
  function PrefixMatchOf(pts: seq<int>, ts: int): (r: Option<nat>)
    ensures r.Some? <==> exists k :: 0 <= k < |pts| && pts[k] <= ts
    ensures r.Some? ==> r.value < |pts| && pts[r.value] <= ts
    ensures r.Some? ==> forall j :: 0 <= j < r.value ==> pts[j] > ts
  {
    var m := PrefixMask(pts, ts);
    var r := IdxMax(m);
    assert r.Some? <==> exists k :: 0 <= k < |pts| && pts[k] <= ts by {
      if exists k :: 0 <= k < |pts| && pts[k] <= ts {
        var k :| 0 <= k < |pts| && pts[k] <= ts;
        assert m[k];
      }
    }
    r
  }

  /** Once the first 4h bar has opened, the prefix search always returns that bar, and with
      ordered bars it finds nothing before then. */
  lemma PrefixPicksFirstBar(pts: seq<int>, ts: int)
    requires forall i, j :: 0 <= i < j < |pts| ==> pts[i] <= pts[j]
    ensures |pts| > 0 && pts[0] <= ts ==> PrefixMatchOf(pts, ts) == Some(0)
    ensures PrefixMatchOf(pts, ts).Some? <==> |pts| > 0 && pts[0] <= ts
  {
    if PrefixMatchOf(pts, ts).Some? {
      var k := PrefixMatchOf(pts, ts).value;
      assert pts[0] <= pts[k];
    }
  }

  predicate StrictlyIncreasing(xs: seq<int>)
  {
    forall i, j :: 0 <= i < j < |xs| ==> xs[i] < xs[j]
  }

  predicate NonDecreasing(xs: seq<int>)
  {
    forall i, j :: 0 <= i < j < |xs| ==> xs[i] <= xs[j]
  }

  /**
   * The containment window is half-open: an instant exactly 4h after a bar opened is not
   * matched to that bar, and when the next bar opens at that instant it is matched there.
   */
  lemma BoundaryGoesToNextBar(pts: seq<int>, k: nat)
    requires StrictlyIncreasing(pts) && k + 1 < |pts| && pts[k + 1] == pts[k] + FourHours
    ensures MatchOf(pts, pts[k] + FourHours) == Some(k + 1)
  {
    assert Covers(pts[k + 1], pts[k] + FourHours);
  }

  /** With increasing primary bars, a later secondary instant never goes back to an earlier bar. */
  lemma MatchMonotone(pts: seq<int>, t1: int, t2: int)
    requires StrictlyIncreasing(pts) && t1 <= t2
    requires MatchOf(pts, t1).Some? && MatchOf(pts, t2).Some?
    ensures MatchOf(pts, t1).value <= MatchOf(pts, t2).value
  {
  }

  /**
   * The per-row search done with one forward pointer: for increasing primary bars and
   * time-ordered secondary rows, it finds the same bar for every row as the search over
   * the whole mask.
   */
  method ScanMatches(pts: seq<int>, sts: seq<int>) returns (ms: seq<Option<nat>>)
    requires StrictlyIncreasing(pts) && NonDecreasing(sts)
    ensures |ms| == |sts| && forall i :: 0 <= i < |sts| ==> ms[i] == MatchOf(pts, sts[i])
  {
    ms := [];
    var k := 0;
    for i := 0 to |sts|
      invariant |ms| == i && k <= |pts|
      invariant forall t :: 0 <= t < i ==> ms[t] == MatchOf(pts, sts[t])
      invariant i < |sts| ==> forall j :: 0 <= j < k ==> pts[j] + FourHours <= sts[i]
    {
      while k < |pts| && pts[k] + FourHours <= sts[i]
        invariant k <= |pts|
        invariant forall j :: 0 <= j < k ==> pts[j] + FourHours <= sts[i]
      {
        k := k + 1;
      }
      var found: Option<nat> := None;
      if k < |pts| && pts[k] <= sts[i] {
        found := Some(k);
      }
      assert found == MatchOf(pts, sts[i]);
      ms := ms + [found];
      if i + 1 < |sts| {
        assert sts[i] <= sts[i + 1];
      }
    }
  }

  /** `df['timestamp'] = pd.to_datetime(df['date'])` for a frame whose dates are timestamps. */
  predicate Dated(f: Frame)
  {
    f.Valid() && "date" in f.cols && forall i :: 0 <= i < |f.cols["date"]| ==> f.cols["date"][i].Time?
  }

  /** The frame with its `timestamp` helper column holding timestamps. */
  predicate Stamped(f: Frame)
  {
    f.Valid() && "timestamp" in f.cols && forall i :: 0 <= i < |f.cols["timestamp"]| ==> f.cols["timestamp"][i].Time?
  }

  function DateTimes(f: Frame): (ts: seq<int>)
    requires Dated(f)
    ensures |ts| == f.height && forall i :: 0 <= i < f.height ==> f.cols["date"][i] == Time(ts[i])
  {
    seq(f.height, i requires 0 <= i < f.height => f.cols["date"][i].minutes)
  }

  function Stamps(f: Frame): (ts: seq<int>)
    requires Stamped(f)
    ensures |ts| == f.height && forall i :: 0 <= i < f.height ==> f.cols["timestamp"][i] == Time(ts[i])
  {
    seq(f.height, i requires 0 <= i < f.height => f.cols["timestamp"][i].minutes)
  }

  /** Add the `timestamp` column, a copy of `date`. */
  function Stamp(f: Frame): (r: Frame)
    requires Dated(f)
    ensures Stamped(r) && r.height == f.height && Stamps(r) == DateTimes(f)
    ensures forall n :: n in r.cols <==> n in f.cols || n == "timestamp"
    ensures forall n :: n in f.cols && n != "timestamp" ==> r.cols[n] == f.cols[n]
    ensures "timestamp" in f.cols ==> r.names == f.names
  {
    WithColumn(f, "timestamp", f.cols["date"])
  }

  /** The error a lookup of a missing column raises. */
  datatype Error = KeyError(column: string)

  /** Which of the columns to copy the primary frame lacks. */
  function MissingMask(p: Frame, sources: seq<string>): (m: seq<bool>)
    ensures |m| == |sources| && forall j :: 0 <= j < |sources| ==> (m[j] <==> sources[j] !in p.cols)
  {
    seq(|sources|, j requires 0 <= j < |sources| => sources[j] !in p.cols)
  }

  /** The first column whose lookup in the primary row raises, if any. */
  function Missing(p: Frame, sources: seq<string>): (r: Option<nat>)
    ensures r.None? <==> forall j :: 0 <= j < |sources| ==> sources[j] in p.cols
    ensures r.Some? ==> r.value < |sources| && sources[r.value] !in p.cols
    ensures r.Some? ==> forall j :: 0 <= j < r.value ==> sources[j] in p.cols
  {
    var m := MissingMask(p, sources);
    var r := IdxMax(m);
    assert r.None? ==> forall j :: 0 <= j < |sources| ==> sources[j] in p.cols by {
      if r.None? {
        forall j | 0 <= j < |sources| ensures sources[j] in p.cols {
          assert !m[j];
        }
      }
    }
    r
  }

  /** A target cell after the copy: the matched bar's value, or what it held before. */
  predicate Replicated(p: Frame, pts: seq<int>, ts: int, source: string, before: Cell, after: Cell)
    requires p.Valid() && |pts| == p.height
  {
    match MatchOf(pts, ts)
    case None => after == before
    case Some(k) => source in p.cols && after == p.cols[source][k]
  }

  /** One target cell while the copy loop runs: replicated once the loop has passed it,
      otherwise as in `s`. */
  ghost predicate CellState(s: Frame, p: Frame, pts: seq<int>, sts: seq<int>, sources: seq<string>,
                            targets: seq<string>, ctx: seq<seq<Cell>>, row: nat, col: nat, j: nat, i: nat)
    requires s.Valid() && p.Valid() && |pts| == p.height && |sts| == s.height && |sources| == |targets|
    requires j < |targets| && i < s.height && targets[j] in s.cols
    requires |ctx| == |targets| && |ctx[j]| == s.height
  {
    if i < row || (i == row && j < col)
    then Replicated(p, pts, sts[i], sources[j], s.cols[targets[j]][i], ctx[j][i])
    else ctx[j][i] == s.cols[targets[j]][i]
  }

  /** The target columns while the copy loop runs, every cell in its state. */
  ghost predicate CopiedUpTo(s: Frame, p: Frame, pts: seq<int>, sts: seq<int>, sources: seq<string>,
                             targets: seq<string>, ctx: seq<seq<Cell>>, row: nat, col: nat)
    requires s.Valid() && p.Valid() && |pts| == p.height && |sts| == s.height && |sources| == |targets|
    requires forall j :: 0 <= j < |targets| ==> targets[j] in s.cols
  {
    && |ctx| == |targets|
    && (forall j :: 0 <= j < |ctx| ==> |ctx[j]| == s.height)
    && (forall j, i :: 0 <= j < |targets| && 0 <= i < s.height ==>
          CellState(s, p, pts, sts, sources, targets, ctx, row, col, j, i))
  }

  /** Writing the copy of one target cell of a matched row. */
  lemma CopyCell(s: Frame, p: Frame, pts: seq<int>, sts: seq<int>, sources: seq<string>,
                 targets: seq<string>, ctx: seq<seq<Cell>>, row: nat, col: nat)
    requires s.Valid() && p.Valid() && |pts| == p.height && |sts| == s.height && |sources| == |targets|
    requires forall j :: 0 <= j < |targets| ==> targets[j] in s.cols
    requires row < s.height && col < |sources| && MatchOf(pts, sts[row]).Some? && sources[col] in p.cols
    requires CopiedUpTo(s, p, pts, sts, sources, targets, ctx, row, col)
    ensures var v := p.cols[sources[col]][MatchOf(pts, sts[row]).value];
      CopiedUpTo(s, p, pts, sts, sources, targets, ctx[col := ctx[col][row := v]], row, col + 1)
  {
    var v := p.cols[sources[col]][MatchOf(pts, sts[row]).value];
    var next := ctx[col := ctx[col][row := v]];
    var col' := col + 1;
    forall j, i | 0 <= j < |targets| && 0 <= i < s.height
      ensures CellState(s, p, pts, sts, sources, targets, next, row, col', j, i)
    {
      assert CellState(s, p, pts, sts, sources, targets, ctx, row, col, j, i);
      if j != col || i != row {
        assert next[j][i] == ctx[j][i];
      }
    }
  }

  /** Moving on to the next row, once the current one is finished or unmatched. */
  lemma NextRow(s: Frame, p: Frame, pts: seq<int>, sts: seq<int>, sources: seq<string>,
                targets: seq<string>, ctx: seq<seq<Cell>>, row: nat, col: nat)
    requires s.Valid() && p.Valid() && |pts| == p.height && |sts| == s.height && |sources| == |targets|
    requires forall j :: 0 <= j < |targets| ==> targets[j] in s.cols
    requires row < s.height && (col == |targets| || (col == 0 && MatchOf(pts, sts[row]).None?))
    requires CopiedUpTo(s, p, pts, sts, sources, targets, ctx, row, col)
    ensures CopiedUpTo(s, p, pts, sts, sources, targets, ctx, row + 1, 0)
  {
    var row' := row + 1;
    forall j, i | 0 <= j < |targets| && 0 <= i < s.height
      ensures CellState(s, p, pts, sts, sources, targets, ctx, row', 0, j, i)
    {
      assert CellState(s, p, pts, sts, sources, targets, ctx, row, col, j, i);
    }
  }

  /** The frame after the copy loop: only the target columns changed, cell by cell as replicated. */
  ghost predicate Copied(s: Frame, p: Frame, sources: seq<string>, targets: seq<string>, r: Frame)
    requires Stamped(s) && Stamped(p) && |sources| == |targets|
    requires forall j :: 0 <= j < |targets| ==> targets[j] in s.cols
  {
    && r.Valid() && r.height == s.height && r.names == s.names
    && (forall n :: n in r.cols <==> n in s.cols)
    && (forall n :: n in s.cols && n !in targets ==> r.cols[n] == s.cols[n])
    && (forall j, i :: 0 <= j < |targets| && 0 <= i < s.height ==>
          Replicated(p, Stamps(p), Stamps(s)[i], sources[j], s.cols[targets[j]][i], r.cols[targets[j]][i]))
  }

  /**
   * The per-row loop of the two `sincronizar_primary_secondary` routines: for every
   * secondary row whose instant lies in a primary bar, the first such bar's `sources`
   * values go to the row's `targets`; a source the primary frame lacks raises KeyError at
   * the first matched row. Rows are never added, removed or reordered. The target columns
   * are updated apart from the frame and assigned back once the loop ends; the loop reads
   * only the primary frame and the `timestamp` column, so this changes nothing.
   */
  method CopyRows(s: Frame, p: Frame, sources: seq<string>, targets: seq<string>) returns (r: Result<Frame, Error>)
    requires Stamped(s) && Stamped(p) && |sources| == |targets| && Distinct(targets)
    requires forall j :: 0 <= j < |targets| ==> targets[j] in s.cols
    ensures r.Err? <==>
      (Missing(p, sources).Some? && exists i :: 0 <= i < s.height && MatchOf(Stamps(p), Stamps(s)[i]).Some?)
    ensures r.Err? ==> r.error == KeyError(sources[Missing(p, sources).value])
    ensures r.Ok? ==> Copied(s, p, sources, targets, r.value)
  {
    var pts, sts := Stamps(p), Stamps(s);
    var ctx := seq(|targets|, j requires 0 <= j < |targets| => s.cols[targets[j]]);
    for idx := 0 to s.height
      invariant CopiedUpTo(s, p, pts, sts, sources, targets, ctx, idx, 0)
      invariant forall i :: 0 <= i < idx ==> MatchOf(pts, sts[i]).None? || Missing(p, sources).None?
    {
      var res := CopyRow(s, p, pts, sts, sources, targets, ctx, idx);
      if res.Err? {
        return Err(res.error);
      }
      ctx := res.value;
    }
    Assembled(s, p, sources, targets, ctx);
    return Ok(AddColumns(s, targets, ctx));
  }

  /** One secondary row of the loop: search the primary bars, then copy column by column. */
  method CopyRow(s: Frame, p: Frame, pts: seq<int>, sts: seq<int>, sources: seq<string>,
                 targets: seq<string>, ctx: seq<seq<Cell>>, idx: nat) returns (res: Result<seq<seq<Cell>>, Error>)
    requires Stamped(s) && Stamped(p) && |sources| == |targets| && pts == Stamps(p) && sts == Stamps(s)
    requires forall j :: 0 <= j < |targets| ==> targets[j] in s.cols
    requires idx < s.height && CopiedUpTo(s, p, pts, sts, sources, targets, ctx, idx, 0)
    ensures res.Err? <==> MatchOf(pts, sts[idx]).Some? && Missing(p, sources).Some?
    ensures res.Err? ==> res.error == KeyError(sources[Missing(p, sources).value])
    ensures res.Ok? ==> CopiedUpTo(s, p, pts, sts, sources, targets, res.value, idx + 1, 0)
  {
    var ts := s.cols["timestamp"][idx].minutes;
    assert ts == sts[idx];
    var primaryIdx := IdxMax(CoverMask(pts, ts));
    var next := ctx;
    if primaryIdx.Some? {
      var k := primaryIdx.value;
      for j := 0 to |sources|
        invariant CopiedUpTo(s, p, pts, sts, sources, targets, next, idx, j)
        invariant forall t :: 0 <= t < j ==> sources[t] in p.cols
      {
        if sources[j] !in p.cols {
          assert Missing(p, sources) == Some(j);
          return Err(KeyError(sources[j]));
        }
        CopyCell(s, p, pts, sts, sources, targets, next, idx, j);
        next := next[j := next[j][idx := p.cols[sources[j]][k]]];
      }
      NextRow(s, p, pts, sts, sources, targets, next, idx, |sources|);
    } else {
      NextRow(s, p, pts, sts, sources, targets, next, idx, 0);
    }
    return Ok(next);
  }

  /** Assigning the finished target columns back gives the copied frame. */
  lemma Assembled(s: Frame, p: Frame, sources: seq<string>, targets: seq<string>, ctx: seq<seq<Cell>>)
    requires Stamped(s) && Stamped(p) && |sources| == |targets| && Distinct(targets)
    requires forall j :: 0 <= j < |targets| ==> targets[j] in s.cols
    requires CopiedUpTo(s, p, Stamps(p), Stamps(s), sources, targets, ctx, s.height, 0)
    ensures Copied(s, p, sources, targets, AddColumns(s, targets, ctx))
  {
    DistinctConsistent(targets, ctx);
    var f := AddColumns(s, targets, ctx);
    AddColumnsOrder(s, targets, ctx);
    forall n | n in s.cols && n !in targets ensures f.cols[n] == s.cols[n] {
      AddColumnsKeeps(s, targets, ctx, n);
    }
    var pts, sts := Stamps(p), Stamps(s);
    forall j, i | 0 <= j < |targets| && 0 <= i < s.height
      ensures Replicated(p, pts, sts[i], sources[j], s.cols[targets[j]][i], f.cols[targets[j]][i])
    {
      AddColumnsHolds(s, targets, ctx, j);
      assert CellState(s, p, pts, sts, sources, targets, ctx, s.height, 0, j, i);
    }
  }

  /** `r` is `s` with each of `targets` assigned a column of None. */
  ghost predicate NullsAdded(s: Frame, r: Frame, targets: seq<string>)
  {
    && s.Valid() && r.Valid() && r.height == s.height
    && (forall n :: n in r.cols <==> n in s.cols || n in targets)
    && (forall n :: n in s.cols && n !in targets ==> r.cols[n] == s.cols[n])
    && (forall n :: n in targets ==> r.cols[n] == Nulls(s.height))
  }

  lemma NullsAddedStep(s: Frame, r: Frame, targets: seq<string>, t: string)
    requires NullsAdded(s, r, targets)
    ensures NullsAdded(s, WithColumn(r, t, Nulls(r.height)), targets + [t])
  {
    var r' := WithColumn(r, t, Nulls(r.height));
    var ts := targets + [t];
    assert r'.cols == r.cols[t := Nulls(s.height)];
    forall n ensures n in ts <==> n in targets || n == t {
      if n in ts {
        var k :| 0 <= k < |ts| && ts[k] == n;
        if k < |targets| {
          assert targets[k] == n;
        }
      }
    }
  }

  /** A context cell of secondary row i: column c of the first primary bar containing the
      row, None when no bar contains it. */
  predicate ContextCell(p: Frame, s: Frame, c: string, i: nat, v: Cell)
    requires Dated(p) && Dated(s) && i < s.height
  {
    match MatchOf(DateTimes(p), DateTimes(s)[i])
    case None => v == Null
    case Some(k) => c in p.cols && v == p.cols[c][k]
  }

  /** A whole context column. */
  predicate ContextColumn(p: Frame, s: Frame, c: string, col: seq<Cell>)
    requires Dated(p) && Dated(s)
  {
    |col| == s.height && forall i :: 0 <= i < s.height ==> ContextCell(p, s, c, i, col[i])
  }

  /** After the copy loop each target column is the replicated primary column. */
  lemma ContextCopied(p: Frame, s: Frame, p1: Frame, s2: Frame, s3: Frame, sources: seq<string>, targets: seq<string>)
    requires Dated(p) && Dated(s) && Stamped(p1) && Stamped(s2) && s2.height == s.height
    requires Stamps(s2) == DateTimes(s) && Stamps(p1) == DateTimes(p)
    requires |sources| == |targets|
    requires forall j :: 0 <= j < |targets| ==> targets[j] in s2.cols && s2.cols[targets[j]] == Nulls(s.height)
    requires forall j :: 0 <= j < |sources| ==> (sources[j] in p1.cols <==> sources[j] in p.cols)
    requires forall j :: 0 <= j < |sources| && sources[j] in p.cols ==> p1.cols[sources[j]] == p.cols[sources[j]]
    requires Copied(s2, p1, sources, targets, s3)
    ensures forall j :: 0 <= j < |targets| ==>
      targets[j] in s3.cols && ContextColumn(p, s, sources[j], s3.cols[targets[j]])
  {
    forall j | 0 <= j < |targets| ensures targets[j] in s3.cols && ContextColumn(p, s, sources[j], s3.cols[targets[j]]) {
      forall i | 0 <= i < s.height ensures ContextCell(p, s, sources[j], i, s3.cols[targets[j]][i]) {
        assert Replicated(p1, Stamps(p1), Stamps(s2)[i], sources[j], s2.cols[targets[j]][i], s3.cols[targets[j]][i]);
      }
    }
  }

  /** `indicators.calculate_all_indicators(df)` with its default parameters, as every
      synchronizer calls it. */
  function AllIndicators(df: Frame): (r: Frame)
    requires TI.IsBarFrame(df)
  {
    assert TI.PositivePeriods(TI.EmaPeriods(None));
    TI.IndicatorFrame(df, None, 14, 18)
  }

  /** The call `indicators.calculate_all_indicators(df)` each synchronizer makes. */
  method ComputeIndicators(df: Frame) returns (r: Frame)
    requires TI.IsBarFrame(df)
    ensures r == AllIndicators(df)
  {
    r := TI.CalculateAllIndicators(df, None, 14, 14, 18, 18, 2.0, 18, 1.5, true);
  }

  /** The indicator frame keeps the input's columns that are not indicator names, `date` among them. */
  lemma AllIndicatorsKeep(df: Frame)
    requires TI.IsBarFrame(df)
    ensures AllIndicators(df).Valid() && AllIndicators(df).height == df.height
    ensures forall n :: n in df.cols && TI.Unassigned(n) ==> n in AllIndicators(df).cols && AllIndicators(df).cols[n] == df.cols[n]
    ensures Dated(df) ==> Dated(AllIndicators(df)) && DateTimes(AllIndicators(df)) == DateTimes(df)
  {
    assert TI.PositivePeriods(TI.EmaPeriods(None));
    TI.BarNamesUnassigned();
    var r := AllIndicators(df);
    forall n | n in df.cols && TI.Unassigned(n) ensures n in r.cols && r.cols[n] == df.cols[n] {
      TI.IndicatorKeeps(df, None, 14, 18, n);
    }
    if Dated(df) {
      forall i | 0 <= i < df.height ensures DateTimes(r)[i] == DateTimes(df)[i] {
      }
    }
  }

  /** The default indicator frame adds exactly the three default EMAs and the fixed indicator columns. */
  lemma AllIndicatorsNames(df: Frame)
    requires TI.IsBarFrame(df)
    ensures forall n :: n in AllIndicators(df).cols <==>
      n in df.cols || n in ["ema10", "ema55", "ema200"] || n in TI.IndicatorNames
  {
    TI.DefaultEmaNames();
    var ps := TI.EmaPeriods(None);
    assert TI.AddedNames(ps) == ["ema10", "ema55", "ema200"] + TI.IndicatorNames;
  }
}
