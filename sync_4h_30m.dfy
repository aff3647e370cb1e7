/**
 * `MultitemporalPipeline4H30m.sincronizar_primary_secondary`: every 30m (secondary) row
 * receives a fixed list of eleven `*_primary` columns from the 4H (primary) bar whose four
 * hours contain it. The secondary's own columns keep their names and the helper
 * `timestamp` column is dropped.
 *
 * The eleventh copy reads `rsi`, a column the indicator engine never creates: as written
 * the routine raises KeyError at the first secondary row that some primary bar contains.
 * `SynchronizePrimarySecondary` models that; `SynchronizeCorrected` copies the ten columns
 * that exist and leaves `rsi_primary` None.
 */
module Sync4H30m {
  import opened Wrappers
  import opened Frames
  import opened Alignment
  import Strings
  import TI = TechnicalIndicators

  /** The primary column each context column is read from (lines 87-97). */
  const SourceColumns: seq<string> :=
    ["close", "high", "low", "open", "ema10", "ema55", "ema200", "smi", "adx", "atr", "rsi"]

  function PrimaryName(c: string): string
  {
    c + "_primary"
  }

  /** The names of lines 62-66: each source's name with the `_primary` suffix, in the order
      the copy writes them. */
  function PrimaryNames(sources: seq<string>): (r: seq<string>)
    ensures |r| == |sources| && forall j :: 0 <= j < |sources| ==> r[j] == PrimaryName(sources[j])
    ensures Distinct(sources) ==> Distinct(r)
    ensures "timestamp" !in r
  {
    var r := seq(|sources|, j requires 0 <= j < |sources| => PrimaryName(sources[j]));
    assert Distinct(sources) ==> Distinct(r) by {
      if Distinct(sources) {
        forall i, j | 0 <= i < j < |r| ensures r[i] != r[j] {
          if r[i] == r[j] {
            Strings.AppendCancel(sources[i], sources[j], "_primary");
          }
        }
      }
    }
    assert "timestamp" !in r by {
      forall j | 0 <= j < |r| ensures r[j] != "timestamp" {
        var n := r[j];
        if |n| == 9 {
          assert n[|sources[j]|] == '_' && "timestamp"[1] == 'i';
        }
      }
    }
    r
  }

  const ContextColumns: seq<string> := PrimaryNames(SourceColumns)

  /** The sources are eleven distinct names, none of them `timestamp`. */
  lemma SourceColumnsFresh()
    ensures |SourceColumns| == |ContextColumns| == 11
    ensures Distinct(SourceColumns) && Distinct(ContextColumns)
    ensures "timestamp" !in SourceColumns && "timestamp" !in ContextColumns
  {
    var ss := SourceColumns;
    assert |ss[0]| == 5 && |ss[1]| == 4 && |ss[2]| == 3 && |ss[3]| == 4 && |ss[4]| == 5 && |ss[5]| == 5;
    assert |ss[6]| == 6 && |ss[7]| == 3 && |ss[8]| == 3 && |ss[9]| == 3 && |ss[10]| == 3;
    assert ss[0][0] == 'c' && ss[1][0] == 'h' && ss[2][0] == 'l' && ss[3][0] == 'o' && ss[4][0] == 'e';
    assert ss[5][0] == 'e' && ss[7][0] == 's' && ss[8][0] == 'a' && ss[9][0] == 'a' && ss[10][0] == 'r';
    assert ss[4][3] == '1' && ss[5][3] == '5' && ss[8][1] == 'd' && ss[9][1] == 't';
  }

  /** Lines 68-69: every context column starts as None. */
  method InitContext(s: Frame, targets: seq<string>) returns (r: Frame)
    requires s.Valid()
    ensures NullsAdded(s, r, targets)
  {
    r := s;
    for i := 0 to |targets|
      invariant NullsAdded(s, r, targets[..i])
    {
      NullsAddedStep(s, r, targets[..i], targets[i]);
      assert targets[..i + 1] == targets[..i] + [targets[i]];
      r := WithColumn(r, targets[i], Nulls(r.height));
    }
    assert targets[..|targets|] == targets;
  }

  /**
   * The result when `sources` are copied into the first context columns `targets`: the
   * secondary rows in their order, its columns unchanged apart from the dropped
   * `timestamp`, the copied context columns replicated from the containing primary bar,
   * the remaining ones None.
   */
  ghost predicate Synced(p: Frame, s: Frame, targets: seq<string>, sources: seq<string>, r: Frame)
    requires Dated(p) && Dated(s) && |sources| <= |targets|
  {
    && r.Valid() && r.height == s.height
    && (forall n :: n in r.cols <==> (n in s.cols || n in targets) && n != "timestamp")
    && (forall n :: n in s.cols && n != "timestamp" && n !in targets ==> r.cols[n] == s.cols[n])
    && (forall j :: 0 <= j < |sources| ==>
          targets[j] in r.cols && ContextColumn(p, s, sources[j], r.cols[targets[j]]))
    && (forall j :: |sources| <= j < |targets| ==>
          targets[j] in r.cols && r.cols[targets[j]] == Nulls(s.height))
  }

  /** Some secondary row lies in some primary bar. */
  predicate AnyMatch(p: Frame, s: Frame)
    requires Dated(p) && Dated(s)
  {
    exists i :: 0 <= i < s.height && MatchOf(DateTimes(p), DateTimes(s)[i]).Some?
  }

  /** Lines 58-100 on the indicator frames: stamp, add the None context columns, copy
      `sources` into the first of them row by row, drop `timestamp`. */
  method CopyContext(p: Frame, s: Frame, targets: seq<string>, sources: seq<string>) returns (r: Result<Frame, Error>)
    requires Dated(p) && Dated(s) && |sources| <= |targets| && Distinct(targets)
    requires "timestamp" !in targets && "timestamp" !in sources
    ensures r.Err? <==> Missing(p, sources).Some? && AnyMatch(p, s)
    ensures r.Err? ==> r.error == KeyError(sources[Missing(p, sources).value])
    ensures r.Ok? ==> Synced(p, s, targets, sources, r.value)
  {
    var copied := targets[..|sources|];
    var s1 := Stamp(s);
    var p1 := Stamp(p);
    var s2 := InitContext(s1, targets);
    StampedSources(p, p1, sources);
    NullTargets(s, s1, s2, targets, sources);
    var res := CopyRows(s2, p1, sources, copied);
    if res.Err? {
      return Err(res.error);
    }
    var s3 := res.value;
    ContextCopied(p, s, p1, s2, s3, sources, copied);
    var out := Drop(s3, "timestamp");
    Finished(p, s, s1, s2, s3, out, targets, sources);
    return Ok(out);
  }

  /** The stamped primary frame reads the same sources as the indicator frame. */
  lemma StampedSources(p: Frame, p1: Frame, sources: seq<string>)
    requires Dated(p) && p1 == Stamp(p) && "timestamp" !in sources
    ensures Missing(p1, sources) == Missing(p, sources)
    ensures forall j :: 0 <= j < |sources| ==> (sources[j] in p1.cols <==> sources[j] in p.cols)
    ensures forall j :: 0 <= j < |sources| && sources[j] in p.cols ==> p1.cols[sources[j]] == p.cols[sources[j]]
  {
    forall j | 0 <= j < |sources| ensures sources[j] in p1.cols <==> sources[j] in p.cols {
      assert sources[j] in sources;
    }
    assert MissingMask(p1, sources) == MissingMask(p, sources);
  }

  /** The stamped secondary frame with its None context columns, before the copy loop. */
  lemma NullTargets(s: Frame, s1: Frame, s2: Frame, targets: seq<string>, sources: seq<string>)
    requires Dated(s) && s1 == Stamp(s)
    requires |sources| <= |targets| && Distinct(targets) && "timestamp" !in targets
    requires NullsAdded(s1, s2, targets)
    ensures Stamped(s2) && Stamps(s2) == DateTimes(s)
    ensures Distinct(targets[..|sources|])
    ensures forall j :: 0 <= j < |targets| ==> targets[j] in s2.cols && s2.cols[targets[j]] == Nulls(s.height)
    ensures forall j :: 0 <= j < |sources| ==> targets[..|sources|][j] in s2.cols && s2.cols[targets[..|sources|][j]] == Nulls(s.height)
  {
    assert s2.cols["timestamp"] == s1.cols["timestamp"];
    forall i | 0 <= i < s2.height ensures Stamps(s2)[i] == DateTimes(s)[i] {
    }
    forall j | 0 <= j < |targets| ensures targets[j] in s2.cols && s2.cols[targets[j]] == Nulls(s.height) {
      assert targets[j] in targets;
    }
  }

  /** The frame after the copy loop and the drop. */
  lemma Finished(p: Frame, s: Frame, s1: Frame, s2: Frame, s3: Frame, r: Frame, targets: seq<string>, sources: seq<string>)
    requires Dated(p) && Dated(s) && s1 == Stamp(s) && |sources| <= |targets| && Distinct(targets)
    requires "timestamp" !in targets
    requires NullsAdded(s1, s2, targets)
    requires s3.Valid() && s3.height == s2.height && "timestamp" in s3.cols
    requires forall n :: n in s3.cols <==> n in s2.cols
    requires forall n :: n in s2.cols && n !in targets[..|sources|] ==> s3.cols[n] == s2.cols[n]
    requires forall j :: 0 <= j < |sources| ==>
      targets[..|sources|][j] in s3.cols && ContextColumn(p, s, sources[j], s3.cols[targets[..|sources|][j]])
    requires r == Drop(s3, "timestamp")
    ensures Synced(p, s, targets, sources, r)
  {
    var copied := targets[..|sources|];
    forall j | |sources| <= j < |targets| ensures targets[j] in r.cols && r.cols[targets[j]] == Nulls(s.height) {
      assert targets[j] in targets;
    }
    forall j | 0 <= j < |sources|
      ensures targets[j] in r.cols && ContextColumn(p, s, sources[j], r.cols[targets[j]])
    {
      assert copied[j] == targets[j];
    }
    assert forall n :: n in copied ==> n in targets;
  }

  /** With the ten bar and indicator columns present, the eleven reads fail only at `rsi`. */
  lemma MissingSources(q: Frame)
    requires "close" in q.cols && "high" in q.cols && "low" in q.cols && "open" in q.cols
    requires "ema10" in q.cols && "ema55" in q.cols && "ema200" in q.cols
    requires "smi" in q.cols && "adx" in q.cols && "atr" in q.cols
    ensures Missing(q, SourceColumns[..10]).None?
    ensures Missing(q, SourceColumns) == if "rsi" in q.cols then None else Some(10)
  {
    var ss := SourceColumns;
    assert forall j :: 0 <= j < 10 ==> ss[j] in q.cols;
    assert forall j :: 0 <= j < 10 ==> ss[..10][j] in q.cols;
    assert ss[10] == "rsi";
    if "rsi" !in q.cols {
      assert MissingMask(q, ss)[10];
    }
  }

  /** `rsi` is neither a default EMA nor a fixed indicator name. */
  lemma RsiNotComputed()
    ensures "rsi" !in ["ema10", "ema55", "ema200"] && "rsi" !in TI.IndicatorNames
  {
    var ns := TI.IndicatorNames;
    assert ns[0][0] == 'a' && ns[1][0] == 'a' && ns[2][0] == 's';
    assert |ns[3]| == 16 && |ns[4]| == 13 && |ns[5]| == 21;
  }

  /** A frame holding the bars, the default EMAs and the fixed indicator columns has the
      ten sources, and `rsi` only when the bars brought it. */
  lemma Present(df: Frame, q: Frame)
    requires TI.IsBarFrame(df)
    requires forall n :: n in q.cols <==> n in df.cols || n in ["ema10", "ema55", "ema200"] || n in TI.IndicatorNames
    ensures "close" in q.cols && "high" in q.cols && "low" in q.cols && "open" in q.cols
    ensures "ema10" in q.cols && "ema55" in q.cols && "ema200" in q.cols
    ensures "smi" in q.cols && "adx" in q.cols && "atr" in q.cols
    ensures "rsi" in q.cols <==> "rsi" in df.cols
  {
    RsiNotComputed();
    var ns := TI.IndicatorNames;
    assert "adx" == ns[0] && "atr" == ns[1] && "smi" == ns[2];
  }

  /** The default indicator frame of a bar frame: the first ten reads succeed, and the
      eleventh fails exactly when the bars have no `rsi` column. */
  lemma IndicatorSources(df: Frame)
    requires TI.IsBarFrame(df)
    ensures Missing(AllIndicators(df), SourceColumns[..10]).None?
    ensures Missing(AllIndicators(df), SourceColumns) == if "rsi" in df.cols then None else Some(10)
  {
    var q := AllIndicators(df);
    AllIndicatorsNames(df);
    Present(df, q);
    MissingSources(q);
  }

  /** The indicator frames keep the raw dates, so they match the same rows. */
  lemma SameMatches(primary: Frame, secondary: Frame, p: Frame, s: Frame)
    requires Dated(primary) && Dated(secondary) && Dated(p) && Dated(s)
    requires DateTimes(p) == DateTimes(primary) && DateTimes(s) == DateTimes(secondary)
    ensures AnyMatch(p, s) <==> AnyMatch(primary, secondary)
  {
  }

  /** `sincronizar_primary_secondary` as written (lines 45-102): the indicators of both
      frames, then all eleven copies. It fails with KeyError('rsi') exactly when the raw
      primary frame has no `rsi` column and some secondary row lies in a primary bar. */
  method SynchronizePrimarySecondary(primary: Frame, secondary: Frame) returns (r: Result<Frame, Error>)
    requires TI.IsBarFrame(primary) && Dated(primary) && TI.IsBarFrame(secondary) && Dated(secondary)
    ensures r.Err? <==> "rsi" !in primary.cols && AnyMatch(primary, secondary)
    ensures r.Err? ==> r.error == KeyError("rsi")
    ensures Dated(AllIndicators(primary)) && Dated(AllIndicators(secondary))
    ensures r.Ok? ==> Synced(AllIndicators(primary), AllIndicators(secondary), ContextColumns, SourceColumns, r.value)
  {
    AllIndicatorsKeep(primary);
    AllIndicatorsKeep(secondary);
    IndicatorSources(primary);
    SourceColumnsFresh();
    var p := ComputeIndicators(primary);
    var s := ComputeIndicators(secondary);
    SameMatches(primary, secondary, p, s);
    r := CopyContext(p, s, ContextColumns, SourceColumns);
  }

  /** Lines 87-96 without the `rsi` read: the routine always succeeds, the ten existing
      columns are replicated and `rsi_primary` stays None. */
  method SynchronizeCorrected(primary: Frame, secondary: Frame) returns (r: Frame)
    requires TI.IsBarFrame(primary) && Dated(primary) && TI.IsBarFrame(secondary) && Dated(secondary)
    ensures Dated(AllIndicators(primary)) && Dated(AllIndicators(secondary))
    ensures Synced(AllIndicators(primary), AllIndicators(secondary), ContextColumns, SourceColumns[..10], r)
  {
    AllIndicatorsKeep(primary);
    AllIndicatorsKeep(secondary);
    IndicatorSources(primary);
    SourceColumnsFresh();
    var p := ComputeIndicators(primary);
    var s := ComputeIndicators(secondary);
    assert "timestamp" !in SourceColumns[..10];
    var res := CopyContext(p, s, ContextColumns, SourceColumns[..10]);
    r := res.value;
  }
}
