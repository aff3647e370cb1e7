/**
 * `MultitemporalPipeline4H1H.sincronizar_primary_secondary`: every 1H (secondary) row
 * receives, as `{col}_4h`, every column of the 4H (primary) bar whose four hours contain
 * it; the secondary's own columns are renamed `{col}_1h`; `date` keeps its name and the
 * helper `timestamp` column is dropped.
 */
module Sync4H1H {
  import opened Wrappers
  import opened Frames
  import opened Strings
  import opened Alignment
  import TI = TechnicalIndicators

  /** Primary columns replicated into the secondary frame: all but the two time columns. */
  predicate Copies(c: string)
  {
    c != "date" && c != "timestamp"
  }

  /** Secondary columns that get the `_1h` suffix: all but the time columns and the
      `_4h` context columns. */
  predicate Renames(n: string)
  {
    Copies(n) && !EndsWith(n, "_4h")
  }

  function ContextName(c: string): (n: string)
    ensures EndsWith(n, "_4h")
  {
    EndsWithAppend(c, "_4h");
    c + "_4h"
  }

  function SecondaryName(n: string): (r: string)
    ensures EndsWith(r, "_1h")
  {
    EndsWithAppend(n, "_1h");
    n + "_1h"
  }

  /** The primary columns the loops visit, in the primary frame's column order. */
  function ContextSources(names: seq<string>): (r: seq<string>)
    ensures forall c :: c in r <==> c in names && Copies(c)
    ensures Distinct(names) ==> Distinct(r)
  {
    if |names| == 0 then []
    else
      var k := |names| - 1;
      assert forall c :: c in names <==> c in names[..k] || c == names[k];
      assert Distinct(names) ==> Distinct(names[..k]) && names[k] !in names[..k];
      ContextSources(names[..k]) + (if Copies(names[k]) then [names[k]] else [])
  }

  /** Their `_4h` names. */
  function ContextNames(sources: seq<string>): (r: seq<string>)
    ensures |r| == |sources| && forall j :: 0 <= j < |sources| ==> r[j] == ContextName(sources[j])
    ensures Distinct(sources) ==> Distinct(r)
  {
    var r := seq(|sources|, j requires 0 <= j < |sources| => ContextName(sources[j]));
    assert Distinct(sources) ==> Distinct(r) by {
      if Distinct(sources) {
        forall i, j | 0 <= i < j < |r| ensures r[i] != r[j] {
          if r[i] == r[j] {
            AppendCancel(sources[i], sources[j], "_4h");
          }
        }
      }
    }
    r
  }

  /** A `_4h` name is neither a time column nor a renamed one. */
  lemma ContextNameKept(c: string)
    ensures Copies(ContextName(c)) && !Renames(ContextName(c))
  {
    var n := ContextName(c);
    assert n[|n| - 3] == '_' && n[|n| - 2] == '4';
    assert "date"[1] == 'a' && "timestamp"[6] == 'a';
  }

  /** A `_1h` name is neither a time column nor a `_4h` column. */
  lemma SecondaryNameFresh(n: string)
    ensures Renames(SecondaryName(n))
  {
    var r := SecondaryName(n);
    assert r[|r| - 3] == '_' && r[|r| - 2] == '1';
    assert "date"[1] == 'a' && "timestamp"[6] == 'a';
  }

  /** Lines 65-67: `df[f'{col}_4h'] = None` for each primary column but the time columns. */
  method AddContextColumns(s: Frame, names: seq<string>) returns (r: Frame)
    requires s.Valid()
    ensures NullsAdded(s, r, ContextNames(ContextSources(names)))
  {
    r := s;
    ghost var targets: seq<string> := [];
    for i := 0 to |names|
      invariant targets == ContextNames(ContextSources(names[..i]))
      invariant NullsAdded(s, r, targets)
    {
      ContextSourcesStep(names, i);
      if Copies(names[i]) {
        NullsAddedStep(s, r, targets, ContextName(names[i]));
        r := WithColumn(r, ContextName(names[i]), Nulls(r.height));
        targets := targets + [ContextName(names[i])];
      }
    }
    assert names[..|names|] == names;
  }

  /** One more visited primary column adds at most its own `_4h` name. */
  lemma ContextSourcesStep(names: seq<string>, i: nat)
    requires i < |names|
    ensures ContextNames(ContextSources(names[..i + 1])) ==
      ContextNames(ContextSources(names[..i])) + (if Copies(names[i]) then [ContextName(names[i])] else [])
  {
    assert names[..i + 1][..i] == names[..i];
  }

  /** Lines 90-95: every secondary column other than the time and `_4h` columns maps
      to `{col}_1h`. */
  method BuildRenameMap(names: seq<string>) returns (m: map<string, string>)
    ensures forall n :: n in m <==> n in names && Renames(n)
    ensures forall n :: n in m ==> m[n] == SecondaryName(n)
  {
    m := map[];
    for i := 0 to |names|
      invariant forall n :: n in m <==> n in names[..i] && Renames(n)
      invariant forall n :: n in m ==> m[n] == SecondaryName(n)
    {
      assert forall n :: n in names[..i + 1] <==> n in names[..i] || n == names[i];
      if Renames(names[i]) {
        m := m[names[i] := SecondaryName(names[i])];
      }
    }
    assert names[..|names|] == names;
  }

  /** The renaming never makes two columns share a name. */
  lemma RenamedDistinct(names: seq<string>, m: map<string, string>)
    requires Distinct(names)
    requires forall n :: n in m <==> n in names && Renames(n)
    requires forall n :: n in m ==> m[n] == SecondaryName(n)
    ensures Distinct(Renamed(names, m))
  {
    var rn := Renamed(names, m);
    forall i, j | 0 <= i < j < |rn| ensures rn[i] != rn[j] {
      var a, b := names[i], names[j];
      if a in m && b in m {
        if rn[i] == rn[j] {
          AppendCancel(a, b, "_1h");
        }
      } else if a in m {
        SecondaryNameFresh(a);
      } else if b in m {
        SecondaryNameFresh(b);
      }
    }
  }

  /** The names a result column can have. */
  predicate ResultName(n: string)
  {
    n == "date" || EndsWith(n, "_1h") || EndsWith(n, "_4h")
  }

  /**
   * What the routine returns for the indicator frames `p` (4H) and `s` (1H): the
   * secondary rows in their order, `date` unchanged, each secondary column renamed
   * `{col}_1h` with its values, each primary column replicated as `{col}_4h`, no
   * `timestamp`, and no other names.
   */
  ghost predicate Synchronized(p: Frame, s: Frame, r: Frame)
    requires Dated(p) && Dated(s)
  {
    && r.Valid() && r.height == s.height
    && "timestamp" !in r.cols
    && "date" in r.cols && r.cols["date"] == s.cols["date"]
    && (forall n :: n in s.cols && Renames(n) ==>
          SecondaryName(n) in r.cols && r.cols[SecondaryName(n)] == s.cols[n])
    && (forall c :: c in p.cols && Copies(c) ==>
          ContextName(c) in r.cols && ContextColumn(p, s, c, r.cols[ContextName(c)]))
    && (forall n :: n in r.cols ==> ResultName(n))
  }

  /** `sincronizar_primary_secondary` (lines 45-102): the indicators of both frames, then
      the synchronisation. */
  method SynchronizePrimarySecondary(primary: Frame, secondary: Frame) returns (r: Frame)
    requires TI.IsBarFrame(primary) && Dated(primary) && TI.IsBarFrame(secondary) && Dated(secondary)
    ensures Dated(AllIndicators(primary)) && Dated(AllIndicators(secondary))
    ensures Synchronized(AllIndicators(primary), AllIndicators(secondary), r)
  {
    assert TI.PositivePeriods(TI.EmaPeriods(None));
    AllIndicatorsKeep(primary);
    AllIndicatorsKeep(secondary);
    var p := ComputeIndicators(primary);
    var s := ComputeIndicators(secondary);
    r := Synchronize(p, s);
  }

  /** The closes of both frames reach the result: `close_1h` is the 1H close, and
      `close_4h` the close of the 4H bar containing the row, None where there is none. */
  lemma ClosesCarried(p: Frame, s: Frame, r: Frame, i: nat)
    requires Dated(p) && Dated(s) && "close" in p.cols && "close" in s.cols
    requires Synchronized(p, s, r) && i < s.height
    ensures "close_1h" in r.cols && r.cols["close_1h"] == s.cols["close"]
    ensures "close_4h" in r.cols && |r.cols["close_4h"]| == s.height
    ensures match MatchOf(DateTimes(p), DateTimes(s)[i])
      case None => r.cols["close_4h"][i] == Null
      case Some(k) => r.cols["close_4h"][i] == p.cols["close"][k]
  {
    assert Renames("close") by {
      assert "close"[2..] != "_4h";
    }
    assert SecondaryName("close") == "close_1h";
    assert ContextName("close") == "close_4h";
    assert ContextCell(p, s, "close", i, r.cols["close_4h"][i]);
  }

  /** The body of `sincronizar_primary_secondary` after the indicator calls (lines 58-102). */
  method Synchronize(p: Frame, s: Frame) returns (r: Frame)
    requires Dated(p) && Dated(s)
    ensures Synchronized(p, s, r)
  {
    var s3 := ReplicateContext(p, s);
    r := RenameSecondary(s3);
    forall c | c in p.cols && Copies(c)
      ensures ContextName(c) in r.cols && ContextColumn(p, s, c, r.cols[ContextName(c)])
    {
      ContextNameKept(c);
    }
  }

  /** Lines 58-87: stamp both frames, add the None `_4h` columns, run the copy loop. */
  method ReplicateContext(p: Frame, s: Frame) returns (s3: Frame)
    requires Dated(p) && Dated(s)
    ensures s3.Valid() && s3.height == s.height && "timestamp" in s3.cols
    ensures "date" in s3.cols && s3.cols["date"] == s.cols["date"]
    ensures forall n :: n in s.cols && Renames(n) ==> n in s3.cols && s3.cols[n] == s.cols[n]
    ensures forall c :: c in p.cols && Copies(c) ==>
      ContextName(c) in s3.cols && ContextColumn(p, s, c, s3.cols[ContextName(c)])
  {
    var s1 := Stamp(s);
    var p1 := Stamp(p);
    var sources := ContextSources(p1.names);
    var targets := ContextNames(sources);
    var s2 := AddContextColumns(s1, p1.names);
    Prepared(p, s, p1, s1, s2, sources, targets);
    var res := CopyRows(s2, p1, sources, targets);
    s3 := res.value;
    ContextCopied(p, s, p1, s2, s3, sources, targets);
    assert forall c :: c in p.cols && Copies(c) ==> c in sources by {
      forall c | c in p.cols && Copies(c) ensures c in sources {
        assert c in p1.names;
      }
    }
    Replicas(p, s, s3, sources, targets);
  }

  /** Lines 89-100: rename the secondary's own columns, then drop `timestamp`. */
  method RenameSecondary(s3: Frame) returns (r: Frame)
    requires s3.Valid() && "timestamp" in s3.cols
    ensures r.Valid() && r.height == s3.height && "timestamp" !in r.cols
    ensures forall n :: n in s3.cols && Renames(n) ==> SecondaryName(n) in r.cols && r.cols[SecondaryName(n)] == s3.cols[n]
    ensures forall n :: n in s3.cols && Copies(n) && !Renames(n) ==> n in r.cols && r.cols[n] == s3.cols[n]
    ensures "date" in s3.cols ==> "date" in r.cols && r.cols["date"] == s3.cols["date"]
    ensures forall n :: n in r.cols ==> ResultName(n)
  {
    var m := BuildRenameMap(s3.names);
    RenamedDistinct(s3.names, m);
    var s4 := Rename(s3, m);
    assert RenameOne(m, "timestamp") == "timestamp";
    r := Drop(s4, "timestamp");
    Renamings(s3, m, s4, r);
    ResultNames(s3, m, s4, r);
  }

  /** No context name is a time column or a renamed one. */
  lemma TargetsKept(targets: seq<string>, sources: seq<string>)
    requires targets == ContextNames(sources)
    ensures forall n :: n in targets ==> Copies(n) && !Renames(n)
  {
    forall n | n in targets ensures Copies(n) && !Renames(n) {
      var j :| 0 <= j < |targets| && targets[j] == n;
      ContextNameKept(sources[j]);
    }
  }

  /** The frames before the copy loop: both stamped, every target a fresh-None column,
      every source in the primary frame, the secondary's own columns as they came. */
  lemma Prepared(p: Frame, s: Frame, p1: Frame, s1: Frame, s2: Frame, sources: seq<string>, targets: seq<string>)
    requires Dated(p) && Dated(s) && p1 == Stamp(p) && s1 == Stamp(s)
    requires sources == ContextSources(p1.names) && targets == ContextNames(sources)
    requires NullsAdded(s1, s2, targets)
    ensures Stamped(p1) && Stamped(s2) && Stamps(s2) == DateTimes(s) && Stamps(p1) == DateTimes(p)
    ensures |sources| == |targets| && Distinct(targets)
    ensures forall j :: 0 <= j < |targets| ==> targets[j] in s2.cols && s2.cols[targets[j]] == Nulls(s.height)
    ensures forall j :: 0 <= j < |sources| ==> sources[j] in p.cols && sources[j] in p1.cols && p1.cols[sources[j]] == p.cols[sources[j]]
    ensures Missing(p1, sources).None?
    ensures forall n :: n in targets ==> Copies(n) && !Renames(n)
    ensures "date" in s2.cols && "date" !in targets && s2.cols["date"] == s.cols["date"]
    ensures forall n :: n in s.cols && Renames(n) ==> n in s2.cols && n !in targets && s2.cols[n] == s.cols[n]
  {
    TargetsKept(targets, sources);
    assert "timestamp" !in targets;
    forall i | 0 <= i < s2.height ensures Stamps(s2)[i] == DateTimes(s)[i] {
    }
    forall j | 0 <= j < |targets| ensures targets[j] in s2.cols && s2.cols[targets[j]] == Nulls(s.height) {
      assert targets[j] in targets;
    }
    forall j | 0 <= j < |sources| ensures sources[j] in p.cols && p1.cols[sources[j]] == p.cols[sources[j]] {
      assert sources[j] in sources;
    }
  }

  /** The renaming and the drop: `date` and the `_4h` columns stay, every other column
      gains `_1h`. */
  lemma Renamings(s3: Frame, m: map<string, string>, s4: Frame, r: Frame)
    requires s3.Valid()
    requires forall n :: n in m <==> n in s3.names && Renames(n)
    requires forall n :: n in m ==> m[n] == SecondaryName(n)
    requires Distinct(Renamed(s3.names, m)) && s4 == Rename(s3, m)
    requires "timestamp" in s4.cols && r == Drop(s4, "timestamp")
    ensures forall n :: n in s3.cols && Renames(n) ==> SecondaryName(n) in r.cols && r.cols[SecondaryName(n)] == s3.cols[n]
    ensures forall n :: n in s3.cols && Copies(n) && !Renames(n) ==> n in r.cols && r.cols[n] == s3.cols[n]
    ensures "date" in s3.cols ==> "date" in r.cols && r.cols["date"] == s3.cols["date"]
  {
    assert RenameOne(m, "date") == "date";
    forall n | n in s3.cols && Renames(n)
      ensures SecondaryName(n) in r.cols && r.cols[SecondaryName(n)] == s3.cols[n]
    {
      assert RenameOne(m, n) == SecondaryName(n);
      SecondaryNameFresh(n);
    }
    forall n | n in s3.cols && Copies(n) && !Renames(n) ensures n in r.cols && r.cols[n] == s3.cols[n] {
      assert RenameOne(m, n) == n;
    }
  }

  /** Every name left after the renaming and the drop is `date`, `_1h` or `_4h`. */
  lemma ResultNames(s3: Frame, m: map<string, string>, s4: Frame, r: Frame)
    requires s3.Valid()
    requires forall n :: n in m <==> n in s3.names && Renames(n)
    requires forall n :: n in m ==> m[n] == SecondaryName(n)
    requires Distinct(Renamed(s3.names, m)) && s4 == Rename(s3, m)
    requires "timestamp" in s4.cols && r == Drop(s4, "timestamp")
    ensures forall n :: n in r.cols ==> ResultName(n)
  {
    forall n | n in r.cols ensures ResultName(n) {
      var rn := Renamed(s3.names, m);
      var i := Position(rn, n);
      var k := s3.names[i];
      if k in m {
        assert n == SecondaryName(k);
      }
    }
  }

  /** Every primary column but the time columns has its `_4h` column. */
  lemma Replicas(p: Frame, s: Frame, s3: Frame, sources: seq<string>, targets: seq<string>)
    requires Dated(p) && Dated(s) && |sources| == |targets|
    requires forall c :: c in p.cols && Copies(c) ==> c in sources
    requires forall j :: 0 <= j < |targets| ==> targets[j] == ContextName(sources[j])
    requires forall j :: 0 <= j < |targets| ==>
      targets[j] in s3.cols && sources[j] in p.cols && ContextColumn(p, s, sources[j], s3.cols[targets[j]])
    ensures forall c :: c in p.cols && Copies(c) ==>
      ContextName(c) in s3.cols && ContextColumn(p, s, c, s3.cols[ContextName(c)])
  {
    forall c | c in p.cols && Copies(c)
      ensures ContextName(c) in s3.cols && ContextColumn(p, s, c, s3.cols[ContextName(c)])
    {
      var j := Position(sources, c);
      assert targets[j] == ContextName(c);
    }
  }
}
