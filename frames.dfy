/**
 * A pandas DataFrame as the indicator code uses it: named columns in insertion order,
 * all of one height, whose cells are numbers, text, flags, timestamps or missing values.
 * Assigning a whole column (`df[name] = values`) keeps an existing column's position and
 * appends a new one; writing one cell (`df.at[row, name] = v`) creates a missing column
 * filled with NaN first, as pandas does.
 */
module Frames {
  import opened Wrappers

  /**
   * One cell. `Time` is a timestamp in minutes. `Surd(a, b, r)` is the exact value
   * a + b * sqrt(r) (r >= 0), kept unevaluated where the source stores a square root.
   */
  datatype Cell =
    | Null
    | Num(x: real)
    | Text(s: string)
    | Flag(b: bool)
    | Time(minutes: int)
    | Surd(base: real, coef: real, radicand: real)

  function OfOption(v: Option<real>): (c: Cell)
    ensures c.Null? <==> v.None?
    ensures v.Some? ==> c == Num(v.value)
  {
    if v.Some? then Num(v.value) else Null
  }

  /** A column of numbers. */
  function Nums(xs: seq<real>): (r: seq<Cell>)
    ensures |r| == |xs| && forall i :: 0 <= i < |xs| ==> r[i] == Num(xs[i])
  {
    seq(|xs|, i requires 0 <= i < |xs| => Num(xs[i]))
  }

  /** A column of possibly missing numbers. */
  function Opts(xs: seq<Option<real>>): (r: seq<Cell>)
    ensures |r| == |xs| && forall i :: 0 <= i < |xs| ==> r[i] == OfOption(xs[i])
  {
    seq(|xs|, i requires 0 <= i < |xs| => OfOption(xs[i]))
  }

  /** A column of missing values (`None` assigned to a whole column). */
  function Nulls(n: nat): (r: seq<Cell>)
    ensures |r| == n && forall i :: 0 <= i < n ==> r[i] == Null
  {
    seq(n, i => Null)
  }

  predicate Numeric(col: seq<Cell>)
  {
    forall i :: 0 <= i < |col| ==> col[i].Num?
  }

  /** The numbers of a numeric column. */
  function Values(col: seq<Cell>): (r: seq<real>)
    requires Numeric(col)
    ensures |r| == |col| && forall i :: 0 <= i < |col| ==> col[i] == Num(r[i])
  {
    seq(|col|, i requires 0 <= i < |col| => col[i].x)
  }

  predicate Distinct(names: seq<string>)
  {
    forall i, j :: 0 <= i < j < |names| ==> names[i] != names[j]
  }

  datatype Frame = Frame(names: seq<string>, cols: map<string, seq<Cell>>, height: nat)
  {
    /** Column order lists each column once, and every column has `height` cells. */
    predicate Valid()
    {
      && Distinct(names)
      && (forall n :: n in cols ==> n in names)
      && (forall i :: 0 <= i < |names| ==> names[i] in cols)
      && (forall n :: n in cols ==> |cols[n]| == height)
    }

    predicate HasNumeric(n: string)
    {
      n in cols && Numeric(cols[n])
    }
  }

  /** `df[name] = vals`. */
  function WithColumn(f: Frame, name: string, vals: seq<Cell>): (r: Frame)
    requires f.Valid() && |vals| == f.height
    ensures r.Valid() && r.height == f.height
    ensures r.cols == f.cols[name := vals]
    ensures r.names == if name in f.cols then f.names else f.names + [name]
  {
    Frame(if name in f.cols then f.names else f.names + [name], f.cols[name := vals], f.height)
  }

  /** Consecutive `df[names[j]] = cols[j]` assignments. */
  function AddColumns(f: Frame, names: seq<string>, cols: seq<seq<Cell>>): (r: Frame)
    requires f.Valid() && |names| == |cols|
    requires forall j :: 0 <= j < |cols| ==> |cols[j]| == f.height
    ensures r.Valid() && r.height == f.height
    ensures forall n :: n in r.cols <==> n in f.cols || n in names
  {
    if |names| == 0 then f
    else
      var k := |names| - 1;
      assert forall n :: n in names <==> n in names[..k] || n == names[k];
      WithColumn(AddColumns(f, names[..k], cols[..k]), names[k], cols[k])
  }

  /** Assign each named column in turn. */
  method AssignColumns(df: Frame, names: seq<string>, cols: seq<seq<Cell>>) returns (r: Frame)
    requires df.Valid() && |names| == |cols| && forall j :: 0 <= j < |cols| ==> |cols[j]| == df.height
    ensures r == AddColumns(df, names, cols)
  {
    r := df;
    for j := 0 to |names|
      invariant r == AddColumns(df, names[..j], cols[..j])
    {
      AddColumnsStep(df, names, cols, j);
      r := WithColumn(r, names[j], cols[j]);
    }
    assert names[..|names|] == names && cols[..|cols|] == cols;
  }

  /** Assignments that never give one name two different columns. */
  predicate Consistent(names: seq<string>, cols: seq<seq<Cell>>)
    requires |names| == |cols|
  {
    forall i, j :: 0 <= i < |names| && 0 <= j < |names| && names[i] == names[j] ==> cols[i] == cols[j]
  }

  /** Columns not assigned are untouched. */
  lemma {:induction false} AddColumnsKeeps(f: Frame, names: seq<string>, cols: seq<seq<Cell>>, n: string)
    requires f.Valid() && |names| == |cols|
    requires forall j :: 0 <= j < |cols| ==> |cols[j]| == f.height
    requires n in f.cols && n !in names
    ensures AddColumns(f, names, cols).cols[n] == f.cols[n]
  {
    if |names| > 0 {
      var k := |names| - 1;
      assert n !in names[..k] && n != names[k];
      AddColumnsKeeps(f, names[..k], cols[..k], n);
    }
  }

  /** Every assigned name ends up holding its column. */
  lemma {:induction false} AddColumnsHolds(f: Frame, names: seq<string>, cols: seq<seq<Cell>>, j: nat)
    requires f.Valid() && |names| == |cols| && j < |names|
    requires forall i :: 0 <= i < |cols| ==> |cols[i]| == f.height
    requires Consistent(names, cols)
    ensures AddColumns(f, names, cols).cols[names[j]] == cols[j]
  {
    var k := |names| - 1;
    if j < k && names[j] != names[k] {
      ConsistentPrefix(names, cols, k);
      AddColumnsHolds(f, names[..k], cols[..k], j);
    } else if j < k {
      assert cols[j] == cols[k];
    }
  }

  /** Distinct names are trivially consistent. */
  lemma DistinctConsistent(names: seq<string>, cols: seq<seq<Cell>>)
    requires |names| == |cols| && Distinct(names)
    ensures Consistent(names, cols)
  {
    forall i, j | 0 <= i < |names| && 0 <= j < |names| && names[i] == names[j] ensures cols[i] == cols[j] {
      if i != j {
        assert false;
      }
    }
  }

  lemma ConsistentPrefix(names: seq<string>, cols: seq<seq<Cell>>, k: nat)
    requires |names| == |cols| && k <= |names| && Consistent(names, cols)
    ensures Consistent(names[..k], cols[..k])
  {
    forall i, j | 0 <= i < k && 0 <= j < k && names[..k][i] == names[..k][j]
      ensures cols[..k][i] == cols[..k][j]
    {
      assert names[i] == names[j];
    }
  }

  /** Assigning only existing columns keeps the column order. */
  lemma {:induction false} AddColumnsOrder(f: Frame, names: seq<string>, cols: seq<seq<Cell>>)
    requires f.Valid() && |names| == |cols|
    requires forall j :: 0 <= j < |cols| ==> |cols[j]| == f.height
    requires forall j :: 0 <= j < |names| ==> names[j] in f.cols
    ensures AddColumns(f, names, cols).names == f.names
  {
    if |names| > 0 {
      var k := |names| - 1;
      AddColumnsOrder(f, names[..k], cols[..k]);
    }
  }

  /** One more assignment extends the prefix by one. */
  lemma AddColumnsStep(f: Frame, names: seq<string>, cols: seq<seq<Cell>>, k: nat)
    requires f.Valid() && |names| == |cols| && k < |names|
    requires forall j :: 0 <= j < |cols| ==> |cols[j]| == f.height
    ensures AddColumns(f, names[..k + 1], cols[..k + 1]) ==
      WithColumn(AddColumns(f, names[..k], cols[..k]), names[k], cols[k])
  {
    assert names[..k + 1][..k] == names[..k];
    assert cols[..k + 1][..k] == cols[..k];
  }

  function Without(names: seq<string>, name: string): (r: seq<string>)
    ensures forall n :: n in r <==> n in names && n != name
    ensures Distinct(names) ==> Distinct(r)
  {
    if |names| == 0 then []
    else
      var rest := Without(names[1..], name);
      if names[0] == name then rest
      else
        var r := [names[0]] + rest;
        assert Distinct(names) ==> Distinct(r) by {
          if Distinct(names) {
            forall i, j | 0 <= i < j < |r| ensures r[i] != r[j] {
              if i == 0 {
                assert r[j] in rest;
                var k :| 1 <= k < |names| && names[k] == r[j];
              }
            }
          }
        }
        r
  }

  /** `df.drop(columns=[name])`. */
  function Drop(f: Frame, name: string): (r: Frame)
    requires f.Valid() && name in f.cols
    ensures r.Valid() && r.height == f.height
    ensures name !in r.cols
    ensures forall n :: n in r.cols <==> n in f.cols && n != name
    ensures forall n :: n in r.cols ==> r.cols[n] == f.cols[n]
  {
    var rest := Without(f.names, name);
    assert forall i :: 0 <= i < |rest| ==> rest[i] in rest;
    Frame(rest, f.cols - {name}, f.height)
  }

  function RenameOne(m: map<string, string>, n: string): string
  {
    if n in m then m[n] else n
  }

  function Renamed(names: seq<string>, m: map<string, string>): (r: seq<string>)
    ensures |r| == |names| && forall i :: 0 <= i < |names| ==> r[i] == RenameOne(m, names[i])
  {
    seq(|names|, i requires 0 <= i < |names| => RenameOne(m, names[i]))
  }

  /** Where a name sits in a column order. */
  function Position(names: seq<string>, n: string): (i: nat)
    requires n in names
    ensures i < |names| && names[i] == n
    ensures Distinct(names) ==> forall j :: 0 <= j < |names| && names[j] == n ==> j == i
  {
    if names[0] == n then 0 else 1 + Position(names[1..], n)
  }

  /** The columns under their new names. */
  function RenamedCols(f: Frame, m: map<string, string>): (cols: map<string, seq<Cell>>)
    requires f.Valid() && Distinct(Renamed(f.names, m))
    ensures forall n :: n in cols <==> n in Renamed(f.names, m)
  {
    var rn := Renamed(f.names, m);
    map n | n in rn :: f.cols[f.names[Position(rn, n)]]
  }

  lemma RenameMoves(f: Frame, m: map<string, string>, n: string)
    requires f.Valid() && Distinct(Renamed(f.names, m)) && n in f.cols
    ensures RenameOne(m, n) in RenamedCols(f, m) && RenamedCols(f, m)[RenameOne(m, n)] == f.cols[n]
  {
    var rn := Renamed(f.names, m);
    var i := Position(f.names, n);
    assert rn[i] == RenameOne(m, n);
    assert Position(rn, rn[i]) == i;
  }

  /** `df.rename(columns=m)`, for a renaming that keeps the names distinct. */
  function Rename(f: Frame, m: map<string, string>): (r: Frame)
    requires f.Valid() && Distinct(Renamed(f.names, m))
    ensures r.Valid() && r.height == f.height
    ensures r.names == Renamed(f.names, m)
    ensures forall n :: n in f.cols ==> RenameOne(m, n) in r.cols && r.cols[RenameOne(m, n)] == f.cols[n]
  {
    var rn := Renamed(f.names, m);
    var cols := RenamedCols(f, m);
    forall n | n in f.cols
      ensures RenameOne(m, n) in cols && cols[RenameOne(m, n)] == f.cols[n]
    {
      RenameMoves(f, m, n);
    }
    assert forall n :: n in cols ==> |cols[n]| == f.height by {
      forall n | n in cols ensures |cols[n]| == f.height {
        var i := Position(rn, n);
        RenameMoves(f, m, f.names[i]);
      }
    }
    Frame(rn, cols, f.height)
  }
}
