/**
 * The slice of pandas the core relies on: a table of labelled columns over
 * an index, stored row by row. A cell is a date (a day ordinal), a number,
 * an infinity, or missing (NaN/NaT).
 *
 * `Table` is a snapshot value; `DataFrame` is the mutable object a caller
 * hands to predictor.py and charts.py, whose column labels and columns
 * those functions rewrite in place.
 */
module Frames {
  import opened Wrappers
  import opened Text

  datatype Value = Day(ordinal: int) | Num(x: real) | Infinite(negative: bool) | Missing

  /** Column labels: flat names, or a two-level index of (field, ticker) pairs. */
  datatype Labels = Flat(names: seq<string>) | TwoLevel(pairs: seq<(string, string)>)

  function Width(l: Labels): nat
  {
    match l
    case Flat(ns) => |ns|
    case TwoLevel(ps) => |ps|
  }

  /** The row index: positional (0, 1, ...) or explicit keys with an optional name. */
  datatype Index = RangeIndex | Keyed(name: Option<string>, keys: seq<Value>)

  datatype Table = Table(labels: Labels, index: Index, rows: seq<seq<Value>>)

  /** Every row has one cell per label and an explicit index has one key per row. */
  ghost predicate Shaped(t: Table)
  {
    && (forall i :: 0 <= i < |t.rows| ==> |t.rows[i]| == Width(t.labels))
    && (t.index.Keyed? ==> |t.index.keys| == |t.rows|)
  }

  /** A row without a missing cell: what `dropna()` keeps. */
  predicate Complete(row: seq<Value>)
  {
    forall k :: 0 <= k < |row| ==> row[k] != Missing
  }

  // ---------------------------------------------------------------- labels

  /** `[' '.join(col).strip() for col in df.columns]` (predictor.py:28, charts.py:59). */
  function JoinedNames(pairs: seq<(string, string)>): (r: seq<string>)
    ensures |r| == |pairs|
    ensures forall i :: 0 <= i < |pairs| ==> r[i] == Strip(JoinPair(pairs[i].0, pairs[i].1))
  {
    seq(|pairs|, i requires 0 <= i < |pairs| => Strip(JoinPair(pairs[i].0, pairs[i].1)))
  }

  /** The labels after the flattening step guarded by `isinstance(df.columns, pd.MultiIndex)`. */
  function Flattened(l: Labels): (r: Labels)
    ensures r.Flat? && Width(r) == Width(l)
  {
    match l
    case Flat(_) => l
    case TwoLevel(ps) => Flat(JoinedNames(ps))
  }

  function FlattenedTable(t: Table): (r: Table)
    ensures Shaped(t) ==> Shaped(r)
  {
    t.(labels := Flattened(t.labels))
  }

  /** The position of the first column labelled exactly `col`. */
  function FirstIndexOf(names: seq<string>, col: string): (r: Option<nat>)
    ensures r.Some? ==> (r.value < |names| && names[r.value] == col
      && forall j :: 0 <= j < r.value ==> names[j] != col)
    ensures r.None? <==> col !in names
  {
    if names == [] then None
    else if names[0] == col then Some(0)
    else match FirstIndexOf(names[1..], col)
      case None => None
      case Some(j) => Some(j + 1)
  }

  /** The position of the first label that contains `needle` as a substring. */
  function FirstLabelContaining(names: seq<string>, needle: string): (r: Option<nat>)
    ensures r.Some? ==> (r.value < |names| && Contains(names[r.value], needle)
      && forall j :: 0 <= j < r.value ==> !Contains(names[j], needle))
    ensures r.None? <==> forall j :: 0 <= j < |names| ==> !Contains(names[j], needle)
  {
    if names == [] then None
    else if Contains(names[0], needle) then Some(0)
    else match FirstLabelContaining(names[1..], needle)
      case None => None
      case Some(j) => Some(j + 1)
  }

  /** Every label lower-cased, as `col.lower()` is applied label by label. */
  function LowerAll(names: seq<string>): (r: seq<string>)
    ensures |r| == |names| && forall i :: 0 <= i < |names| ==> r[i] == Lower(names[i])
  {
    seq(|names|, i requires 0 <= i < |names| => Lower(names[i]))
  }

  // ---------------------------------------------------------------- columns

  /** The cells of column `j`, top to bottom. */
  function Column(t: Table, j: nat): (r: seq<Value>)
    requires Shaped(t) && j < Width(t.labels)
    ensures |r| == |t.rows| && forall i :: 0 <= i < |t.rows| ==> r[i] == t.rows[i][j]
  {
    seq(|t.rows|, i requires 0 <= i < |t.rows| => t.rows[i][j])
  }

  /** `df[col]` at row `i`: the cell of the first column labelled `col`. */
  function CellAt(t: Table, col: string, i: nat): Option<Value>
    requires Shaped(t) && t.labels.Flat? && i < |t.rows|
  {
    match FirstIndexOf(t.labels.names, col)
    case None => None
    case Some(j) => Some(t.rows[i][j])
  }

  /** A row with a missing cell under some label is not complete. */
  lemma MissingCellAt(t: Table, col: string, i: nat)
    requires Shaped(t) && t.labels.Flat? && i < |t.rows| && CellAt(t, col, i) == Some(Missing)
    ensures !Complete(t.rows[i])
  {
    var j := FirstIndexOf(t.labels.names, col).value;
    assert t.rows[i][j] == Missing;
  }

  /**
   * `df[col] = cells`: overwrite the first column labelled `col`, or
   * append a new column at the right.
   */
  function Assign(t: Table, col: string, cells: seq<Value>): (r: Table)
    requires Shaped(t) && t.labels.Flat? && |cells| == |t.rows|
    ensures Shaped(r) && r.labels.Flat? && r.index == t.index && |r.rows| == |t.rows|
    ensures col in r.labels.names
  {
    var names := t.labels.names;
    match FirstIndexOf(names, col)
    case Some(j) =>
      t.(rows := seq(|t.rows|, i requires 0 <= i < |t.rows| => t.rows[i][j := cells[i]]))
    case None =>
      Table(Flat(names + [col]), t.index, seq(|t.rows|, i requires 0 <= i < |t.rows| => t.rows[i] + [cells[i]]))
  }

  /** After `df[col] = cells`, `df[col]` reads `cells` and every other label reads as before. */
  lemma AssignLookup(t: Table, col: string, cells: seq<Value>, i: nat, other: string)
    requires Shaped(t) && t.labels.Flat? && |cells| == |t.rows| && i < |t.rows|
    ensures CellAt(Assign(t, col, cells), other, i) ==
      if other == col then Some(cells[i]) else CellAt(t, other, i)
  {
    var names := t.labels.names;
    var r := Assign(t, col, cells);
    match FirstIndexOf(names, col)
    case Some(j) =>
      assert r.rows[i] == t.rows[i][j := cells[i]];
    case None =>
      FirstIndexOfAppend(names, col);
      assert r.rows[i] == t.rows[i] + [cells[i]];
  }

  /** A row has no missing cell after `df[col] = cells` only if the new cell is not missing. */
  lemma AssignComplete(t: Table, col: string, cells: seq<Value>, i: nat)
    requires Shaped(t) && t.labels.Flat? && |cells| == |t.rows| && i < |t.rows|
    ensures Complete(Assign(t, col, cells).rows[i]) ==> cells[i] != Missing
    ensures Complete(t.rows[i]) ==> (Complete(Assign(t, col, cells).rows[i]) <==> cells[i] != Missing)
  {
    var names := t.labels.names;
    var r := Assign(t, col, cells);
    match FirstIndexOf(names, col)
    case Some(j) =>
      assert r.rows[i] == t.rows[i][j := cells[i]] && r.rows[i][j] == cells[i];
    case None =>
      assert r.rows[i] == t.rows[i] + [cells[i]] && r.rows[i][|names|] == cells[i];
  }

  lemma FirstIndexOfAppend(names: seq<string>, col: string)
    requires col !in names
    ensures FirstIndexOf(names + [col], col) == Some(|names|)
    ensures forall other :: other != col ==> FirstIndexOf(names + [col], other) == FirstIndexOf(names, other)
  {
    var all := names + [col];
    var c := FirstIndexOf(all, col);
    assert all[|names|] == col;
    assert forall j :: 0 <= j < |names| ==> all[j] == names[j];
    forall other | other != col
      ensures FirstIndexOf(all, other) == FirstIndexOf(names, other)
    {
      var a, b := FirstIndexOf(all, other), FirstIndexOf(names, other);
      if b.Some? {
        assert all[b.value] == other;
        assert a.value <= b.value;
        assert all[a.value] == names[a.value];
      } else {
        assert other !in all;
      }
    }
  }

  // ---------------------------------------------------------------- reset_index

  /** The label `reset_index()` gives the column it makes of the index. */
  function ResetLabel(names: seq<string>, index: Index): string
  {
    match index
    case Keyed(Some(n), _) => n
    case _ => if "index" !in names then "index" else "level_0"
  }

  /** The index key of row `i`: the key itself, or the position for a RangeIndex. */
  function IndexKey(t: Table, i: nat): Value
    requires Shaped(t) && i < |t.rows|
  {
    match t.index
    case RangeIndex => Num(i as real)
    case Keyed(_, keys) => keys[i]
  }

  /**
   * `df.reset_index()`: the index becomes the first column and a fresh
   * RangeIndex replaces it; pandas refuses when the label is already taken.
   */
  function ResetIndex(t: Table): (r: Result<Table, string>)
    requires Shaped(t) && t.labels.Flat?
    ensures r.Err? <==> ResetLabel(t.labels.names, t.index) in t.labels.names
    ensures r.Err? ==> r.error == ResetLabel(t.labels.names, t.index)
    ensures r.Ok? ==> (Shaped(r.value) && r.value.index == RangeIndex
      && r.value.labels == Flat([ResetLabel(t.labels.names, t.index)] + t.labels.names)
      && |r.value.rows| == |t.rows|
      && forall i :: 0 <= i < |t.rows| ==> r.value.rows[i] == [IndexKey(t, i)] + t.rows[i])
  {
    var col := ResetLabel(t.labels.names, t.index);
    if col in t.labels.names then
      Err(col)
    else
      Ok(Table(Flat([col] + t.labels.names), RangeIndex,
        seq(|t.rows|, i requires 0 <= i < |t.rows| => [IndexKey(t, i)] + t.rows[i])))
  }

  // ---------------------------------------------------------------- dropna

  /** The positions of the complete rows, in order. */
  function Kept(rows: seq<seq<Value>>): (ps: seq<nat>)
    ensures forall k :: 0 <= k < |ps| ==> ps[k] < |rows| && Complete(rows[ps[k]])
  {
    if rows == [] then []
    else
      var front := Kept(rows[..|rows| - 1]);
      assert forall k :: 0 <= k < |front| ==> rows[front[k]] == rows[..|rows| - 1][front[k]];
      front + if Complete(rows[|rows| - 1]) then [|rows| - 1] else []
  }

  /** `dropna()` keeps the complete rows in their order. */
  lemma {:induction false} KeptIncreasing(rows: seq<seq<Value>>)
    ensures forall k, l :: 0 <= k < l < |Kept(rows)| ==> Kept(rows)[k] < Kept(rows)[l]
  {
    if rows != [] {
      var n := |rows|;
      var front := rows[..n - 1];
      KeptIncreasing(front);
      var ps, before := Kept(rows), Kept(front);
      assert ps == before + if Complete(rows[n - 1]) then [n - 1] else [];
      forall k, l | 0 <= k < l < |ps| ensures ps[k] < ps[l] {
        assert ps[k] == before[k];
        if l < |before| {
          assert ps[l] == before[l];
        }
      }
    }
  }

  /** `dropna()` keeps every complete row. */
  lemma {:induction false} KeptEvery(rows: seq<seq<Value>>)
    ensures forall i :: 0 <= i < |rows| && Complete(rows[i]) ==> i in Kept(rows)
  {
    if rows != [] {
      var n := |rows|;
      var front := rows[..n - 1];
      KeptEvery(front);
      var ps, before := Kept(rows), Kept(front);
      assert ps == before + if Complete(rows[n - 1]) then [n - 1] else [];
      forall i | 0 <= i < n && Complete(rows[i]) ensures i in ps {
        if i < n - 1 {
          assert front[i] == rows[i];
          assert i in before;
        }
      }
    }
  }

  /** `df.dropna()`: keep the complete rows, and their index keys, in order. */
  function DropNA(t: Table): (r: Table)
    requires Shaped(t)
    ensures Shaped(r) && r.labels == t.labels
    ensures forall i :: 0 <= i < |r.rows| ==> Complete(r.rows[i])
  {
    var ps := Kept(t.rows);
    var rows := seq(|ps|, k requires 0 <= k < |ps| => t.rows[ps[k]]);
    var index := match t.index
      case RangeIndex => Keyed(None, seq(|ps|, k requires 0 <= k < |ps| => Num(ps[k] as real)))
      case Keyed(n, keys) => Keyed(n, seq(|ps|, k requires 0 <= k < |ps| => keys[ps[k]]));
    Table(t.labels, index, rows)
  }

  /** On a table whose every row is complete, `dropna()` keeps every row. */
  lemma DropNAKeepsComplete(t: Table)
    requires Shaped(t) && forall i :: 0 <= i < |t.rows| ==> Complete(t.rows[i])
    ensures DropNA(t).rows == t.rows
  {
    KeptAll(t.rows);
  }

  lemma {:induction false} KeptAll(rows: seq<seq<Value>>)
    requires forall i :: 0 <= i < |rows| ==> Complete(rows[i])
    ensures Kept(rows) == seq(|rows|, i => i)
  {
    if rows != [] {
      KeptAll(rows[..|rows| - 1]);
    }
  }

  /** The positions `lo`, `lo + 1`, ..., `hi - 1`. */
  function Range(lo: nat, hi: nat): (r: seq<nat>)
    ensures |r| == if hi <= lo then 0 else hi - lo
    ensures forall k :: 0 <= k < |r| ==> r[k] == lo + k
  {
    if hi <= lo then [] else Range(lo, hi - 1) + [hi - 1]
  }

  /**
   * When exactly the rows from position `m` on are complete, `dropna()`
   * keeps exactly those rows.
   */
  lemma {:induction false} KeptFrom(rows: seq<seq<Value>>, m: nat)
    requires forall i :: 0 <= i < |rows| ==> (Complete(rows[i]) <==> i >= m)
    ensures Kept(rows) == Range(m, |rows|)
  {
    if rows != [] {
      var n := |rows|;
      var front := rows[..n - 1];
      forall i | 0 <= i < |front| ensures Complete(front[i]) <==> i >= m {
        assert front[i] == rows[i];
      }
      KeptFrom(front, m);
      assert Kept(rows) == Range(m, n - 1) + if Complete(rows[n - 1]) then [n - 1] else [];
    }
  }

  /** When exactly the rows from position `m` on are complete, `dropna()` keeps those rows. */
  lemma DropNAFrom(t: Table, m: nat)
    requires Shaped(t)
    requires forall i :: 0 <= i < |t.rows| ==> (Complete(t.rows[i]) <==> i >= m)
    ensures |DropNA(t).rows| == if |t.rows| <= m then 0 else |t.rows| - m
    ensures forall k :: 0 <= k < |DropNA(t).rows| ==> DropNA(t).rows[k] == t.rows[k + m]
  {
    KeptFrom(t.rows, m);
  }

  /** When every row but the last is complete, `dropna()` removes exactly the last row. */
  lemma KeptButLast(rows: seq<seq<Value>>)
    requires |rows| > 0
    requires forall i :: 0 <= i < |rows| ==> (Complete(rows[i]) <==> i < |rows| - 1)
    ensures Kept(rows) == seq(|rows| - 1, k => k)
  {
    KeptAll(rows[..|rows| - 1]);
  }

  // ---------------------------------------------------------------- the mutable frame

  /** A pandas DataFrame object, shared between a caller and the function it calls. */
  class DataFrame {
    var labels: Labels
    var index: Index
    var rows: seq<seq<Value>>

    function Snapshot(): Table
      reads this
    {
      Table(labels, index, rows)
    }

    ghost predicate Valid()
      reads this
    {
      Shaped(Snapshot())
    }

    constructor (t: Table)
      requires Shaped(t)
      ensures Valid() && Snapshot() == t
    {
      labels, index, rows := t.labels, t.index, t.rows;
    }

    /** `df.columns = l`: relabel the columns in place. */
    method Relabel(l: Labels)
      requires Valid() && Width(l) == Width(labels)
      modifies this
      ensures Valid() && Snapshot() == old(Snapshot()).(labels := l)
    {
      labels := l;
    }

    /**
     * `if isinstance(df.columns, pd.MultiIndex): df.columns = [' '.join(col).strip() ...]`:
     * flatten a two-level header in place.
     */
    method FlattenColumns()
      requires Valid()
      modifies this
      ensures Valid() && Snapshot() == FlattenedTable(old(Snapshot()))
    {
      if labels.TwoLevel? {
        Relabel(Flat(JoinedNames(labels.pairs)));
      }
    }

    /** `df[col] = cells`: assign a column in place. */
    method SetColumn(col: string, cells: seq<Value>)
      requires Valid() && labels.Flat? && |cells| == |rows|
      modifies this
      ensures Valid() && Snapshot() == Assign(old(Snapshot()), col, cells)
    {
      var t := Assign(Snapshot(), col, cells);
      labels, index, rows := t.labels, t.index, t.rows;
    }
  }
}
