/** The part of pandas that the pipeline relies on, as values: a cell, a
    table (ordered column names and rows of cells), the errors pandas raises,
    and the column operations `df[name] = values`, `df.drop(labels, axis=1)`,
    `df.iloc[indices]` and `df.reindex(columns=..., fill_value=0)`.
    A `DataFrame` object is a table that is updated in place. */
module Frames {

  /** One value of a frame: an integer, a float (kept exact as a real),
      text, or a missing value (NaN). */
  datatype Cell = Int(i: int) | Real(r: real) | Text(s: string) | NaN

  /** The exceptions the modelled pandas/numpy/scikit-learn calls raise. */
  datatype Error =
    | KeyError(labels: seq<string>)  // column labels not found
    | TypeError                      // arithmetic on text
    | ValueError                     // lengths or shapes that do not agree

  datatype Result<+T> = Ok(value: T) | Err(error: Error) {
    predicate IsFailure() { Err? }
    function PropagateFailure<U>(): Result<U> requires Err? { Err(error) }
    function Extract(): T requires Ok? { value }
  }

  datatype Option<+T> = None | Some(value: T)

  /** A frame as a value: ordered column labels and rows of cells. */
  datatype Table = Table(columns: seq<string>, rows: seq<seq<Cell>>)

  predicate Distinct<T(==)>(s: seq<T>) {
    forall i, j :: 0 <= i < j < |s| ==> s[i] != s[j]
  }

  /** Every row has one cell per column. */
  predicate Rectangular(t: Table) {
    forall k :: 0 <= k < |t.rows| ==> |t.rows[k]| == |t.columns|
  }

  /** A frame as read from a file: rectangular, with distinct column labels. */
  predicate WellFormed(t: Table) {
    Distinct(t.columns) && Rectangular(t)
  }

  /** Position of the first column labelled `name`. */
  function IndexOf(cols: seq<string>, name: string): (k: nat)
    requires name in cols
    ensures k < |cols| && cols[k] == name && name !in cols[..k]
  {
    if cols[0] == name then 0
    else
      var k := IndexOf(cols[1..], name);
      assert cols[..k + 1] == [cols[0]] + cols[1..][..k];
      k + 1
  }

  /** The first occurrence of `name` is the only position that has it and no earlier one. */
  lemma {:induction false} IndexOfUnique(cols: seq<string>, name: string, k: nat)
    requires k < |cols| && cols[k] == name && name !in cols[..k]
    ensures IndexOf(cols, name) == k
  {
    if k > 0 {
      assert cols[..k][0] == cols[0];
      assert cols[1..][..k - 1] == cols[..k][1..];
      IndexOfUnique(cols[1..], name, k - 1);
    }
  }

  /** In a frame with distinct labels, the column at position k is found at k. */
  lemma IndexOfDistinct(cols: seq<string>, k: nat)
    requires Distinct(cols) && k < |cols|
    ensures IndexOf(cols, cols[k]) == k
  {
    forall j | 0 <= j < k ensures cols[..k][j] != cols[k] { }
    IndexOfUnique(cols, cols[k], k);
  }

  /** Two label lists without repeats and without a label in common join without repeats. */
  lemma DistinctConcat<T>(a: seq<T>, b: seq<T>)
    requires Distinct(a) && Distinct(b) && forall x :: x in a ==> x !in b
    ensures Distinct(a + b)
  {
    forall i, j | 0 <= i < j < |a + b| ensures (a + b)[i] != (a + b)[j] {
      if i < |a| && j >= |a| {
        assert (a + b)[i] in a && (a + b)[j] in b;
      }
    }
  }

  /** `df[name].iloc[i]` */
  function Get(t: Table, i: nat, name: string): Cell
    requires Rectangular(t) && i < |t.rows| && name in t.columns
  {
    t.rows[i][IndexOf(t.columns, name)]
  }

  /** `df[name]` as a sequence of cells. */
  function Column(t: Table, name: string): (col: seq<Cell>)
    requires Rectangular(t) && name in t.columns
    ensures |col| == |t.rows|
  {
    seq(|t.rows|, i requires 0 <= i < |t.rows| => Get(t, i, name))
  }

  /** `df[name] = values`: overwrites column `name` where it stands, or
      appends it as the last column. */
  function WithColumn(t: Table, name: string, values: seq<Cell>): (r: Table)
    requires Rectangular(t) && |values| == |t.rows|
    ensures Rectangular(r) && |r.rows| == |t.rows|
    ensures r.columns == if name in t.columns then t.columns else t.columns + [name]
  {
    if name in t.columns then
      var k := IndexOf(t.columns, name);
      Table(t.columns, seq(|t.rows|, i requires 0 <= i < |t.rows| => t.rows[i][k := values[i]]))
    else
      Table(t.columns + [name], seq(|t.rows|, i requires 0 <= i < |t.rows| => t.rows[i] + [values[i]]))
  }

  /** After `df[name] = values`, column `name` holds `values` and every other
      column holds what it held before. */
  lemma WithColumnCells(t: Table, name: string, values: seq<Cell>)
    requires Rectangular(t) && |values| == |t.rows|
    ensures var r := WithColumn(t, name, values);
      && name in r.columns
      && (forall i :: 0 <= i < |t.rows| ==> Get(r, i, name) == values[i])
      && (forall i, c :: 0 <= i < |t.rows| && c in t.columns && c != name ==> Get(r, i, c) == Get(t, i, c))
  {
    var r := WithColumn(t, name, values);
    if name !in t.columns {
      var cols' := t.columns + [name];
      assert cols'[..|t.columns|] == t.columns;
      IndexOfUnique(cols', name, |t.columns|);
      forall c | c in t.columns
        ensures IndexOf(cols', c) == IndexOf(t.columns, c)
      {
        var k := IndexOf(t.columns, c);
        assert cols'[..k] == t.columns[..k];
        IndexOfUnique(cols', c, k);
      }
    }
  }

  /** A column of `a` is found at the same place in `a + b`. */
  lemma IndexOfPrefix(a: seq<string>, b: seq<string>, name: string)
    requires name in a
    ensures IndexOf(a + b, name) == IndexOf(a, name)
  {
    var k := IndexOf(a, name);
    assert (a + b)[..k] == a[..k];
    IndexOfUnique(a + b, name, k);
  }

  /** A column found only in `b` is found after all of `a`. */
  lemma IndexOfSuffix(a: seq<string>, b: seq<string>, name: string)
    requires name !in a && name in b
    ensures IndexOf(a + b, name) == |a| + IndexOf(b, name)
  {
    var k := IndexOf(b, name);
    var ab := a + b;
    assert ab[|a| + k] == name;
    assert ab[..|a| + k] == a + b[..k];
    assert name !in a + b[..k];
    IndexOfUnique(ab, name, |a| + k);
  }

  /** A frame keeps distinct labels under `df[name] = values`. */
  lemma WithColumnWellFormed(t: Table, name: string, values: seq<Cell>)
    requires WellFormed(t) && |values| == |t.rows|
    ensures WellFormed(WithColumn(t, name, values))
  {
  }

  /** `df.iloc[idx]` on a sequence: the entries at the given positions, in their order. */
  function Take<T>(s: seq<T>, idx: seq<nat>): (r: seq<T>)
    requires forall k :: 0 <= k < |idx| ==> idx[k] < |s|
    ensures |r| == |idx| && forall k :: 0 <= k < |idx| ==> r[k] == s[idx[k]]
  {
    seq(|idx|, k requires 0 <= k < |idx| => s[idx[k]])
  }

  /** `df.iloc[idx]`: the rows at the given positions, all columns kept. */
  function SelectRows(t: Table, idx: seq<nat>): (r: Table)
    requires forall k :: 0 <= k < |idx| ==> idx[k] < |t.rows|
    ensures r.columns == t.columns && |r.rows| == |idx|
    ensures Rectangular(t) ==> Rectangular(r)
  {
    Table(t.columns, Take(t.rows, idx))
  }

  /** Positions, from `from` on, of the columns not in `labels`, in increasing order. */
  function KeptFrom(cols: seq<string>, labels: seq<string>, from: nat): (ps: seq<nat>)
    requires from <= |cols|
    ensures forall j :: 0 <= j < |ps| ==> from <= ps[j] < |cols| && cols[ps[j]] !in labels
    ensures forall j, l :: 0 <= j < l < |ps| ==> ps[j] < ps[l]
    ensures forall k :: from <= k < |cols| && cols[k] !in labels ==> k in ps
    decreases |cols| - from
  {
    if from == |cols| then []
    else if cols[from] in labels then KeptFrom(cols, labels, from + 1)
    else [from] + KeptFrom(cols, labels, from + 1)
  }

  /** The labels of `labels` that are not columns, in the order given. */
  function Missing(labels: seq<string>, cols: seq<string>): (m: seq<string>)
    ensures forall l :: l in m <==> l in labels && l !in cols
  {
    if labels == [] then []
    else if labels[0] in cols then Missing(labels[1..], cols)
    else [labels[0]] + Missing(labels[1..], cols)
  }

  /** `df.drop(labels, axis=1)`: a new frame without the listed columns; a
      KeyError naming the absent ones if any listed label is not a column. */
  function Drop(t: Table, labels: seq<string>): (r: Result<Table>)
    requires Rectangular(t)
    ensures r.Err? <==> exists l :: l in labels && l !in t.columns
    ensures r.Err? ==> r.error == KeyError(Missing(labels, t.columns))
  {
    var missing := Missing(labels, t.columns);
    if missing != [] then
      assert missing[0] in missing;
      Err(KeyError(missing))
    else
      var ps := KeptFrom(t.columns, labels, 0);
      Ok(Table(seq(|ps|, j requires 0 <= j < |ps| => t.columns[ps[j]]),
               seq(|t.rows|, i requires 0 <= i < |t.rows| =>
                     seq(|ps|, j requires 0 <= j < |ps| => t.rows[i][ps[j]]))))
  }

  /** Where the kept columns come from: the j-th kept column is the column
      at the j-th kept position, cells included. */
  lemma DropSources(t: Table, labels: seq<string>)
    requires WellFormed(t) && Drop(t, labels).Ok?
    ensures var r := Drop(t, labels).value;
      var ps := KeptFrom(t.columns, labels, 0);
      && |r.columns| == |ps| && |r.rows| == |t.rows|
      && (forall j :: 0 <= j < |ps| ==> r.columns[j] == t.columns[ps[j]] && IndexOf(t.columns, r.columns[j]) == ps[j])
      && (forall i, j :: 0 <= i < |r.rows| && 0 <= j < |ps| ==> r.rows[i][j] == t.rows[i][ps[j]])
  {
    var ps := KeptFrom(t.columns, labels, 0);
    forall j | 0 <= j < |ps| ensures IndexOf(t.columns, t.columns[ps[j]]) == ps[j] {
      IndexOfDistinct(t.columns, ps[j]);
    }
  }

  /** A successful drop leaves a well-formed frame with every row and with
      exactly the columns not listed. */
  lemma DropWellFormed(t: Table, labels: seq<string>)
    requires WellFormed(t) && Drop(t, labels).Ok?
    ensures var r := Drop(t, labels).value;
      && WellFormed(r) && |r.rows| == |t.rows|
      && (forall c :: c in r.columns <==> c in t.columns && c !in labels)
  {
    DropDistinct(t, labels);
    DropColumnsExactly(t, labels);
  }

  lemma DropDistinct(t: Table, labels: seq<string>)
    requires WellFormed(t) && Drop(t, labels).Ok?
    ensures WellFormed(Drop(t, labels).value)
  {
    var r := Drop(t, labels).value;
    var ps := KeptFrom(t.columns, labels, 0);
    DropSources(t, labels);
    forall j, l | 0 <= j < l < |r.columns| ensures r.columns[j] != r.columns[l] {
      assert ps[j] < ps[l];
    }
  }

  lemma DropColumnsExactly(t: Table, labels: seq<string>)
    requires WellFormed(t) && Drop(t, labels).Ok?
    ensures forall c :: c in Drop(t, labels).value.columns <==> c in t.columns && c !in labels
  {
    var r := Drop(t, labels).value;
    var ps := KeptFrom(t.columns, labels, 0);
    DropSources(t, labels);
    forall c | c in t.columns && c !in labels ensures c in r.columns {
      var k := IndexOf(t.columns, c);
      var j :| 0 <= j < |ps| && ps[j] == k;
      assert r.columns[j] == c;
    }
  }

  /** A column that is not dropped survives the drop with all its cells. */
  lemma DropKeepsColumn(t: Table, labels: seq<string>, name: string)
    requires WellFormed(t) && Drop(t, labels).Ok? && name in t.columns && name !in labels
    ensures var r := Drop(t, labels).value;
      name in r.columns && |r.rows| == |t.rows| && forall i :: 0 <= i < |r.rows| ==> Get(r, i, name) == Get(t, i, name)
  {
    var r := Drop(t, labels).value;
    DropWellFormed(t, labels);
    DropSources(t, labels);
    var j :| 0 <= j < |r.columns| && r.columns[j] == name;
    IndexOfDistinct(r.columns, j);
  }

  /** Two columns that are not dropped keep, row by row, any relation
      their cells had. */
  lemma DropKeepsRelation(t: Table, labels: seq<string>, a: string, b: string, rel: (Cell, Cell) -> bool)
    requires WellFormed(t) && Drop(t, labels).Ok?
    requires a in t.columns && a !in labels && b in t.columns && b !in labels
    requires forall i :: 0 <= i < |t.rows| ==> rel(Get(t, i, a), Get(t, i, b))
    ensures var r := Drop(t, labels).value;
      && a in r.columns && b in r.columns && |r.rows| == |t.rows|
      && forall i :: 0 <= i < |r.rows| ==> rel(Get(r, i, a), Get(r, i, b))
  {
    var r := Drop(t, labels).value;
    DropKeepsColumn(t, labels, a);
    DropKeepsColumn(t, labels, b);
    forall i | 0 <= i < |r.rows| ensures rel(Get(r, i, a), Get(r, i, b)) {
      assert Get(r, i, a) == Get(t, i, a) && Get(r, i, b) == Get(t, i, b);
    }
  }

  /** A successful drop removes exactly the listed columns, keeps the other
      columns in their relative order with their cells, and keeps every row. */
  lemma DropKeepsOthers(t: Table, labels: seq<string>)
    requires WellFormed(t) && Drop(t, labels).Ok?
    ensures var r := Drop(t, labels).value;
      && WellFormed(r)
      && |r.rows| == |t.rows|
      && (forall c :: c in r.columns <==> c in t.columns && c !in labels)
      && (forall j, l :: 0 <= j < l < |r.columns| ==> IndexOf(t.columns, r.columns[j]) < IndexOf(t.columns, r.columns[l]))
      && (forall i, c :: 0 <= i < |r.rows| && c in r.columns ==> Get(r, i, c) == Get(t, i, c))
  {
    DropWellFormed(t, labels);
    DropSources(t, labels);
    forall c | c in Drop(t, labels).value.columns {
      DropKeepsColumn(t, labels, c);
    }
  }

  /** A sequence without repeats has as many elements as its set. */
  lemma {:induction false} DistinctCard<T>(s: seq<T>)
    requires Distinct(s)
    ensures |set c | c in s| == |s|
  {
    if s != [] {
      DistinctCard(s[1..]);
      assert (set c | c in s) == {s[0]} + (set c | c in s[1..]);
    }
  }

  /** Removing the distinct elements of `listed`, all present in `all`,
      leaves that many elements fewer. */
  lemma RemovedCount<T>(all: seq<T>, kept: seq<T>, listed: seq<T>)
    requires Distinct(all) && Distinct(kept) && Distinct(listed)
    requires forall c :: c in listed ==> c in all
    requires forall c :: c in kept <==> c in all && c !in listed
    ensures |kept| == |all| - |listed|
  {
    var allSet, keptSet, listedSet := set c | c in all, set c | c in kept, set c | c in listed;
    DistinctCard(all);
    DistinctCard(kept);
    DistinctCard(listed);
    assert allSet == keptSet + listedSet && keptSet !! listedSet;
  }

  /** Dropping distinct labels that are all present removes that many columns. */
  lemma DropColumnCount(t: Table, labels: seq<string>)
    requires WellFormed(t) && Distinct(labels) && Drop(t, labels).Ok?
    ensures |Drop(t, labels).value.columns| == |t.columns| - |labels|
  {
    DropWellFormed(t, labels);
    RemovedCount(t.columns, Drop(t, labels).value.columns, labels);
  }

  /** `df.reindex(columns=cols, fill_value=0)`: the frame gets exactly the
      columns `cols`, in that order; a column it had keeps its cells, any
      other is filled with 0. pandas refuses to reindex a frame whose own
      column labels repeat, unless `cols` are those very labels, in which
      case the frame comes back as it is. */
  function Reindex(t: Table, cols: seq<string>): (r: Result<Table>)
    requires Rectangular(t)
    ensures r.Err? <==> !Distinct(t.columns) && cols != t.columns
    ensures r.Err? ==> r.error == ValueError
    ensures r.Ok? ==> Rectangular(r.value) && r.value.columns == cols && |r.value.rows| == |t.rows|
    ensures r.Ok? && Distinct(t.columns) ==> forall i, k :: 0 <= i < |t.rows| && 0 <= k < |cols| ==>
              r.value.rows[i][k] == if cols[k] in t.columns then Get(t, i, cols[k]) else Int(0)
    ensures r.Ok? && !Distinct(t.columns) ==> r.value == t
  {
    if !Distinct(t.columns) then
      if cols == t.columns then Ok(t) else Err(ValueError)
    else
      Ok(Table(cols, seq(|t.rows|, i requires 0 <= i < |t.rows| =>
                       seq(|cols|, k requires 0 <= k < |cols| =>
                             if cols[k] in t.columns then Get(t, i, cols[k]) else Int(0)))))
  }

  /** Reindexing a frame with distinct labels to its own columns changes nothing. */
  lemma ReindexToOwnColumns(t: Table)
    requires WellFormed(t)
    ensures Reindex(t, t.columns) == Ok(t)
  {
    var r := Reindex(t, t.columns).value;
    forall i | 0 <= i < |t.rows| ensures r.rows[i] == t.rows[i] {
      forall k | 0 <= k < |t.columns| ensures r.rows[i][k] == t.rows[i][k] {
        IndexOfDistinct(t.columns, k);
      }
    }
    assert r.rows == t.rows;
  }

  /** A frame that pandas updates in place (`df[name] = values`). */
  class DataFrame {
    var columns: seq<string>
    var rows: seq<seq<Cell>>

    ghost predicate Valid()
      reads this
    {
      WellFormed(Table(columns, rows))
    }

    /** The frame's current contents as a value. */
    function Snapshot(): Table
      reads this
    {
      Table(columns, rows)
    }

    /** A new frame holding `t` (`pd.read_*` or `other.copy()`). */
    constructor (t: Table)
      requires WellFormed(t)
      ensures Valid() && Snapshot() == t
    {
      columns := t.columns;
      rows := t.rows;
    }

    /** `df[name] = values` */
    method SetColumn(name: string, values: seq<Cell>)
      requires Valid() && |values| == |rows|
      modifies this
      ensures Valid()
      ensures Snapshot() == WithColumn(old(Snapshot()), name, values)
    {
      WithColumnWellFormed(Snapshot(), name, values);
      var updated := WithColumn(Snapshot(), name, values);
      columns, rows := updated.columns, updated.rows;
    }
  }
}
