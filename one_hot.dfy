/** One-hot encoding of the transaction `type` for the linear model
    (src/models/train_model.py): `pd.get_dummies(X, columns=['type'],
    drop_first=True)` on each partition, then the test frame reindexed to the
    training frame's columns with 0 for the missing ones. */
module OneHot {
  import opened Frames

  /** Python's `a < b` on str: code point by code point, a proper prefix first. */
  predicate Below(a: string, b: string) {
    if a == [] then b != []
    else if b == [] then false
    else if a[0] != b[0] then a[0] < b[0]
    else Below(a[1..], b[1..])
  }

  lemma {:induction false} BelowIrreflexive(a: string)
    ensures !Below(a, a)
  {
    if a != [] {
      BelowIrreflexive(a[1..]);
    }
  }

  lemma {:induction false} BelowTransitive(a: string, b: string, c: string)
    requires Below(a, b) && Below(b, c)
    ensures Below(a, c)
  {
    if a != [] && b != [] && c != [] && a[0] == b[0] == c[0] {
      BelowTransitive(a[1..], b[1..], c[1..]);
    }
  }

  lemma {:induction false} BelowTotal(a: string, b: string)
    requires a != b
    ensures Below(a, b) || Below(b, a)
  {
    if a != [] && b != [] && a[0] == b[0] {
      assert a == [a[0]] + a[1..] && b == [b[0]] + b[1..];
      BelowTotal(a[1..], b[1..]);
    }
  }

  predicate StrictlySorted(s: seq<string>) {
    forall i, j :: 0 <= i < j < |s| ==> Below(s[i], s[j])
  }

  /** Adds `x` to a sorted sequence of distinct strings at its place. */
  function Insert(x: string, s: seq<string>): (r: seq<string>)
    ensures forall c :: c in r <==> c == x || c in s
  {
    if s == [] then [x]
    else if x == s[0] then s
    else if Below(x, s[0]) then [x] + s
    else [s[0]] + Insert(x, s[1..])
  }

  /** Inserting keeps a sorted sequence sorted. */
  lemma {:induction false} InsertSorted(x: string, s: seq<string>)
    requires StrictlySorted(s)
    ensures StrictlySorted(Insert(x, s))
  {
    if s != [] && x != s[0] {
      if Below(x, s[0]) {
        forall j | 0 < j < |s| ensures Below(x, s[j]) { BelowTransitive(x, s[0], s[j]); }
      } else {
        BelowTotal(x, s[0]);
        InsertSorted(x, s[1..]);
        var rest := Insert(x, s[1..]);
        assert forall c :: c in rest ==> Below(s[0], c);
        assert Insert(x, s) == [s[0]] + rest;
      }
    }
  }

  /** The categories' levels as `get_dummies` orders them: each distinct value
      once, in ascending order (see LevelsSorted). */
  function Levels(cats: seq<string>): (levels: seq<string>)
    ensures forall c :: c in levels <==> c in cats
  {
    if cats == [] then []
    else
      var init := cats[..|cats| - 1];
      assert forall c :: c in cats <==> c in init || c == cats[|cats| - 1] by {
        assert cats == init + [cats[|cats| - 1]];
      }
      Insert(cats[|cats| - 1], Levels(init))
  }

  /** The levels are in ascending Python string order, so each appears once. */
  lemma {:induction false} LevelsSorted(cats: seq<string>)
    ensures StrictlySorted(Levels(cats))
  {
    if cats != [] {
      LevelsSorted(cats[..|cats| - 1]);
      InsertSorted(cats[|cats| - 1], Levels(cats[..|cats| - 1]));
    }
  }

  /** The first level is the smallest category. */
  lemma LevelsStartAtSmallest(cats: seq<string>)
    requires cats != []
    ensures var levels := Levels(cats);
      |levels| > 0 && forall c :: c in cats && c != levels[0] ==> Below(levels[0], c)
  {
    LevelsSorted(cats);
    assert cats[0] in Levels(cats);
  }

  /** A sorted sequence has no repeats. */
  lemma SortedDistinct(s: seq<string>)
    requires StrictlySorted(s)
    ensures Distinct(s)
  {
    forall i, j | 0 <= i < j < |s| ensures s[i] != s[j] {
      if s[i] == s[j] { BelowIrreflexive(s[i]); }
    }
  }

  /** The label of the indicator column for `level`: `type_CASH_OUT`. */
  function DummyName(col: string, level: string): string {
    col + "_" + level
  }

  lemma DummyNameInjective(col: string, a: string, b: string)
    requires DummyName(col, a) == DummyName(col, b)
    ensures a == b
  {
    var n := |col| + 1;
    assert a == DummyName(col, a)[n..];
    assert b == DummyName(col, b)[n..];
  }

  predicate AllText(cells: seq<Cell>) {
    forall i :: 0 <= i < |cells| ==> cells[i].Text?
  }

  function Texts(cells: seq<Cell>): (s: seq<string>)
    requires AllText(cells)
    ensures |s| == |cells| && forall i :: 0 <= i < |cells| ==> cells[i] == Text(s[i])
  {
    seq(|cells|, i requires 0 <= i < |cells| => cells[i].s)
  }

  /** The levels that get an indicator column: all but the first. */
  function KeptLevels(levels: seq<string>): seq<string> {
    if levels == [] then [] else levels[1..]
  }

  /** The labels of the indicator columns, one per kept level. */
  function DummyNames(col: string, kept: seq<string>): seq<string> {
    seq(|kept|, j requires 0 <= j < |kept| => DummyName(col, kept[j]))
  }

  /** One row's indicator cells: 1 under its own category, 0 elsewhere. */
  function Indicators(cat: string, kept: seq<string>): seq<Cell> {
    seq(|kept|, j requires 0 <= j < |kept| => Int(if cat == kept[j] then 1 else 0))
  }

  /** `pd.get_dummies(t, columns=[col], drop_first=True)`: the other columns
      in their order, then one indicator column per level but the first;
      a KeyError when `col` is not a column. */
  function GetDummies(t: Table, col: string): (r: Result<Table>)
    requires Rectangular(t)
    requires col in t.columns ==> AllText(Column(t, col))
    ensures col !in t.columns <==> r == Err(KeyError([col]))
  {
    if col !in t.columns then Err(KeyError([col]))
    else
      var cats := Texts(Column(t, col));
      var kept := KeptLevels(Levels(cats));
      var base := Drop(t, [col]).value;
      Ok(Table(base.columns + DummyNames(col, kept),
               seq(|t.rows|, i requires 0 <= i < |t.rows| => base.rows[i] + Indicators(cats[i], kept))))
  }

  /** Rows of the dummies frame: one cell per column. */
  lemma GetDummiesRectangular(t: Table, col: string)
    requires Rectangular(t) && col in t.columns && AllText(Column(t, col))
    ensures Rectangular(GetDummies(t, col).value)
  {
  }

  /** With k distinct categories, `get_dummies` adds k - 1 indicator
      columns after the other columns, the j-th named after the j-th kept
      level (every category but the smallest); a row's cell in it is 1
      exactly when the row is of that level, so a row of the smallest
      category is 0 in all of them and any other row is 1 in one. */
  lemma DummiesIndicateCategory(t: Table, col: string, i: nat)
    requires WellFormed(t) && col in t.columns && AllText(Column(t, col)) && i < |t.rows|
    ensures var r := GetDummies(t, col).value;
      var cats := Texts(Column(t, col));
      var levels := Levels(cats);
      var kept := KeptLevels(levels);
      var base := |t.columns| - 1;
      && |levels| > 0 && kept == levels[1..]
      && |r.rows[i]| == |r.columns| == base + |kept|
      && (forall j :: 0 <= j < |kept| ==> r.columns[base + j] == DummyName(col, kept[j]))
      && (forall j :: 0 <= j < |kept| ==> r.rows[i][base + j] == Int(if cats[i] == kept[j] then 1 else 0))
      && (cats[i] in kept <==> cats[i] != levels[0])
  {
    var cats := Texts(Column(t, col));
    var levels := Levels(cats);
    assert cats[i] in cats;
    DummyCells(t, col, i);
    LevelsSorted(cats);
    FirstLevelDropped(levels);
  }

  /** Row i under the indicator columns, one per kept level: the column's
      name and the row's cell in it. */
  lemma DummyCells(t: Table, col: string, i: nat)
    requires WellFormed(t) && col in t.columns && AllText(Column(t, col)) && i < |t.rows|
    ensures var r := GetDummies(t, col).value;
      var cats := Texts(Column(t, col));
      var kept := KeptLevels(Levels(cats));
      && |r.rows[i]| == |r.columns| == |t.columns| - 1 + |kept|
      && (forall j :: 0 <= j < |kept| ==> r.columns[|t.columns| - 1 + j] == DummyName(col, kept[j]))
      && (forall j :: 0 <= j < |kept| ==> r.rows[i][|t.columns| - 1 + j] == Int(if cats[i] == kept[j] then 1 else 0))
  {
    DummyColumns(t, col);
    GetDummiesRectangular(t, col);
    forall j | 0 <= j < |KeptLevels(Levels(Texts(Column(t, col))))| {
      DummyCellAt(t, col, i, j);
    }
  }

  /** `drop_first`: the smallest level is not among the kept ones. */
  lemma FirstLevelDropped(levels: seq<string>)
    requires StrictlySorted(levels) && |levels| > 0
    ensures levels[0] !in KeptLevels(levels)
  {
    if levels[0] in levels[1..] {
      var j :| 0 <= j < |levels| - 1 && levels[1..][j] == levels[0];
      assert Below(levels[0], levels[j + 1]);
      BelowIrreflexive(levels[0]);
    }
  }

  /** The indicator columns follow the other columns, one per kept level in order. */
  lemma DummyColumns(t: Table, col: string)
    requires WellFormed(t) && col in t.columns && AllText(Column(t, col))
    ensures var r := GetDummies(t, col).value;
      var kept := KeptLevels(Levels(Texts(Column(t, col))));
      var base := |t.columns| - 1;
      && |r.columns| == base + |kept|
      && r.columns == Drop(t, [col]).value.columns + DummyNames(col, kept)
      && r.columns[base..] == DummyNames(col, kept)
      && forall j :: 0 <= j < |kept| ==> r.columns[base + j] == DummyName(col, kept[j])
  {
    DropColumnCount(t, [col]);
  }

  /** Distinct levels give distinct indicator labels, each labelled as one. */
  lemma DummyNamesDistinct(col: string, levels: seq<string>)
    requires Distinct(levels)
    ensures var names := DummyNames(col, KeptLevels(levels));
      Distinct(names) && forall c :: c in names ==> IsDummyOf(col, c)
  {
    var kept := KeptLevels(levels);
    var names := DummyNames(col, kept);
    forall j, l | 0 <= j < l < |names| ensures names[j] != names[l] {
      if names[j] == names[l] {
        assert kept[j] == levels[j + 1] && kept[l] == levels[l + 1];
        DummyNameInjective(col, kept[j], kept[l]);
      }
    }
    forall c | c in names ensures IsDummyOf(col, c) {
      var j :| 0 <= j < |names| && names[j] == c;
      DummyNameIsDummy(col, kept[j]);
    }
  }

  /** With no column labelled like an indicator column, the dummies frame
      has distinct labels. */
  lemma DummiesDistinct(t: Table, col: string)
    requires WellFormed(t) && col in t.columns && AllText(Column(t, col)) && NoDummyClash(t.columns, col)
    ensures Distinct(GetDummies(t, col).value.columns)
  {
    var levels := Levels(Texts(Column(t, col)));
    var base := Drop(t, [col]).value.columns;
    var names := DummyNames(col, KeptLevels(levels));
    DummyColumns(t, col);
    DropWellFormed(t, [col]);
    LevelsSorted(Texts(Column(t, col)));
    SortedDistinct(levels);
    DummyNamesDistinct(col, levels);
    DistinctConcat(base, names);
  }

  /** `c` is labelled like an indicator column of `col` (`type_...`). */
  predicate IsDummyOf(col: string, c: string) {
    |c| > |col| && c[..|col| + 1] == col + "_"
  }

  /** No existing column could be mistaken for an indicator column of `col`. */
  predicate NoDummyClash(cols: seq<string>, col: string) {
    forall c :: c in cols ==> !IsDummyOf(col, c)
  }

  /** Two partitions of one frame whose column `col` holds text, with no
      other column labelled like one of its indicator columns. */
  predicate SplitOf(train: Table, test: Table, col: string) {
    && WellFormed(train) && WellFormed(test) && train.columns == test.columns
    && col in train.columns && NoDummyClash(train.columns, col)
    && AllText(Column(train, col)) && AllText(Column(test, col))
  }

  /** Both partitions of a fold, one-hot encoded, with the test frame
      reindexed to the training frame's columns (`fill_value=0`). */
  function OneHotSplit(train: Table, test: Table, col: string): (r: Result<(Table, Table)>)
    requires Rectangular(train) && Rectangular(test)
    requires col in train.columns ==> AllText(Column(train, col))
    requires col in test.columns ==> AllText(Column(test, col))
    ensures col !in train.columns || col !in test.columns ==> r == Err(KeyError([col]))
    ensures r.Ok? ==> && Rectangular(r.value.1) && r.value.1.columns == r.value.0.columns
                      && |r.value.0.rows| == |train.rows| && |r.value.1.rows| == |test.rows|
  {
    var encodedTrain :- GetDummies(train, col);
    var encodedTest :- GetDummies(test, col);
    var aligned :- Reindex(encodedTest, encodedTrain.columns);
    Ok((encodedTrain, aligned))
  }

  /** Where an indicator column of `col` stands in the dummies frame, and
      which level it is for. */
  lemma {:induction false} DummyColumnAt(t: Table, col: string, n: string)
    requires WellFormed(t) && col in t.columns && AllText(Column(t, col)) && NoDummyClash(t.columns, col)
    requires n in GetDummies(t, col).value.columns && IsDummyOf(col, n)
    ensures var r := GetDummies(t, col).value;
      var kept := KeptLevels(Levels(Texts(Column(t, col))));
      var k := IndexOf(r.columns, n);
      && |r.columns| == |t.columns| - 1 + |kept|
      && |t.columns| - 1 <= k && n == DummyName(col, kept[k - (|t.columns| - 1)])
  {
    var base := Drop(t, [col]).value.columns;
    var kept := KeptLevels(Levels(Texts(Column(t, col))));
    var names := DummyNames(col, kept);
    DummyColumns(t, col);
    DropColumnCount(t, [col]);
    assert n !in base by {
      DropColumnsExactly(t, [col]);
    }
    IndexOfSuffix(base, names, n);
    var j := IndexOf(names, n);
    assert n == names[j] == DummyName(col, kept[j]);
  }

  /** The encoded test frame has exactly the training frame's columns, in
      the training order: indicator columns the test partition lacks are
      added, test-only indicator columns are discarded. */
  lemma AlignedColumns(train: Table, test: Table, col: string)
    requires Rectangular(train) && Rectangular(test)
    requires col in train.columns ==> AllText(Column(train, col))
    requires col in test.columns ==> AllText(Column(test, col))
    requires OneHotSplit(train, test, col).Ok?
    ensures var (encodedTrain, aligned) := OneHotSplit(train, test, col).value;
      && Rectangular(aligned) && aligned.columns == encodedTrain.columns && |aligned.rows| == |test.rows|
      && forall c :: c in GetDummies(test, col).value.columns && c !in encodedTrain.columns ==> c !in aligned.columns
  {
  }

  /** Two partitions of one frame always encode and align: the test
      dummies have distinct labels, so the reindex cannot raise. */
  lemma OneHotSplitSucceeds(train: Table, test: Table, col: string)
    requires SplitOf(train, test, col)
    ensures OneHotSplit(train, test, col).Ok?
  {
    DummiesDistinct(test, col);
  }

  /** After alignment every column other than `col` keeps the test row's
      own cell. */
  lemma {:induction false} AlignedKeepsOtherColumns(train: Table, test: Table, col: string, i: nat)
    requires SplitOf(train, test, col) && OneHotSplit(train, test, col).Ok? && i < |test.rows|
    ensures var aligned := OneHotSplit(train, test, col).value.1;
      forall c :: c in test.columns && c != col ==> c in aligned.columns && Get(aligned, i, c) == Get(test, i, c)
  {
    var (encodedTrain, aligned) := OneHotSplit(train, test, col).value;
    forall c | c in test.columns && c != col
      ensures c in aligned.columns && Get(aligned, i, c) == Get(test, i, c)
    {
      DummiesKeepOtherColumns(train, col, c);
      DummiesKeepOtherColumns(test, col, c);
      var k := IndexOf(encodedTrain.columns, c);
      assert Get(aligned, i, c) == aligned.rows[i][k];
    }
  }

  /** `get_dummies` keeps every other column, with its cells. */
  lemma DummiesKeepOtherColumns(t: Table, col: string, c: string)
    requires WellFormed(t) && col in t.columns && AllText(Column(t, col))
    requires c in t.columns && c != col
    ensures var r := GetDummies(t, col).value;
      c in r.columns && forall i :: 0 <= i < |t.rows| ==> Get(r, i, c) == Get(t, i, c)
  {
    var r := GetDummies(t, col).value;
    var cats := Texts(Column(t, col));
    var kept := KeptLevels(Levels(cats));
    var base := Drop(t, [col]).value;
    DropKeepsColumn(t, [col], c);
    var names := DummyNames(col, kept);
    assert r.columns == base.columns + names;
    IndexOfPrefix(base.columns, names, c);
    var k := IndexOf(base.columns, c);
    forall i | 0 <= i < |t.rows| ensures Get(r, i, c) == Get(t, i, c) {
      assert r.rows[i] == base.rows[i] + Indicators(cats[i], kept);
      assert Get(r, i, c) == r.rows[i][k] == base.rows[i][k];
    }
  }

  /** After alignment a test row carries, in every training indicator
      column, 1 exactly when the column is its category's and its category
      is not the smallest one present in the test partition. */
  lemma {:induction false} AlignedTestDummies(train: Table, test: Table, col: string, i: nat)
    requires SplitOf(train, test, col) && OneHotSplit(train, test, col).Ok? && i < |test.rows|
    ensures var (encodedTrain, aligned) := OneHotSplit(train, test, col).value;
      var testCats := Texts(Column(test, col));
      && |Levels(testCats)| > 0
      && |aligned.rows| == |test.rows| && |aligned.rows[i]| == |encodedTrain.columns|
      && (forall k :: |train.columns| - 1 <= k < |encodedTrain.columns| ==>
            aligned.rows[i][k] == Int(if testCats[i] != Levels(testCats)[0] &&
                                         encodedTrain.columns[k] == DummyName(col, testCats[i]) then 1 else 0))
  {
    var (encodedTrain, aligned) := OneHotSplit(train, test, col).value;
    var encodedTest := GetDummies(test, col).value;
    var testCats := Texts(Column(test, col));
    var c := testCats[i];
    DummiesDistinct(test, col);
    TestCategoryColumn(test, col, i);
    forall k | |train.columns| - 1 <= k < |encodedTrain.columns|
      ensures aligned.rows[i][k] == Int(if c != Levels(testCats)[0] && encodedTrain.columns[k] == DummyName(col, c) then 1 else 0)
    {
      var n := encodedTrain.columns[k];
      TrainDummyColumn(train, col, k);
      if n in encodedTest.columns {
        TestDummyCell(test, col, i, n);
      }
    }
  }

  /** Every column of the dummies frame past the other columns is an indicator column. */
  lemma TrainDummyColumn(t: Table, col: string, k: nat)
    requires WellFormed(t) && col in t.columns && AllText(Column(t, col))
    requires |t.columns| - 1 <= k < |GetDummies(t, col).value.columns|
    ensures IsDummyOf(col, GetDummies(t, col).value.columns[k])
  {
    DropColumnCount(t, [col]);
    var kept := KeptLevels(Levels(Texts(Column(t, col))));
    var j := k - (|t.columns| - 1);
    assert GetDummies(t, col).value.columns[k] == DummyName(col, kept[j]);
    DummyNameIsDummy(col, kept[j]);
  }

  /** A row whose category is not the smallest level has its own indicator column. */
  lemma TestCategoryColumn(t: Table, col: string, i: nat)
    requires WellFormed(t) && col in t.columns && AllText(Column(t, col)) && i < |t.rows|
    ensures var cats := Texts(Column(t, col));
      && |Levels(cats)| > 0
      && (cats[i] != Levels(cats)[0] ==> DummyName(col, cats[i]) in GetDummies(t, col).value.columns)
  {
    var cats := Texts(Column(t, col));
    var levels := Levels(cats);
    var c := cats[i];
    assert c in levels by { assert c in cats; }
    var q :| 0 <= q < |levels| && levels[q] == c;
    if q > 0 {
      DummyColumns(t, col);
      assert KeptLevels(levels)[q - 1] == c;
    }
  }

  /** A row's cell in one of its partition's indicator columns: 1 exactly
      for its own category, unless that is the smallest level. */
  lemma TestDummyCell(t: Table, col: string, i: nat, n: string)
    requires WellFormed(t) && col in t.columns && AllText(Column(t, col)) && NoDummyClash(t.columns, col)
    requires i < |t.rows| && n in GetDummies(t, col).value.columns && IsDummyOf(col, n)
    ensures var cats := Texts(Column(t, col));
      && |Levels(cats)| > 0
      && Get(GetDummies(t, col).value, i, n) == Int(if cats[i] != Levels(cats)[0] && n == DummyName(col, cats[i]) then 1 else 0)
  {
    var r := GetDummies(t, col).value;
    var cats := Texts(Column(t, col));
    var levels := Levels(cats);
    var c := cats[i];
    assert c in levels by { assert c in cats; }
    var kept := KeptLevels(levels);
    DummyColumnAt(t, col, n);
    var j := IndexOf(r.columns, n) - (|t.columns| - 1);
    DummyCellAt(t, col, i, j);
    assert levels[j + 1] == kept[j];
    LevelsSorted(cats);
    assert n == DummyName(col, c) ==> c == kept[j] by {
      if n == DummyName(col, c) { DummyNameInjective(col, c, kept[j]); }
    }
    assert Below(levels[0], levels[j + 1]);
    assert c == kept[j] ==> c != levels[0] by {
      BelowIrreflexive(levels[0]);
    }
  }

  /** The j-th indicator column's cell in row i: 1 exactly when the row's
      category is the j-th kept level. */
  lemma DummyCellAt(t: Table, col: string, i: nat, j: nat)
    requires WellFormed(t) && col in t.columns && AllText(Column(t, col)) && i < |t.rows|
    requires j < |KeptLevels(Levels(Texts(Column(t, col))))|
    ensures var r := GetDummies(t, col).value;
      var kept := KeptLevels(Levels(Texts(Column(t, col))));
      && |t.columns| - 1 + j < |r.rows[i]|
      && r.rows[i][|t.columns| - 1 + j] == Int(if Texts(Column(t, col))[i] == kept[j] then 1 else 0)
  {
    var cats := Texts(Column(t, col));
    var kept := KeptLevels(Levels(cats));
    var base := Drop(t, [col]).value;
    DropColumnCount(t, [col]);
    DropDistinct(t, [col]);
    assert |base.rows[i]| == |t.columns| - 1;
    assert GetDummies(t, col).value.rows[i] == base.rows[i] + Indicators(cats[i], kept);
  }

  /** A test row of the test partition's smallest category is 0 in every
      training indicator column: it is encoded like the training reference
      level, whatever its category is. */
  lemma TestReferenceCollapses(train: Table, test: Table, col: string, i: nat)
    requires SplitOf(train, test, col) && OneHotSplit(train, test, col).Ok? && i < |test.rows|
    requires Texts(Column(test, col))[i] == Levels(Texts(Column(test, col)))[0]
    ensures var (encodedTrain, aligned) := OneHotSplit(train, test, col).value;
      forall k :: |train.columns| - 1 <= k < |encodedTrain.columns| ==> aligned.rows[i][k] == Int(0)
  {
    AlignedTestDummies(train, test, col, i);
  }

  /** So when the test partition lacks the training reference level, its
      smallest category, although the training encoding gives it a column
      of its own with a 1, arrives at the model as all zeros. */
  lemma {:induction false} ReferenceLevelMismatch(train: Table, test: Table, col: string, i: nat, j: nat)
    requires SplitOf(train, test, col) && OneHotSplit(train, test, col).Ok? && i < |test.rows| && j < |train.rows|
    requires Texts(Column(test, col))[i] == Texts(Column(train, col))[j] == Levels(Texts(Column(test, col)))[0]
    requires Texts(Column(train, col))[j] != Levels(Texts(Column(train, col)))[0]
    ensures var (encodedTrain, aligned) := OneHotSplit(train, test, col).value;
      var name := DummyName(col, Texts(Column(train, col))[j]);
      && name in encodedTrain.columns
      && Get(encodedTrain, j, name) == Int(1)
      && Get(aligned, i, name) == Int(0)
  {
    OwnIndicatorIsOne(train, col, j);
    ReferenceRowZero(train, test, col, i, DummyName(col, Texts(Column(train, col))[j]));
  }

  /** The aligned test row of the test partition's smallest category is 0
      under every training indicator column. */
  lemma ReferenceRowZero(train: Table, test: Table, col: string, i: nat, name: string)
    requires SplitOf(train, test, col) && OneHotSplit(train, test, col).Ok? && i < |test.rows|
    requires Texts(Column(test, col))[i] == Levels(Texts(Column(test, col)))[0]
    requires name in GetDummies(train, col).value.columns
    requires |train.columns| - 1 <= IndexOf(GetDummies(train, col).value.columns, name)
    ensures var (encodedTrain, aligned) := OneHotSplit(train, test, col).value;
      && name in aligned.columns && Rectangular(aligned) && i < |aligned.rows|
      && Get(aligned, i, name) == Int(0)
  {
    DummiesDistinct(test, col);
    var p := OneHotSplit(train, test, col).value;
    assert Rectangular(p.1) && p.1.columns == p.0.columns && i < |p.1.rows| by {
      AlignedColumns(train, test, col);
    }
    assert forall k :: |train.columns| - 1 <= k < |p.0.columns| ==> p.1.rows[i][k] == Int(0) by {
      TestReferenceCollapses(train, test, col, i);
    }
    ZeroCell(p.0, p.1, i, name, |train.columns| - 1);
  }

  /** A row of a frame aligned to `enc`'s columns that is 0 from column `lo`
      on is 0 in every column that stands there. */
  lemma ZeroCell(enc: Table, aligned: Table, i: nat, name: string, lo: nat)
    requires Rectangular(aligned) && aligned.columns == enc.columns && i < |aligned.rows|
    requires name in enc.columns && lo <= IndexOf(enc.columns, name)
    requires forall k :: lo <= k < |enc.columns| ==> aligned.rows[i][k] == Int(0)
    ensures name in aligned.columns && Get(aligned, i, name) == Int(0)
  {
  }

  /** A row whose category is not the smallest level has a 1 in its own
      indicator column, which stands among the indicator columns. */
  lemma OwnIndicatorIsOne(t: Table, col: string, j: nat)
    requires WellFormed(t) && col in t.columns && AllText(Column(t, col)) && NoDummyClash(t.columns, col)
    requires j < |t.rows| && Texts(Column(t, col))[j] != Levels(Texts(Column(t, col)))[0]
    ensures var r := GetDummies(t, col).value;
      var name := DummyName(col, Texts(Column(t, col))[j]);
      && name in r.columns
      && |t.columns| - 1 <= IndexOf(r.columns, name) < |r.columns|
      && Get(r, j, name) == Int(1)
  {
    var c := Texts(Column(t, col))[j];
    var name := DummyName(col, c);
    TestCategoryColumn(t, col, j);
    DummyNameIsDummy(col, c);
    DummyColumnAt(t, col, name);
    TestDummyCell(t, col, j, name);
  }

  lemma DummyNameIsDummy(col: string, level: string)
    ensures IsDummyOf(col, DummyName(col, level))
  {
    assert DummyName(col, level)[..|col| + 1] == col + "_";
  }
}
