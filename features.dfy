/** Feature building for the transaction data (src/features/build_features.py):
    derive `hour` from `step` in place, drop six redundant or leaky columns,
    and the script that runs the two in that order and writes the result. */
module Features {
  import opened Frames

  /** The columns the pruning step removes, in the order the code lists them. */
  const RedundantColumns: seq<string> :=
    ["newbalanceOrig", "newbalanceDest", "isFlaggedFraud", "nameOrig", "nameDest", "type"]

  /** True when `x` is a whole number. */
  predicate IsWhole(x: real) {
    x.Floor as real == x
  }

  /** Python's `step % 24` on one cell: floored modulo, so the hour lies in
      [0, 24) and differs from the step by a multiple of 24, negative steps
      included; NaN stays NaN and text cannot be divided. */
  function HourOf(step: Cell): (h: Result<Cell>)
    ensures step.Int? ==> h.Ok? && h.value.Int? && 0 <= h.value.i < 24 && (step.i - h.value.i) % 24 == 0
    ensures step.Real? ==> h.Ok? && h.value.Real? && 0.0 <= h.value.r < 24.0 && IsWhole((step.r - h.value.r) / 24.0)
    ensures step.NaN? ==> h == Ok(NaN)
    ensures step.Text? ==> h == Err(TypeError)
  {
    match step
    case Int(i) =>
      assert i - i % 24 == 24 * (i / 24);
      Ok(Int(i % 24))
    case Real(r) =>
      var q := (r / 24.0).Floor;
      assert (r - (r - 24.0 * q as real)) / 24.0 == q as real;
      Ok(Real(r - 24.0 * q as real))
    case Text(_) => Err(TypeError)
    case NaN => Ok(NaN)
  }

  /** `step % 24` over a whole column: fails with the first row that fails. */
  function Hours(steps: seq<Cell>): (r: Result<seq<Cell>>)
    ensures r.Ok? <==> forall i :: 0 <= i < |steps| ==> !steps[i].Text?
    ensures r.Err? ==> r.error == TypeError
    ensures r.Ok? ==> |r.value| == |steps| && forall i :: 0 <= i < |steps| ==> HourOf(steps[i]) == Ok(r.value[i])
  {
    if steps == [] then Ok([])
    else
      var h :- HourOf(steps[0]);
      var rest :- Hours(steps[1..]);
      Ok([h] + rest)
  }

  /** The new `hour` column: a KeyError when there is no `step` column. */
  function HourColumn(t: Table): (r: Result<seq<Cell>>)
    requires Rectangular(t)
    ensures "step" !in t.columns ==> r == Err(KeyError(["step"]))
    ensures r.Ok? ==> |r.value| == |t.rows|
  {
    if "step" !in t.columns then Err(KeyError(["step"]))
    else Hours(Column(t, "step"))
  }

  /** `criando_novas_features(df)`: sets `df['hour'] = df['step'] % 24` on
      the frame it is given and returns that same frame; when the expression
      raises, the frame is left as it was. */
  method CreateNewFeatures(df: DataFrame) returns (result: Result<DataFrame>)
    requires df.Valid()
    modifies df
    ensures df.Valid()
    ensures HourColumn(old(df.Snapshot())).Err? ==>
              result == Err(HourColumn(old(df.Snapshot())).error) && df.Snapshot() == old(df.Snapshot())
    ensures HourColumn(old(df.Snapshot())).Ok? ==>
              result == Ok(df) && df.Snapshot() == WithColumn(old(df.Snapshot()), "hour", HourColumn(old(df.Snapshot())).value)
  {
    var hours := HourColumn(df.Snapshot());
    if hours.Err? {
      return Err(hours.error);
    }
    df.SetColumn("hour", hours.value);
    return Ok(df);
  }

  /** What `criando_novas_features` leaves in the frame: every row keeps its
      cells except `hour`, which is its `step` modulo 24, so an integer
      step gives an hour in [0, 24); the row count is unchanged and `hour`
      is either overwritten where it stood or appended last. */
  lemma NewFeaturesOnlyAddHour(t: Table)
    requires Rectangular(t) && HourColumn(t).Ok?
    ensures var r := WithColumn(t, "hour", HourColumn(t).value);
      && |r.rows| == |t.rows|
      && "step" in t.columns && "hour" in r.columns
      && r.columns == (if "hour" in t.columns then t.columns else t.columns + ["hour"])
      && (forall i :: 0 <= i < |t.rows| ==> HourOf(Get(t, i, "step")) == Ok(Get(r, i, "hour")))
      && (forall i :: 0 <= i < |t.rows| && Get(t, i, "step").Int? ==> 0 <= Get(r, i, "hour").i < 24)
      && (forall i, c :: 0 <= i < |t.rows| && c in t.columns && c != "hour" ==> Get(r, i, c) == Get(t, i, c))
  {
    WithColumnCells(t, "hour", HourColumn(t).value);
  }

  /** `removendo_features_redundantes_e_ineficientes(df)` */
  function RemoveRedundantFeatures(t: Table): (r: Result<Table>)
    requires Rectangular(t)
    ensures r.Ok? <==> forall c :: c in RedundantColumns ==> c in t.columns
  {
    Drop(t, RedundantColumns)
  }

  /** The pruning removes exactly the six listed columns, keeps every other
      column in its relative order with its cells, and keeps every row. */
  lemma RemoveRedundantExactly(t: Table)
    requires WellFormed(t) && RemoveRedundantFeatures(t).Ok?
    ensures var r := RemoveRedundantFeatures(t).value;
      && WellFormed(r) && |r.rows| == |t.rows|
      && (forall c :: c in r.columns <==> c in t.columns && c !in RedundantColumns)
      && (forall j, l :: 0 <= j < l < |r.columns| ==> IndexOf(t.columns, r.columns[j]) < IndexOf(t.columns, r.columns[l]))
      && (forall i, c :: 0 <= i < |r.rows| && c in r.columns ==> Get(r, i, c) == Get(t, i, c))
  {
    DropKeepsOthers(t, RedundantColumns);
  }

  /** The pruned frame has six columns fewer. */
  lemma RemoveRedundantCount(t: Table)
    requires WellFormed(t) && RemoveRedundantFeatures(t).Ok?
    ensures |RemoveRedundantFeatures(t).value.columns| == |t.columns| - 6
  {
    assert Distinct(RedundantColumns);
    DropColumnCount(t, RedundantColumns);
  }

  /** Pruning cannot be repeated: on its own output every listed column is
      absent, so the second drop raises a KeyError naming all six. */
  lemma {:induction false} RemoveRedundantTwiceFails(t: Table)
    requires WellFormed(t) && RemoveRedundantFeatures(t).Ok?
    ensures var r := RemoveRedundantFeatures(t).value;
      RemoveRedundantFeatures(r) == Err(KeyError(RedundantColumns))
  {
    DropColumnsExactly(t, RedundantColumns);
    var r := RemoveRedundantFeatures(t).value;
    MissingAll(RedundantColumns, r.columns);
  }

  /** When none of the labels is a column, all of them are reported missing. */
  lemma {:induction false} MissingAll(labels: seq<string>, cols: seq<string>)
    requires forall l :: l in labels ==> l !in cols
    ensures Missing(labels, cols) == labels
  {
    if labels != [] {
      MissingAll(labels[1..], cols);
    }
  }

  /** The processed file `main` writes: hour first, then the pruning. */
  function ProcessedFeatures(t: Table): (r: Result<Table>)
    requires WellFormed(t)
    ensures "step" !in t.columns ==> r == Err(KeyError(["step"]))
    ensures r.Ok? ==> "step" in t.columns && forall c :: c in RedundantColumns ==> c in t.columns
  {
    var hours :- HourColumn(t);
    RemoveRedundantFeatures(WithColumn(t, "hour", hours))
  }

  /** Because `hour` is derived before the pruning and neither `hour` nor
      `step` is pruned, both reach the processed file, with every hour the
      step of its row modulo 24, while the six pruned columns do not. */
  lemma ProcessedKeepsStepAndHour(t: Table)
    requires WellFormed(t) && ProcessedFeatures(t).Ok?
    ensures var r := ProcessedFeatures(t).value;
      && WellFormed(r) && |r.rows| == |t.rows|
      && "step" in r.columns && "hour" in r.columns
      && (forall c :: c in RedundantColumns ==> c !in r.columns)
      && (forall i :: 0 <= i < |r.rows| ==> HourOf(Get(r, i, "step")) == Ok(Get(r, i, "hour")))
  {
    var derived := WithColumn(t, "hour", HourColumn(t).value);
    assert ProcessedFeatures(t) == Drop(derived, RedundantColumns);
    DerivedHour(t);
    DropWellFormed(derived, RedundantColumns);
    PrunedHours(derived);
  }

  /** The pruning carries `step` and `hour` over with their cells, so a
      frame whose every hour is its step modulo 24 stays so. */
  lemma PrunedHours(derived: Table)
    requires WellFormed(derived) && "step" in derived.columns && "hour" in derived.columns
    requires forall i :: 0 <= i < |derived.rows| ==> HourOf(Get(derived, i, "step")) == Ok(Get(derived, i, "hour"))
    requires RemoveRedundantFeatures(derived).Ok?
    ensures var r := RemoveRedundantFeatures(derived).value;
      && "step" in r.columns && "hour" in r.columns && |r.rows| == |derived.rows|
      && forall i :: 0 <= i < |r.rows| ==> HourOf(Get(r, i, "step")) == Ok(Get(r, i, "hour"))
  {
    assert "step" !in RedundantColumns && "hour" !in RedundantColumns;
    DropKeepsRelation(derived, RedundantColumns, "step", "hour", (s, h) => HourOf(s) == Ok(h));
  }

  /** After `criando_novas_features` the frame keeps distinct labels and
      holds `step` and `hour`, every hour the step of its row modulo 24. */
  lemma DerivedHour(t: Table)
    requires WellFormed(t) && HourColumn(t).Ok?
    ensures var derived := WithColumn(t, "hour", HourColumn(t).value);
      && WellFormed(derived) && |derived.rows| == |t.rows|
      && "step" in derived.columns && "hour" in derived.columns
      && forall i :: 0 <= i < |derived.rows| ==> HourOf(Get(derived, i, "step")) == Ok(Get(derived, i, "hour"))
  {
    NewFeaturesOnlyAddHour(t);
    WithColumnWellFormed(t, "hour", HourColumn(t).value);
  }

  /** The script fails exactly when `step` is missing or holds text, or when
      one of the six columns is missing. */
  lemma ProcessedFeaturesSucceeds(t: Table)
    requires WellFormed(t)
    ensures ProcessedFeatures(t).Ok? <==>
              && "step" in t.columns
              && (forall i :: 0 <= i < |t.rows| ==> !Get(t, i, "step").Text?)
              && (forall c :: c in RedundantColumns ==> c in t.columns)
  {
    if "step" in t.columns {
      assert forall i :: 0 <= i < |t.rows| ==> Column(t, "step")[i] == Get(t, i, "step");
    }
    if "step" in t.columns && HourColumn(t).Ok? {
      var derived := WithColumn(t, "hour", HourColumn(t).value);
      assert forall c :: c in RedundantColumns ==> (c in derived.columns <==> c in t.columns);
    }
  }

  /** How a run of the script ends. */
  datatype RunOutcome =
    | InputMissing             // the input file does not exist: message printed, nothing written
    | Raised(error: Error)     // an exception propagates out of `main`
    | Written(output: Table)   // the processed frame written to the output file

  /** `main()`: reads the sample (None when the file is missing), derives,
      prunes and writes; a missing file returns without writing anything. */
  method BuildFeatures(source: Option<Table>) returns (outcome: RunOutcome)
    requires source.Some? ==> WellFormed(source.value)
    ensures source.None? <==> outcome == InputMissing
    ensures source.Some? ==> match ProcessedFeatures(source.value)
                             case Ok(r) => outcome == Written(r)
                             case Err(e) => outcome == Raised(e)
  {
    if source.None? {
      return InputMissing;
    }
    var df := new DataFrame(source.value);
    var derived := CreateNewFeatures(df);
    if derived.Err? {
      return Raised(derived.error);
    }
    var pruned := RemoveRedundantFeatures(df.Snapshot());
    if pruned.Err? {
      return Raised(pruned.error);
    }
    return Written(pruned.value);
  }
}
