# Fraud-detection pipeline: feature building and cross-validated encoding

This project models, in Dafny, the two pieces of the fraud-detection
repository that carry logic of their own:

* **Feature building** (`src/features/build_features.py`): the script adds
  `hour = step % 24` to the transaction frame in place. It then drops six
  redundant or leaky columns (`newbalanceOrig`, `newbalanceDest`,
  `isFlaggedFraud`, `nameOrig`, `nameDest`, `type`) and writes the result.
  A missing input file ends the run with nothing written.
* **Cross-validation harness** (`src/models/train_model.py`): for each
  stratified fold, the harness encodes the categorical `type` column from
  the training rows only. The tree models get target-mean encoding with a
  fallback to the training fraud rate. The linear model gets one-hot
  encoding with `drop_first=True`, and the test frame is reindexed to the
  training columns. Each fold fits and predicts, then appends six scores
  and one confusion matrix to seven lists. The harness averages the scores
  and sums the matrices. The file also computes the class-imbalance weight
  `scale_pos_weight` and the production encoding, fitted on every row.

Modules:

* `Frames` (`frames.dfy`): the pandas operations the code relies on, over
  a table of ordered column labels and rows of cells (`Int`, `Real`,
  `Text`, `NaN`). The operations are `df[c]` (`Column`), `df[c] = v`
  (`WithColumn`, and `DataFrame.SetColumn` on a mutable frame), `iloc`
  (`SelectRows`), `drop(columns=...)` (`Drop`, which raises a KeyError
  naming the missing labels) and `reindex(columns=..., fill_value=0)`
  (`Reindex`).
* `Features` (`features.dfy`): `criando_novas_features` as the method
  `CreateNewFeatures`, which updates the frame it is given.
  `removendo_features_redundantes_e_ineficientes` is the function
  `RemoveRedundantFeatures`. `main` is the method `BuildFeatures`.
* `TargetEncoding` (`target_encoding.dfy`): `y.groupby(X['type']).mean()`
  is a single accumulation pass (`GroupBy`), proved equal to per-category
  counts. `map` and `fillna` are also here.
* `OneHot` (`one_hot.dfy`): `get_dummies(drop_first=True)` with levels in
  Python string order, and the alignment of the test frame to the training
  columns.
* `CrossValidation` (`cross_validation.dfy`): folds, the fold loop
  (`CrossValidate`, proved equal to the specification function
  `CrossValidationReport`),
  confusion matrices and their sum, `scale_pos_weight`, the production
  encoding, and the mismatch between the two scripts described below.

Means are exact `real`s. The classifier (`fit` then `predict`) and the six
scores (precision, recall and F1, each with macro and weighted averaging)
are inputs: opaque functions. The folds are an input too, constrained to
partition the rows.

The processed file that `build_features.py` writes no longer has a `type`
column, because the pruning drops it. `train_model.py` reads that file and
indexes `type`. `CrossValidation.ProcessedFileLacksCategory` proves that
both harnesses then raise a KeyError for `type` on their first fold. The
encoders are modelled over any frame that has the column, and the
mismatch is recorded rather than repaired.

## Model

| member | source | states |
|---|---|---|
| Frames.Drop | src/features/build_features.py:6-7 | `drop` raises a KeyError exactly when some listed label is not a column, and the error names exactly the missing labels |
| Frames.DropKeepsOthers | src/features/build_features.py:6-7 | after a drop, the remaining columns are exactly those not listed, in their original relative order; the rows and their cells are kept |
| Frames.DropWellFormed | src/features/build_features.py:6-7 | a successful drop keeps distinct labels, every row, and exactly the unlisted columns |
| Frames.DropKeepsColumn | src/features/build_features.py:6-7 | an unlisted column survives the drop with all its cells |
| Frames.DropKeepsRelation | src/features/build_features.py:6-7 | two unlisted columns keep, row by row, any relation between their cells |
| Frames.DropColumnCount | src/features/build_features.py:6-7 | dropping k distinct present labels leaves k columns fewer |
| Frames.WithColumn | src/features/build_features.py:12 | `df[c] = v` keeps the row count; it overwrites `c` where it stands or appends it as the last column |
| Frames.WithColumnCells | src/features/build_features.py:12 | after `df[c] = v`, column `c` holds `v` row by row and every other cell is unchanged |
| Frames.DataFrame.SetColumn | src/features/build_features.py:12 | the in-place assignment changes the frame to exactly the table `WithColumn` describes |
| Frames.SelectRows | src/models/train_model.py:36 | `iloc[idx]` keeps the columns and has one row per index |
| Frames.Take | src/models/train_model.py:37 | `y.iloc[idx]` holds the label of row `idx[k]` at position k |
| Frames.Reindex | src/models/train_model.py:87 | the result has exactly the requested columns in the requested order; on a frame with distinct labels each cell is the original cell when the column existed and 0 otherwise; a frame with repeated labels raises a ValueError unless the requested columns are its own, and then comes back unchanged |
| Frames.ReindexToOwnColumns | src/models/train_model.py:87 | reindexing a frame with distinct labels to its own columns changes nothing |
| Frames.Column | src/models/train_model.py:39 | `df[c]` has one cell per row of the frame |
| Frames.DataFrame.constructor | src/models/train_model.py:41-42 | `.copy()` gives a new frame object holding exactly the given table, with distinct labels and equal-length rows |
| Features.HourOf | src/features/build_features.py:12 | `step % 24` under Python's floored modulo: an integer step gives an hour in [0, 24) that differs from the step by a multiple of 24, negative steps included; NaN stays NaN; text raises TypeError |
| Features.Hours | src/features/build_features.py:12 | the column-wise `%` succeeds exactly when no step is text, and then each row's hour is that row's step modulo 24 |
| Features.HourColumn | src/features/build_features.py:12 | `df['step']` raises a KeyError when there is no `step` column |
| Features.CreateNewFeatures | src/features/build_features.py:10-13 | the function updates the frame it was given and returns that same frame, with `hour` set; when the expression raises, the frame is untouched |
| Features.NewFeaturesOnlyAddHour | src/features/build_features.py:10-13 | only `hour` is added or overwritten: the row count and every other cell are unchanged, and each hour is its row's step modulo 24 |
| Features.RemoveRedundantFeatures | src/features/build_features.py:4-8 | the pruning succeeds exactly when all six listed columns are present |
| Features.RemoveRedundantExactly | src/features/build_features.py:6-7 | the pruning removes exactly the six columns; the others keep their relative order and cells, and the row count is unchanged |
| Features.RemoveRedundantCount | src/features/build_features.py:6-7 | the pruned frame has six columns fewer |
| Features.RemoveRedundantTwiceFails | src/features/build_features.py:6-7 | pruning its own output raises a KeyError naming all six columns, so pruning twice is not a no-op |
| Features.ProcessedFeatures | src/features/build_features.py:26-27 | derive-then-prune raises a KeyError for `step` when there is no `step` column; a successful run had `step` and all six pruned columns |
| Features.ProcessedKeepsStepAndHour | src/features/build_features.py:26-27 | because derivation runs before pruning, `step` and `hour` both reach the output, each hour is its row's step modulo 24, and none of the six columns is present |
| Features.DerivedHour | src/features/build_features.py:10-13 | after the derivation the frame keeps distinct labels and holds `step` and `hour`, each hour its step modulo 24 |
| Features.PrunedHours | src/features/build_features.py:4-8 | the pruning keeps `step` and `hour` with their cells, so each hour stays its step modulo 24 |
| Features.ProcessedFeaturesSucceeds | src/features/build_features.py:26-27 | the run succeeds exactly when `step` is present and holds no text and all six pruned columns are present |
| Features.BuildFeatures | src/features/build_features.py:15-32 | a missing input file gives a run that writes nothing; otherwise the outcome is the derive-then-prune result or the error it raises |
| TargetEncoding.GroupBy | src/models/train_model.py:39 | the groupby pass never loses a group it started with, and it never creates a group for a missing category |
| TargetEncoding.GroupByTallies | src/models/train_model.py:39 | the groupby pass produces one group per non-missing category, holding that category's row count and fraud count |
| TargetEncoding.TargetMeans | src/models/train_model.py:39 | the map's keys are exactly the non-missing categories present; each value is (fraud rows of the category) / (rows of the category), a rate in [0, 1] |
| TargetEncoding.FraudsAtMostCount | src/models/train_model.py:39 | a category's fraud count never exceeds its row count, and a present category has at least one row |
| TargetEncoding.MapCategories | src/models/train_model.py:45-46 | `map` keeps the length; a cell becomes NaN exactly when its category is not a key, and otherwise becomes that key's value |
| TargetEncoding.FillNaN | src/models/train_model.py:46 | `fillna(v)` keeps the length and leaves no NaN: each NaN becomes `v` and every other cell is kept |
| TargetEncoding.MeanLabel | src/models/train_model.py:46 | `y_tr.mean()` times the row count is the number of fraud rows; it lies in [0, 1] |
| TargetEncoding.TrainEncodingComplete | src/models/train_model.py:39-45 | mapping the training categories through their own means leaves no gap, and each value is the category's training fraud rate, in [0, 1] |
| TargetEncoding.TestEncodingFallsBack | src/models/train_model.py:46 | a test category seen in training gets its training fraud rate; an unseen or missing category gets the fraud rate of the whole training partition |
| TargetEncoding.LabelsSplit | src/models/train_model.py:121 | fraud rows plus legitimate rows are all rows |
| OneHot.Levels | src/models/train_model.py:84 | the levels `get_dummies` uses are exactly the categories present |
| OneHot.LevelsSorted | src/models/train_model.py:84 | the levels are in strictly ascending Python string order |
| OneHot.InsertSorted | src/models/train_model.py:84 | adding one category to strictly ascending levels keeps them strictly ascending |
| OneHot.SortedDistinct | src/models/train_model.py:84 | strictly ascending levels hold each category once |
| OneHot.LevelsStartAtSmallest | src/models/train_model.py:84 | the first (dropped) level is the smallest category present |
| OneHot.GetDummies | src/models/train_model.py:84-85 | `get_dummies` raises a KeyError exactly when the column is missing |
| OneHot.DummiesIndicateCategory | src/models/train_model.py:84-85 | the indicator columns follow the other columns, one `type_<level>` per level except the smallest; row i is 1 in the column of its own category and 0 in every other, and it has a column of its own exactly when its category is not the smallest |
| OneHot.DummyCellAt | src/models/train_model.py:84-85 | a row's cell in the j-th indicator column is 1 exactly when its category is the j-th kept level |
| OneHot.FirstLevelDropped | src/models/train_model.py:84 | with `drop_first=True` the smallest level gets no column |
| OneHot.DummiesKeepOtherColumns | src/models/train_model.py:84-85 | `get_dummies` keeps every column other than `type`, with all its cells |
| OneHot.DummyColumnAt | src/models/train_model.py:84 | each indicator column sits after the other columns and names one of the kept levels |
| OneHot.OneHotSplit | src/models/train_model.py:84-87 | encoding and aligning a fold raises a KeyError when either partition lacks the column; on success the test frame has the training frame's columns, and each partition keeps its row count |
| OneHot.OneHotSplitSucceeds | src/models/train_model.py:84-87 | for two partitions of one frame with text categories and no column labelled `type_…`, the split never raises: the test dummies have distinct labels, so the reindex succeeds |
| OneHot.DummiesDistinct | src/models/train_model.py:84-85 | when no column is labelled like an indicator column, the dummies frame has distinct labels |
| OneHot.DummyNamesDistinct | src/models/train_model.py:84-85 | distinct levels give distinct indicator labels, each of the `type_<level>` form |
| OneHot.AlignedColumns | src/models/train_model.py:87 | after reindexing, the test frame has exactly the training frame's columns in training order; test-only indicator columns are discarded |
| OneHot.AlignedKeepsOtherColumns | src/models/train_model.py:84-87 | each non-category test cell survives encoding and alignment unchanged |
| OneHot.AlignedTestDummies | src/models/train_model.py:84-87 | an aligned test row is 1 in a training indicator column exactly when the column is its category's and its category is not the smallest in the test partition; every column the test frame lacked is 0 |
| OneHot.TestReferenceCollapses | src/models/train_model.py:84-87 | a test row of the test partition's smallest category is all zeros in the training indicator columns, encoded like the training reference level |
| OneHot.ReferenceLevelMismatch | src/models/train_model.py:84-87 | when the test partition lacks the training reference level, its smallest category has a 1 in its own column on the training side but arrives at the model as all zeros |
| OneHot.OwnIndicatorIsOne | src/models/train_model.py:84 | a training row whose category is not the smallest has its own indicator column, among the indicator columns, and a 1 in it |
| OneHot.ReferenceRowZero | src/models/train_model.py:84-87 | a test row of the test partition's smallest category reads 0 under every training indicator column |
| CrossValidation.FoldMeans | src/models/train_model.py:39 | the fold's map has a key for exactly each non-missing category among the training rows, and every value is a rate in [0, 1] |
| CrossValidation.TargetEncodedSplit | src/models/train_model.py:36-46 | the tree-model split raises a KeyError exactly when `type` is missing; otherwise both partitions keep all columns and have one row per training or test index |
| CrossValidation.EncodeTargetFold | src/models/train_model.py:36-46 | copying the partitions and overwriting `type` in place gives exactly the fold's target-encoded split |
| CrossValidation.TargetSplitTrainSide | src/models/train_model.py:39-45 | each training row with a category gets that category's training fraud rate, in [0, 1]; other columns keep the row's cells |
| CrossValidation.TargetSplitTestSide | src/models/train_model.py:46 | each test row gets its category's training rate when training saw it, and otherwise the training partition's fraud rate |
| CrossValidation.TestLabelsDoNotLeak | src/models/train_model.py:39-46 | changing only test-row labels changes no encoded value in either partition |
| CrossValidation.MapDependsOnTrainingRowsOnly | src/models/train_model.py:39 | the map, the fallback and the encoded training partition depend only on the training rows and labels, not on any test row |
| CrossValidation.LinearSplit | src/models/train_model.py:81-87 | the one-hot split raises a KeyError when `type` is missing; on success the train and test frames have identical columns and one row per fold index |
| CrossValidation.LinearSplitSucceeds | src/models/train_model.py:81-87 | with `type` present and no column labelled like one of its indicator columns, the one-hot split of a fold succeeds |
| CrossValidation.PairsCover | src/models/train_model.py:59 | the four confusion cells count every position once; the fraud row counts the true frauds and the fraud column the predicted frauds |
| CrossValidation.ConfusionMatrix | src/models/train_model.py:59 | the matrix counts every test row once; it is 2x2 exactly when both classes occur among the true and predicted labels, and its fraud row and column sum to the true and predicted fraud counts |
| CrossValidation.AddConfusion | src/models/train_model.py:68 | two matrices add exactly when they have one shape, else a ValueError; the sum keeps the shape, and each cell of a 2x2 sum is the sum of that cell |
| CrossValidation.SumConfusions | src/models/train_model.py:68 | the sum is defined exactly when all matrices have one shape; it then counts every entry of every matrix, and each cell of a 2x2 sum is that cell's total over the matrices |
| CrossValidation.SumConfusionsError | src/models/train_model.py:68 | the only way summing fails is a ValueError from a shape mismatch |
| CrossValidation.Mean | src/models/train_model.py:61-66 | the mean times the number of folds is the sum of the fold scores |
| CrossValidation.MeanBounds | src/models/train_model.py:61-66 | the mean over the folds lies within the bounds of the fold scores |
| CrossValidation.MapFolds | src/models/train_model.py:35 | the loop visits the folds in order: the k-th outcome is the k-th fold's iteration |
| CrossValidation.CollectEntries | src/models/train_model.py:35-59 | the loop finishes exactly when no fold raises, and then the k-th entry is fold k's scores and matrix |
| CrossValidation.FirstFailureEndsLoop | src/models/train_model.py:35-59 | the first fold that raises ends the loop with its error |
| CrossValidation.ListsOfEntries | src/models/train_model.py:29-59 | each of the seven lists holds one entry per iteration, the k-th list entry being iteration k's score or matrix |
| CrossValidation.FoldResult | src/models/train_model.py:36-59 | one iteration raises a KeyError when `type` is missing; a successful one yields a matrix that counts every test row once, is 2x2 when the test rows hold both classes, and then has a fraud row that counts the test frauds |
| CrossValidation.RunFold | src/models/train_model.py:36-59 | one iteration encodes its fold, fits, predicts and scores exactly as specified, raising a ValueError when the prediction count differs from the test rows |
| CrossValidation.RunFolds | src/models/train_model.py:29-59 | the loop that starts seven empty lists and appends to each per fold fills them exactly as specified, or returns the first failing fold's error |
| CrossValidation.FoldLoop | src/models/train_model.py:29-59 | the loop fills its lists exactly when no fold raises; then every list has one entry per fold, and the k-th matrix is fold k's |
| CrossValidation.Summary | src/models/train_model.py:61-68 | the report exists exactly when the matrix list can be summed, and its matrix is that sum |
| CrossValidation.CrossValidationReport | src/models/train_model.py:27-68 | a report's summed matrix counts every test row of every fold |
| CrossValidation.CrossValidate | src/models/train_model.py:27-110 | the loop that appends to seven lists and then averages and sums computes exactly the specified report, or the error of the first failing step |
| CrossValidation.PartitionSizes | src/models/train_model.py:35 | the test sets of a partition of n rows hold n rows in all |
| CrossValidation.FoldConfusion | src/models/train_model.py:59 | a fold's matrix counts its test rows, and it is 2x2 when those rows hold both classes |
| CrossValidation.TestIndicesCard | src/models/train_model.py:35 | disjoint duplicate-free test sets cover exactly the rows some fold tests, and that many rows |
| CrossValidation.CollectedTotals | src/models/train_model.py:59-68 | when each fold's matrix counts its test rows, the collected matrices count all test rows together |
| CrossValidation.ReportCountsEveryRow | src/models/train_model.py:68 | the summed confusion matrix's cells add up to the number of rows |
| CrossValidation.ReportCountsEveryFraud | src/models/train_model.py:59-68 | when the folds partition the rows, a 2x2 summed matrix's fraud row (false negatives plus true positives) counts every fraudulent row |
| CrossValidation.FraudRows | src/models/train_model.py:37 | the fraud rows of an index list are exactly its indices labelled fraud; there are as many as the fraud labels of the selected rows, without repeats |
| CrossValidation.PartitionFrauds | src/models/train_model.py:35 | when the folds partition the rows, their test fraud rows number all fraud labels |
| CrossValidation.FraudRowTotals | src/models/train_model.py:59-68 | when each fold's 2x2 matrix has a fraud row counting its test frauds, the matrices' fraud rows add up to the test fraud rows of all folds |
| CrossValidation.CollectedFraudRows | src/models/train_model.py:59-68 | when every collected matrix is 2x2, their fraud rows add up to the test fraud rows of all folds |
| CrossValidation.FraudFoldsCover | src/models/train_model.py:35 | when every row is a test row of some fold, the fraud rows of the test sets cover exactly the rows labelled fraud |
| CrossValidation.FraudTestSizes | src/models/train_model.py:35 | duplicate-free, disjoint test sets that cover exactly the fraud rows hold as many rows as there are fraud labels |
| CrossValidation.PositivesAppend | src/models/train_model.py:59 | fraud labels count additively over concatenated label lists |
| CrossValidation.FraudSetCard | src/models/train_model.py:35 | the rows labelled fraud among the first n number the fraud labels among them |
| CrossValidation.BothClassesEveryFold | src/models/train_model.py:59-68 | when every test partition holds both classes and no fold raises, the sum is defined and is a 2x2 matrix |
| CrossValidation.CollectedSquares | src/models/train_model.py:59-68 | when every fold succeeds with a 2x2 matrix, the run reports a 2x2 sum |
| CrossValidation.CollectedMatrices | src/models/train_model.py:59 | when every fold succeeds, the matrix list holds their matrices in fold order |
| CrossValidation.MixedShapesRaise | src/models/train_model.py:59-68 | a 1x1 matrix in one fold and a 2x2 in another make the summation raise a ValueError |
| CrossValidation.MixedListsRaise | src/models/train_model.py:61-68 | lists holding a 1x1 and a 2x2 matrix cannot be summarised: a ValueError |
| CrossValidation.MixedMatricesRaise | src/models/train_model.py:68 | summing a 1x1 and a 2x2 matrix raises a ValueError |
| CrossValidation.ScalePosWeight | src/models/train_model.py:121 | with fraud rows present the weight is legitimate rows / fraud rows, non-negative; with none it is infinite, or NaN for empty labels |
| CrossValidation.ProductionEncoding | src/models/train_model.py:144-149 | the deployed encoding raises a KeyError exactly when `type` is missing; otherwise it keeps every column and row, and its map has a key for exactly each non-missing category |
| CrossValidation.EncodeForProduction | src/models/train_model.py:144-149 | copying the frame, fitting the map on all rows and overwriting `type` gives exactly the production encoding |
| CrossValidation.FullEncodingNoFallback | src/models/train_model.py:147-149 | the production map is fitted on all rows; every row with a category gets that category's fraud rate over the whole data, a missing category stays NaN, and other columns are unchanged; a missing `type` raises |
| CrossValidation.ProcessedFileLacksCategory | src/models/train_model.py:21-39 | on the processed file written by the feature script (minus `isFraud`), `type` is absent, and both harnesses raise a KeyError for `type` |

## Left out

- Reading and writing files (`read_parquet`, `read_csv`, `to_csv`, `joblib.dump`), directory creation, console output and warning suppression. The input of `main` is an optional table, and the written file is the run's outcome.
- The module-level lines of `train_model.py` that load the data, split off `isFraud` and call the harness for each model. They appear only as the hypotheses of `CrossValidation.ProcessedFileLacksCategory`.
- Classifier internals (`fit` and `predict` of the six model classes) and their hyperparameters. The classifier is an opaque function of the encoded training frame, the training labels and the encoded test frame. `fit` and `predict` are assumed not to raise: for example, the ValueError that `LogisticRegression.fit` raises when the training labels hold a single class is not modelled.
- `StratifiedKFold` shuffling and stratification. Folds are an input that must partition the rows (`CrossValidation.Partition`).
- Precision, recall and F1 under macro and weighted averaging. They are opaque functions of the true and predicted labels. A prediction count that differs from the test size is modelled as the ValueError scikit-learn raises.
- Floating-point rounding and the `:.4f` formatting of the printed means. Means are exact rationals.
- pandas dtypes: `get_dummies` produces boolean columns, modelled as `Int(0)` and `Int(1)`.
- OneHot.GetDummies: requires the `type` cells to be text. pandas would also encode numeric or missing categories, which the model does not cover. `CrossValidation.Ready` carries the same requirement for the linear harness.
- OneHot.AlignedTestDummies: assumes no existing column label starts with `type_` (`NoDummyClash`). Such a clash would make the indicator columns ambiguous. With a column `type_B` already present, the test dummies can carry `type_B` twice, and the reindex then raises a ValueError; no member states what happens in that case.
- The same assumption is made, directly or through `OneHot.SplitOf`, by `OneHot.DummiesDistinct`, `OneHot.DummyColumnAt`, `OneHot.TestDummyCell`, `OneHot.OwnIndicatorIsOne`, `OneHot.OneHotSplitSucceeds`, `OneHot.AlignedKeepsOtherColumns`, `OneHot.TestReferenceCollapses`, `OneHot.ReferenceLevelMismatch`, `OneHot.ReferenceRowZero` and `CrossValidation.LinearSplitSucceeds`.
- Frames.WellFormed: column labels are assumed distinct, as pandas guarantees for frames read from CSV and parquet files.
- Features.HourOf: text steps raise a TypeError. Python's printf-style `%` on strings is not modelled.
- CrossValidation.SumConfusions: follows NumPy 1.24 and later, where summing matrices of different shapes raises a ValueError. Older NumPy built an object array and broadcast the matrices instead.
- `src/models/predict_model.py`, `src/visualization/visualize.py` and `test_environment.py` are not part of this model. They are loading, plotting and environment plumbing around library calls.
