/** The cross-validation harness of src/models/train_model.py: per fold,
    encode `type` on the training rows only (target means for the tree
    models, one-hot for the linear model), fit and predict, score, and
    collect one entry per fold in seven lists; then average the scores and
    sum the confusion matrices. Also the class-imbalance weight given to
    XGBoost and the production encoding fitted on all rows. The classifier
    and the six scores are library code and enter as opaque functions. */
module CrossValidation {
  import opened Frames
  import opened TargetEncoding
  import opened OneHot
  import Features

  /** The categorical column both encoders work on. */
  const Category: string := "type"

  /** One split of StratifiedKFold, as index lists into the data. */
  datatype Fold = Fold(train: seq<nat>, test: seq<nat>)

  predicate InRange(idx: seq<nat>, n: nat) {
    forall k :: 0 <= k < |idx| ==> idx[k] < n
  }

  /** A fold over n rows: the test indices are distinct, the training
      indices are the other rows, and neither side is empty. */
  predicate ValidFold(f: Fold, n: nat) {
    && InRange(f.train, n) && InRange(f.test, n) && Distinct(f.test)
    && (forall i :: 0 <= i < n ==> (i in f.train <==> i !in f.test))
    && |f.train| > 0 && |f.test| > 0
  }

  /** Row `i` is a test row of some fold. */
  predicate Covered(folds: seq<Fold>, i: nat) {
    exists k :: 0 <= k < |folds| && i in folds[k].test
  }

  /** What the loop needs of its folds: at least two, each valid. */
  predicate Splits(folds: seq<Fold>, n: nat) {
    |folds| >= 2 && AllValid(folds, n)
  }

  /** What StratifiedKFold hands the loop: valid folds whose test sets
      partition the rows. */
  predicate Partition(folds: seq<Fold>, n: nat) {
    && Splits(folds, n)
    && (forall i :: 0 <= i < n ==> Covered(folds, i))
    && (forall k, l, i :: 0 <= k < l < |folds| && i in folds[k].test ==> i !in folds[l].test)
  }

  // ---------------------------------------------------------------------
  // Target-mean encoding of one fold (tree models)
  // ---------------------------------------------------------------------

  /** The fold's encoding map, fitted on the training rows and labels only. */
  function FoldMeans(x: Table, y: seq<Label>, f: Fold): (means: map<Cell, real>)
    requires Rectangular(x) && |y| == |x.rows| && ValidFold(f, |y|) && Category in x.columns
    ensures forall c :: c in means <==> c in Column(SelectRows(x, f.train), Category) && c != NaN
    ensures forall c :: c in means ==> 0.0 <= means[c] <= 1.0
  {
    TargetMeans(Column(SelectRows(x, f.train), Category), Take(y, f.train))
  }

  /** Both partitions of the fold with `type` replaced by its training
      fraud rate; test categories the map lacks get the training rate. */
  function TargetEncodedSplit(x: Table, y: seq<Label>, f: Fold): (r: Result<(Table, Table)>)
    requires Rectangular(x) && |y| == |x.rows| && ValidFold(f, |y|)
    ensures r.Err? <==> Category !in x.columns
    ensures r.Err? ==> r.error == KeyError([Category])
    ensures r.Ok? ==> && r.value.0.columns == x.columns && r.value.1.columns == x.columns
                      && |r.value.0.rows| == |f.train| && |r.value.1.rows| == |f.test|
  {
    if Category !in x.columns then Err(KeyError([Category]))
    else
      var train, test := SelectRows(x, f.train), SelectRows(x, f.test);
      var means := FoldMeans(x, y, f);
      Ok((WithColumn(train, Category, MapCategories(Column(train, Category), means)),
          WithColumn(test, Category, FillNaN(MapCategories(Column(test, Category), means), MeanLabel(Take(y, f.train))))))
  }

  /** Lines 36-46 of one loop iteration: select the partitions, fit the
      map, copy each partition and overwrite its `type` column in place. */
  method EncodeTargetFold(x: Table, y: seq<Label>, f: Fold) returns (r: Result<(Table, Table)>)
    requires WellFormed(x) && |y| == |x.rows| && ValidFold(f, |y|)
    ensures r == TargetEncodedSplit(x, y, f)
  {
    var train, test := SelectRows(x, f.train), SelectRows(x, f.test);
    var yTrain := Take(y, f.train);
    if Category !in x.columns {
      return Err(KeyError([Category]));
    }
    var means := TargetMeans(Column(train, Category), yTrain);
    var trainProcessed := new DataFrame(train);
    var testProcessed := new DataFrame(test);
    trainProcessed.SetColumn(Category, MapCategories(Column(train, Category), means));
    testProcessed.SetColumn(Category, FillNaN(MapCategories(Column(test, Category), means), MeanLabel(yTrain)));
    r := Ok((trainProcessed.Snapshot(), testProcessed.Snapshot()));
  }

  /** Each training row's `type` becomes the fraud rate of its category
      among the training rows, a value in [0, 1], with no gap; the other
      columns and the rows are kept. */
  lemma TargetSplitTrainSide(x: Table, y: seq<Label>, f: Fold)
    requires Rectangular(x) && |y| == |x.rows| && ValidFold(f, |y|) && Category in x.columns
    ensures var train := SelectRows(x, f.train);
      var cats, labels := Column(train, Category), Take(y, f.train);
      var encoded := TargetEncodedSplit(x, y, f).value.0;
      && encoded.columns == x.columns && |encoded.rows| == |f.train|
      && (forall j :: 0 <= j < |f.train| && cats[j] != NaN ==>
            && Get(encoded, j, Category).Real?
            && Get(encoded, j, Category).r == Frauds(cats, labels, cats[j]) as real / Count(cats, cats[j]) as real
            && 0.0 <= Get(encoded, j, Category).r <= 1.0)
      && (forall j, c :: 0 <= j < |f.train| && c in x.columns && c != Category ==>
            Get(encoded, j, c) == Get(x, f.train[j], c))
  {
    var train := SelectRows(x, f.train);
    var cats, labels := Column(train, Category), Take(y, f.train);
    TrainEncodingComplete(cats, labels);
    WithColumnCells(train, Category, MapCategories(cats, TargetMeans(cats, labels)));
  }

  /** Each test row's `type` becomes the training fraud rate of its
      category when training saw that category, and the fraud rate of the
      whole training partition otherwise; no test row is left without a
      value. */
  lemma TargetSplitTestSide(x: Table, y: seq<Label>, f: Fold)
    requires Rectangular(x) && |y| == |x.rows| && ValidFold(f, |y|) && Category in x.columns
    ensures var trainCats, labels := Column(SelectRows(x, f.train), Category), Take(y, f.train);
      var testCats := Column(SelectRows(x, f.test), Category);
      var encoded := TargetEncodedSplit(x, y, f).value.1;
      && encoded.columns == x.columns && |encoded.rows| == |f.test|
      && (forall j :: 0 <= j < |f.test| && testCats[j] in trainCats && testCats[j] != NaN ==>
            Get(encoded, j, Category) == Real(Frauds(trainCats, labels, testCats[j]) as real / Count(trainCats, testCats[j]) as real))
      && (forall j :: 0 <= j < |f.test| && (testCats[j] !in trainCats || testCats[j] == NaN) ==>
            Get(encoded, j, Category) == Real(MeanLabel(labels)))
  {
    var test := SelectRows(x, f.test);
    var trainCats, labels := Column(SelectRows(x, f.train), Category), Take(y, f.train);
    var testCats := Column(test, Category);
    TestEncodingFallsBack(trainCats, labels, testCats);
    WithColumnCells(test, Category, FillNaN(MapCategories(testCats, TargetMeans(trainCats, labels)), MeanLabel(labels)));
  }

  /** No leakage through labels: changing only the labels of test rows
      changes no encoded value, in either partition. */
  lemma TestLabelsDoNotLeak(x: Table, y: seq<Label>, y': seq<Label>, f: Fold)
    requires Rectangular(x) && |y| == |y'| == |x.rows| && ValidFold(f, |y|)
    requires forall i :: 0 <= i < |y| && i !in f.test ==> y[i] == y'[i]
    ensures TargetEncodedSplit(x, y, f) == TargetEncodedSplit(x, y', f)
  {
    assert Take(y, f.train) == Take(y', f.train) by {
      forall k | 0 <= k < |f.train| ensures y[f.train[k]] == y'[f.train[k]] {
        assert f.train[k] in f.train;
      }
    }
  }

  /** No leakage through features: the map, the fallback and the encoded
      training partition depend only on the training rows and their labels. */
  lemma MapDependsOnTrainingRowsOnly(x: Table, x': Table, y: seq<Label>, y': seq<Label>, f: Fold)
    requires Rectangular(x) && |y| == |x.rows| && ValidFold(f, |y|) && Category in x.columns
    requires Rectangular(x') && |y'| == |x'.rows| == |x.rows| && x'.columns == x.columns
    requires forall k :: 0 <= k < |f.train| ==> x'.rows[f.train[k]] == x.rows[f.train[k]] && y'[f.train[k]] == y[f.train[k]]
    ensures FoldMeans(x, y, f) == FoldMeans(x', y', f)
    ensures MeanLabel(Take(y, f.train)) == MeanLabel(Take(y', f.train))
    ensures TargetEncodedSplit(x, y, f).value.0 == TargetEncodedSplit(x', y', f).value.0
  {
    assert SelectRows(x, f.train) == SelectRows(x', f.train);
    assert Take(y, f.train) == Take(y', f.train);
  }

  // ---------------------------------------------------------------------
  // One-hot encoding of one fold (linear model)
  // ---------------------------------------------------------------------

  predicate TextCategories(x: Table)
    requires Rectangular(x)
  {
    Category in x.columns ==> AllText(Column(x, Category))
  }

  lemma SelectRowsKeepsText(x: Table, idx: seq<nat>)
    requires Rectangular(x) && InRange(idx, |x.rows|) && TextCategories(x)
    ensures TextCategories(SelectRows(x, idx))
  {
    if Category in x.columns {
      forall k | 0 <= k < |idx| ensures Column(SelectRows(x, idx), Category)[k].Text? {
        assert Column(SelectRows(x, idx), Category)[k] == Column(x, Category)[idx[k]];
      }
    }
  }

  /** Lines 84-87: dummies on each partition, test reindexed to training. */
  function LinearSplit(x: Table, f: Fold): (r: Result<(Table, Table)>)
    requires Rectangular(x) && ValidFold(f, |x.rows|) && TextCategories(x)
    ensures Category !in x.columns ==> r == Err(KeyError([Category]))
    ensures r.Ok? ==> r.value.1.columns == r.value.0.columns && |r.value.0.rows| == |f.train| && |r.value.1.rows| == |f.test|
  {
    SelectRowsKeepsText(x, f.train);
    SelectRowsKeepsText(x, f.test);
    OneHotSplit(SelectRows(x, f.train), SelectRows(x, f.test), Category)
  }

  // ---------------------------------------------------------------------
  // Scores and confusion matrices
  // ---------------------------------------------------------------------

  /** A score over (true labels, predicted labels), computed by the library. */
  type Scorer = (seq<Label>, seq<Label>) -> real

  /** precision, recall and F1, macro- and support-weighted-averaged */
  datatype Scorers = Scorers(precisionMacro: Scorer, recallMacro: Scorer, f1Macro: Scorer,
                             precisionWeighted: Scorer, recallWeighted: Scorer, f1Weighted: Scorer)

  /** `model.fit(train, yTrain)` followed by `model.predict(test)`. */
  type Classifier = (Table, seq<Label>, Table) -> seq<Label>

  /** `confusion_matrix(y_true, y_pred)`: rows are true labels, columns
      predictions, over the labels that occur in either; with a single
      label present the matrix is 1x1. */
  datatype Confusion = OneByOne(count: nat) | TwoByTwo(tn: nat, fp: nat, fn: nat, tp: nat)

  function Total(m: Confusion): nat {
    match m
    case OneByOne(n) => n
    case TwoByTwo(tn, fp, fn, tp) => tn + fp + fn + tp
  }

  /** Positions where the true label is `a` and the prediction `b`. */
  function Pairs(yTrue: seq<Label>, yPred: seq<Label>, a: Label, b: Label): nat
    requires |yTrue| == |yPred|
  {
    if yTrue == [] then 0
    else (if yTrue[0] == a && yPred[0] == b then 1 else 0) + Pairs(yTrue[1..], yPred[1..], a, b)
  }

  /** The four pairs count every position once; the fraud row counts the
      true frauds and the fraud column the predicted ones. */
  lemma {:induction false} PairsCover(yTrue: seq<Label>, yPred: seq<Label>)
    requires |yTrue| == |yPred|
    ensures Pairs(yTrue, yPred, 0, 0) + Pairs(yTrue, yPred, 0, 1) + Pairs(yTrue, yPred, 1, 0) + Pairs(yTrue, yPred, 1, 1) == |yTrue|
    ensures Pairs(yTrue, yPred, 1, 0) + Pairs(yTrue, yPred, 1, 1) == Positives(yTrue)
    ensures Pairs(yTrue, yPred, 0, 1) + Pairs(yTrue, yPred, 1, 1) == Positives(yPred)
  {
    if yTrue != [] {
      PairsCover(yTrue[1..], yPred[1..]);
    }
  }

  function ConfusionMatrix(yTrue: seq<Label>, yPred: seq<Label>): (m: Confusion)
    requires |yTrue| == |yPred|
    ensures Total(m) == |yTrue|
    ensures m.TwoByTwo? <==> (0 in yTrue || 0 in yPred) && (1 in yTrue || 1 in yPred)
    ensures m.TwoByTwo? ==> m.fn + m.tp == Positives(yTrue) && m.fp + m.tp == Positives(yPred)
  {
    PairsCover(yTrue, yPred);
    if (0 in yTrue || 0 in yPred) && (1 in yTrue || 1 in yPred) then
      TwoByTwo(Pairs(yTrue, yPred, 0, 0), Pairs(yTrue, yPred, 0, 1), Pairs(yTrue, yPred, 1, 0), Pairs(yTrue, yPred, 1, 1))
    else
      OneByOne(|yTrue|)
  }

  /** Cell-wise sum of two matrices; numpy refuses matrices of different shapes. */
  function AddConfusion(a: Confusion, b: Confusion): (r: Result<Confusion>)
    ensures r.Ok? <==> a.TwoByTwo? == b.TwoByTwo?
    ensures r.Err? ==> r.error == ValueError
    ensures r.Ok? ==> r.value.TwoByTwo? == a.TwoByTwo? && Total(r.value) == Total(a) + Total(b)
    ensures r.Ok? && a.TwoByTwo? ==> forall t: Label, p: Label :: Cell(r.value, t, p) == Cell(a, t, p) + Cell(b, t, p)
  {
    match (a, b)
    case (OneByOne(m), OneByOne(n)) => Ok(OneByOne(m + n))
    case (TwoByTwo(a0, a1, a2, a3), TwoByTwo(b0, b1, b2, b3)) => Ok(TwoByTwo(a0 + b0, a1 + b1, a2 + b2, a3 + b3))
    case _ => Err(ValueError)
  }

  function TotalOf(ms: seq<Confusion>): nat {
    if ms == [] then 0 else Total(ms[0]) + TotalOf(ms[1..])
  }

  /** The cell of a 2x2 matrix for true label `t` and prediction `p`. */
  function Cell(m: Confusion, t: Label, p: Label): nat
    requires m.TwoByTwo?
  {
    if t == 0 then (if p == 0 then m.tn else m.fp) else (if p == 0 then m.fn else m.tp)
  }

  /** The cell for (`t`, `p`) added up over a list of 2x2 matrices. */
  function CellTotal(ms: seq<Confusion>, t: Label, p: Label): nat
    requires forall k :: 0 <= k < |ms| ==> ms[k].TwoByTwo?
  {
    if ms == [] then 0 else Cell(ms[0], t, p) + CellTotal(ms[1..], t, p)
  }

  /** `np.sum(conf_matrices, axis=0)`: defined exactly when all matrices
      have one shape, and then it holds every count of every matrix; a 2x2
      sum holds in each cell the sum of that cell over the matrices. */
  function SumConfusions(ms: seq<Confusion>): (r: Result<Confusion>)
    requires |ms| > 0
    ensures r.Ok? <==> forall k :: 0 <= k < |ms| ==> ms[k].TwoByTwo? == ms[0].TwoByTwo?
    ensures r.Ok? ==> r.value.TwoByTwo? == ms[0].TwoByTwo? && Total(r.value) == TotalOf(ms)
    ensures r.Ok? && r.value.TwoByTwo? ==> forall t: Label, p: Label :: Cell(r.value, t, p) == CellTotal(ms, t, p)
  {
    if |ms| == 1 then Ok(ms[0])
    else
      var rest :- SumConfusions(ms[1..]);
      assert forall k :: 1 <= k < |ms| ==> ms[k] == ms[1..][k - 1];
      AddConfusion(ms[0], rest)
  }

  function Sum(xs: seq<real>): real {
    if xs == [] then 0.0 else xs[0] + Sum(xs[1..])
  }

  /** `np.mean(xs)` */
  function Mean(xs: seq<real>): (m: real)
    requires |xs| > 0
    ensures m * |xs| as real == Sum(xs)
  {
    Sum(xs) / |xs| as real
  }

  lemma {:induction false} SumBounds(xs: seq<real>, lo: real, hi: real)
    requires forall k :: 0 <= k < |xs| ==> lo <= xs[k] <= hi
    ensures |xs| as real * lo <= Sum(xs) <= |xs| as real * hi
  {
    if xs != [] {
      SumBounds(xs[1..], lo, hi);
    }
  }

  /** The mean over the folds lies within the fold scores' bounds; a score
      in [0, 1] on every fold stays in [0, 1] on average. */
  lemma MeanBounds(xs: seq<real>, lo: real, hi: real)
    requires |xs| > 0 && forall k :: 0 <= k < |xs| ==> lo <= xs[k] <= hi
    ensures lo <= Mean(xs) <= hi
  {
    SumBounds(xs, lo, hi);
    var n := |xs| as real;
    assert Mean(xs) * n == Sum(xs);
  }

  // ---------------------------------------------------------------------
  // The fold loop
  // ---------------------------------------------------------------------

  /** Which of the two harness functions: tree models or the linear model. */
  datatype Variant = TreeModels | LinearModel

  /** What both harness functions need of the data. */
  predicate Ready(variant: Variant, x: Table, y: seq<Label>) {
    WellFormed(x) && |y| == |x.rows| && (variant == LinearModel ==> TextCategories(x))
  }

  function EncodedSplit(variant: Variant, x: Table, y: seq<Label>, f: Fold): Result<(Table, Table)>
    requires Ready(variant, x, y) && ValidFold(f, |y|)
  {
    match variant
    case TreeModels => TargetEncodedSplit(x, y, f)
    case LinearModel => LinearSplit(x, f)
  }

  /** What one iteration appends to the seven lists. */
  datatype FoldScores = FoldScores(precisionMacro: real, recallMacro: real, f1Macro: real,
                                   precisionWeighted: real, recallWeighted: real, f1Weighted: real,
                                   confusion: Confusion)

  /** One iteration: encode, fit and predict, score; the scores raise a
      ValueError when the prediction count differs from the test rows. */
  function FoldResult(variant: Variant, x: Table, y: seq<Label>, f: Fold, classify: Classifier, scorers: Scorers): (r: Result<FoldScores>)
    requires Ready(variant, x, y) && ValidFold(f, |y|)
    ensures Category !in x.columns ==> r == Err(KeyError([Category]))
    ensures r.Ok? ==> Total(r.value.confusion) == |f.test|
    ensures r.Ok? && 0 in Take(y, f.test) && 1 in Take(y, f.test) ==> r.value.confusion.TwoByTwo?
    ensures r.Ok? && r.value.confusion.TwoByTwo? ==> r.value.confusion.fn + r.value.confusion.tp == Positives(Take(y, f.test))
  {
    var split :- EncodedSplit(variant, x, y, f);
    var yTest := Take(y, f.test);
    var yPred := classify(split.0, Take(y, f.train), split.1);
    if |yPred| != |yTest| then Err(ValueError)
    else Ok(FoldScores(scorers.precisionMacro(yTest, yPred), scorers.recallMacro(yTest, yPred), scorers.f1Macro(yTest, yPred),
                       scorers.precisionWeighted(yTest, yPred), scorers.recallWeighted(yTest, yPred), scorers.f1Weighted(yTest, yPred),
                       ConfusionMatrix(yTest, yPred)))
  }

  predicate AllValid(folds: seq<Fold>, n: nat) {
    forall k :: 0 <= k < |folds| ==> ValidFold(folds[k], n)
  }

  /** One iteration as a function of its fold, the rest of the data fixed. */
  function FoldRunner(variant: Variant, x: Table, y: seq<Label>, classify: Classifier, scorers: Scorers): Fold --> Result<FoldScores>
    requires Ready(variant, x, y)
  {
    f requires ValidFold(f, |y|) => FoldResult(variant, x, y, f, classify, scorers)
  }

  /** `run` applied to every fold, in order. */
  function MapFolds(folds: seq<Fold>, run: Fold --> Result<FoldScores>): (os: seq<Result<FoldScores>>)
    requires forall k :: 0 <= k < |folds| ==> run.requires(folds[k])
    ensures |os| == |folds|
    ensures forall k :: 0 <= k < |folds| ==> os[k] == run(folds[k])
    decreases |folds|
  {
    if folds == [] then []
    else
      assert forall k :: 0 <= k < |folds| - 1 ==> folds[1..][k] == folds[k + 1];
      [run(folds[0])] + MapFolds(folds[1..], run)
  }

  /** Every fold's outcome, as if each ran on its own. */
  function FoldOutcomes(variant: Variant, x: Table, y: seq<Label>, folds: seq<Fold>, classify: Classifier, scorers: Scorers): (os: seq<Result<FoldScores>>)
    requires Ready(variant, x, y) && AllValid(folds, |y|)
    ensures |os| == |folds|
  {
    MapFolds(folds, FoldRunner(variant, x, y, classify, scorers))
  }

  /** The k-th iteration's body, as the loop runs it. */
  method Outcome(variant: Variant, x: Table, y: seq<Label>, folds: seq<Fold>, classify: Classifier, scorers: Scorers, k: nat)
    returns (r: Result<FoldScores>)
    requires Ready(variant, x, y) && AllValid(folds, |y|) && k < |folds|
    ensures r == FoldOutcomes(variant, x, y, folds, classify, scorers)[k]
  {
    r := RunFold(variant, x, y, folds[k], classify, scorers);
  }


  /** The first n iterations of the loop, in order: the first one that
      raises ends the loop; otherwise one entry per iteration. */
  function Collect(outcomes: seq<Result<FoldScores>>, n: nat): (r: Result<seq<FoldScores>>)
    requires n <= |outcomes|
    ensures r.Ok? ==> |r.value| == n
  {
    if n == 0 then Ok([])
    else
      var earlier :- Collect(outcomes, n - 1);
      var last :- outcomes[n - 1];
      Ok(earlier + [last])
  }

  /** On success the k-th entry is iteration k's own result, and the run
      succeeds exactly when no iteration raises. */
  lemma {:induction false} CollectEntries(outcomes: seq<Result<FoldScores>>, n: nat)
    requires n <= |outcomes|
    ensures Collect(outcomes, n).Ok? <==> forall k :: 0 <= k < n ==> outcomes[k].Ok?
    ensures Collect(outcomes, n).Ok? ==> forall k :: 0 <= k < n ==> outcomes[k] == Ok(Collect(outcomes, n).value[k])
  {
    if n > 0 {
      CollectEntries(outcomes, n - 1);
    }
  }

  /** The error of the first iteration that raises is the error of every
      longer run. */
  lemma {:induction false} FirstFailureEndsLoop(outcomes: seq<Result<FoldScores>>, k: nat, n: nat)
    requires k < n <= |outcomes|
    requires Collect(outcomes, k).Ok? && outcomes[k].Err?
    ensures Collect(outcomes, n) == Err(outcomes[k].error)
  {
    if n > k + 1 {
      FirstFailureEndsLoop(outcomes, k, n - 1);
    }
  }

  /** The printed summary: the mean of each score list and the summed matrix. */
  datatype Report = Report(precisionMacro: real, recallMacro: real, f1Macro: real,
                           precisionWeighted: real, recallWeighted: real, f1Weighted: real,
                           confusion: Confusion)

  /** The harness's seven accumulator lists. */
  datatype ScoreLists = ScoreLists(precisionsMacro: seq<real>, recallsMacro: seq<real>, f1sMacro: seq<real>,
                                   precisionsWeighted: seq<real>, recallsWeighted: seq<real>, f1sWeighted: seq<real>,
                                   confMatrices: seq<Confusion>)

  /** Every list has n entries. */
  predicate Sized(lists: ScoreLists, n: nat) {
    && |lists.precisionsMacro| == |lists.recallsMacro| == |lists.f1sMacro| == n
    && |lists.precisionsWeighted| == |lists.recallsWeighted| == |lists.f1sWeighted| == |lists.confMatrices| == n
  }

  /** One iteration's appends: one entry to each list. */
  function Append(lists: ScoreLists, s: FoldScores): ScoreLists {
    ScoreLists(lists.precisionsMacro + [s.precisionMacro], lists.recallsMacro + [s.recallMacro],
               lists.f1sMacro + [s.f1Macro], lists.precisionsWeighted + [s.precisionWeighted],
               lists.recallsWeighted + [s.recallWeighted], lists.f1sWeighted + [s.f1Weighted],
               lists.confMatrices + [s.confusion])
  }

  /** The lists after the iterations that produced `rs`, starting empty. */
  function ListsOf(rs: seq<FoldScores>): (lists: ScoreLists)
    ensures Sized(lists, |rs|)
  {
    if rs == [] then ScoreLists([], [], [], [], [], [], [])
    else Append(ListsOf(rs[..|rs| - 1]), rs[|rs| - 1])
  }

  /** Each list holds exactly one entry per iteration, the k-th from iteration k. */
  lemma {:induction false} ListsOfEntries(rs: seq<FoldScores>)
    ensures var lists := ListsOf(rs);
      forall k :: 0 <= k < |rs| ==>
        && lists.precisionsMacro[k] == rs[k].precisionMacro && lists.recallsMacro[k] == rs[k].recallMacro
        && lists.f1sMacro[k] == rs[k].f1Macro && lists.precisionsWeighted[k] == rs[k].precisionWeighted
        && lists.recallsWeighted[k] == rs[k].recallWeighted && lists.f1sWeighted[k] == rs[k].f1Weighted
        && lists.confMatrices[k] == rs[k].confusion
  {
    if rs != [] {
      ListsOfEntries(rs[..|rs| - 1]);
    }
  }

  /** Lines 61-68: the mean of each score list and the sum of the matrices. */
  function Summary(lists: ScoreLists): (r: Result<Report>)
    requires Sized(lists, |lists.confMatrices|) && |lists.confMatrices| > 0
    ensures r.Ok? <==> SumConfusions(lists.confMatrices).Ok?
    ensures r.Ok? ==> r.value.confusion == SumConfusions(lists.confMatrices).value
  {
    var total :- SumConfusions(lists.confMatrices);
    Ok(Report(Mean(lists.precisionsMacro), Mean(lists.recallsMacro), Mean(lists.f1sMacro),
              Mean(lists.precisionsWeighted), Mean(lists.recallsWeighted), Mean(lists.f1sWeighted),
              total))
  }

  /** The loop over all folds: the lists it fills, or the first error. */
  function FoldLoop(variant: Variant, x: Table, y: seq<Label>, folds: seq<Fold>, classify: Classifier, scorers: Scorers): (r: Result<ScoreLists>)
    requires Ready(variant, x, y) && Splits(folds, |y|)
    ensures r.Ok? <==> forall k :: 0 <= k < |folds| ==> FoldOutcomes(variant, x, y, folds, classify, scorers)[k].Ok?
    ensures r.Ok? ==> Sized(r.value, |folds|)
    ensures r.Ok? ==> forall k :: 0 <= k < |folds| ==>
              r.value.confMatrices[k] == FoldOutcomes(variant, x, y, folds, classify, scorers)[k].value.confusion
  {
    var outcomes := FoldOutcomes(variant, x, y, folds, classify, scorers);
    CollectEntries(outcomes, |folds|);
    var rs :- Collect(outcomes, |folds|);
    ListsOfEntries(rs);
    Ok(ListsOf(rs))
  }

  /** `cross_validate_tree_model` / `cross_validate_linear_model` */
  function CrossValidationReport(variant: Variant, x: Table, y: seq<Label>, folds: seq<Fold>, classify: Classifier, scorers: Scorers): (r: Result<Report>)
    requires Ready(variant, x, y) && Splits(folds, |y|)
    ensures r.Ok? ==> Total(r.value.confusion) == TestSizes(folds)
  {
    var lists :- FoldLoop(variant, x, y, folds, classify, scorers);
    var report :- Summary(lists);
    CollectedTotals(FoldOutcomes(variant, x, y, folds, classify, scorers), folds);
    Ok(report)
  }

  /** The body of one iteration: encode the fold, fit and predict, score. */
  method RunFold(variant: Variant, x: Table, y: seq<Label>, f: Fold, classify: Classifier, scorers: Scorers)
    returns (r: Result<FoldScores>)
    requires Ready(variant, x, y) && ValidFold(f, |y|)
    ensures r == FoldResult(variant, x, y, f, classify, scorers)
  {
    var split: Result<(Table, Table)>;
    if variant == TreeModels {
      split := EncodeTargetFold(x, y, f);
    } else {
      split := LinearSplit(x, f);
    }
    if split.Err? {
      return Err(split.error);
    }
    var yTest := Take(y, f.test);
    var yPred := classify(split.value.0, Take(y, f.train), split.value.1);
    if |yPred| != |yTest| {
      return Err(ValueError);
    }
    r := Ok(FoldScores(scorers.precisionMacro(yTest, yPred), scorers.recallMacro(yTest, yPred), scorers.f1Macro(yTest, yPred),
                       scorers.precisionWeighted(yTest, yPred), scorers.recallWeighted(yTest, yPred), scorers.f1Weighted(yTest, yPred),
                       ConfusionMatrix(yTest, yPred)));
  }

  /** Lines 29-59: start seven empty lists and, for each fold, run the
      iteration and append one score to each of six lists and one matrix
      to the seventh; an iteration that raises ends the loop. */
  method RunFolds(variant: Variant, x: Table, y: seq<Label>, folds: seq<Fold>, classify: Classifier, scorers: Scorers)
    returns (r: Result<ScoreLists>)
    requires Ready(variant, x, y) && Splits(folds, |y|)
    ensures r == FoldLoop(variant, x, y, folds, classify, scorers)
  {
    var precisionsMacro, recallsMacro, f1sMacro: seq<real> := [], [], [];
    var precisionsWeighted, recallsWeighted, f1sWeighted: seq<real> := [], [], [];
    var confMatrices: seq<Confusion> := [];
    ghost var outcomes := FoldOutcomes(variant, x, y, folds, classify, scorers);
    ghost var rs: seq<FoldScores> := [];
    for k := 0 to |folds|
      invariant Collect(outcomes, k) == Ok(rs)
      invariant ScoreLists(precisionsMacro, recallsMacro, f1sMacro, precisionsWeighted, recallsWeighted, f1sWeighted, confMatrices) == ListsOf(rs)
    {
      var scores := Outcome(variant, x, y, folds, classify, scorers, k);
      if scores.Err? {
        FirstFailureEndsLoop(outcomes, k, |folds|);
        return Err(scores.error);
      }
      var s := scores.value;
      precisionsMacro := precisionsMacro + [s.precisionMacro];
      recallsMacro := recallsMacro + [s.recallMacro];
      f1sMacro := f1sMacro + [s.f1Macro];
      precisionsWeighted := precisionsWeighted + [s.precisionWeighted];
      recallsWeighted := recallsWeighted + [s.recallWeighted];
      f1sWeighted := f1sWeighted + [s.f1Weighted];
      confMatrices := confMatrices + [s.confusion];
      assert (rs + [s])[..|rs|] == rs;
      rs := rs + [s];
    }
    r := Ok(ScoreLists(precisionsMacro, recallsMacro, f1sMacro, precisionsWeighted, recallsWeighted, f1sWeighted, confMatrices));
  }

  /** The harness: the fold loop, then the means of the six score lists
      and the cell-wise sum of the matrices. */
  method CrossValidate(variant: Variant, x: Table, y: seq<Label>, folds: seq<Fold>, classify: Classifier, scorers: Scorers)
    returns (report: Result<Report>)
    requires Ready(variant, x, y) && Splits(folds, |y|)
    ensures report == CrossValidationReport(variant, x, y, folds, classify, scorers)
  {
    var lists :- RunFolds(variant, x, y, folds, classify, scorers);
    var total :- SumConfusions(lists.confMatrices);
    report := Ok(Report(Mean(lists.precisionsMacro), Mean(lists.recallsMacro), Mean(lists.f1sMacro),
                        Mean(lists.precisionsWeighted), Mean(lists.recallsWeighted), Mean(lists.f1sWeighted),
                        total));
  }

  // ---------------------------------------------------------------------
  // Properties of the whole run
  // ---------------------------------------------------------------------

  /** The number of test rows over all folds. */
  function TestSizes(folds: seq<Fold>): nat {
    if folds == [] then 0 else |folds[0].test| + TestSizes(folds[1..])
  }

  /** The rows that some fold tests. */
  function TestIndices(folds: seq<Fold>): set<nat> {
    if folds == [] then {} else (set i | i in folds[0].test) + TestIndices(folds[1..])
  }

  /** Disjoint duplicate-free test sets: their union has as many rows as
      the folds have test rows. */
  lemma {:induction false} TestIndicesCard(folds: seq<Fold>)
    requires forall k :: 0 <= k < |folds| ==> Distinct(folds[k].test)
    requires forall k, l, i :: 0 <= k < l < |folds| && i in folds[k].test ==> i !in folds[l].test
    ensures forall i :: i in TestIndices(folds) <==> Covered(folds, i)
    ensures |TestIndices(folds)| == TestSizes(folds)
  {
    if folds != [] {
      var rest := folds[1..];
      assert forall k :: 0 <= k < |rest| ==> rest[k] == folds[k + 1];
      TestIndicesCard(rest);
      DistinctCard(folds[0].test);
      var head := set i | i in folds[0].test;
      forall i ensures Covered(folds, i) <==> i in head || Covered(rest, i) {
        CoveredSplit(folds, i);
      }
      forall i | i in head ensures !Covered(rest, i) {
        HeadNotCoveredLater(folds, i);
      }
      assert head * TestIndices(rest) == {};
    }
  }

  /** A row is tested by some fold exactly when the first fold or a later one tests it. */
  lemma CoveredSplit(folds: seq<Fold>, i: nat)
    requires folds != []
    ensures Covered(folds, i) <==> i in folds[0].test || Covered(folds[1..], i)
  {
    var rest := folds[1..];
    if Covered(rest, i) {
      var k :| 0 <= k < |rest| && i in rest[k].test;
      assert i in folds[k + 1].test;
    }
    if Covered(folds, i) {
      var k :| 0 <= k < |folds| && i in folds[k].test;
      if k > 0 {
        assert i in rest[k - 1].test;
      }
    }
  }

  /** With disjoint test sets, no later fold tests a row of the first. */
  lemma HeadNotCoveredLater(folds: seq<Fold>, i: nat)
    requires folds != [] && i in folds[0].test
    requires forall k, l, j :: 0 <= k < l < |folds| && j in folds[k].test ==> j !in folds[l].test
    ensures !Covered(folds[1..], i)
  {
    var rest := folds[1..];
    forall k | 0 <= k < |rest| ensures i !in rest[k].test {
      assert rest[k] == folds[k + 1];
    }
  }

  /** The row indices 0 .. n-1. */
  function Range(n: nat): (r: set<nat>)
    ensures forall i: nat :: i in r <==> i < n
  {
    if n == 0 then {} else Range(n - 1) + {n - 1}
  }

  lemma {:induction false} RangeCard(n: nat)
    ensures |Range(n)| == n
  {
    if n > 0 {
      RangeCard(n - 1);
    }
  }

  /** The test sets of a partition of n rows hold n rows in all. */
  lemma PartitionSizes(folds: seq<Fold>, n: nat)
    requires Partition(folds, n)
    ensures TestSizes(folds) == n
  {
    TestIndicesCard(folds);
    forall i | i in TestIndices(folds) ensures i < n {
      var k :| 0 <= k < |folds| && i in folds[k].test;
      var j :| 0 <= j < |folds[k].test| && folds[k].test[j] == i;
    }
    assert TestIndices(folds) == Range(n);
    RangeCard(n);
  }

  lemma {:induction false} TotalsMatchSizes(ms: seq<Confusion>, folds: seq<Fold>)
    requires |ms| == |folds| && forall k :: 0 <= k < |ms| ==> Total(ms[k]) == |folds[k].test|
    ensures TotalOf(ms) == TestSizes(folds)
  {
    if ms != [] {
      TotalsMatchSizes(ms[1..], folds[1..]);
    }
  }

  /** A successful fold's matrix counts each of its test rows once, and is
      2x2 when its test rows hold both classes. */
  lemma FoldConfusion(variant: Variant, x: Table, y: seq<Label>, folds: seq<Fold>, classify: Classifier, scorers: Scorers)
    requires Ready(variant, x, y) && AllValid(folds, |y|)
    ensures var outcomes := FoldOutcomes(variant, x, y, folds, classify, scorers);
      forall k :: 0 <= k < |folds| && outcomes[k].Ok? ==>
        && Total(outcomes[k].value.confusion) == |folds[k].test|
        && (0 in Take(y, folds[k].test) && 1 in Take(y, folds[k].test) ==> outcomes[k].value.confusion.TwoByTwo?)
        && (outcomes[k].value.confusion.TwoByTwo? ==>
              outcomes[k].value.confusion.fn + outcomes[k].value.confusion.tp == Positives(Take(y, folds[k].test)))
  {
  }

  /** The rows of `idx` whose label is fraud, in their order. */
  function FraudRows(y: seq<Label>, idx: seq<nat>): (rows: seq<nat>)
    requires InRange(idx, |y|)
    ensures forall i :: i in rows <==> i in idx && i < |y| && y[i] == 1
    ensures |rows| == Positives(Take(y, idx))
    ensures Distinct(idx) ==> Distinct(rows)
  {
    if idx == [] then []
    else
      var rest := idx[1..];
      assert forall k :: 0 <= k < |rest| ==> rest[k] == idx[k + 1];
      assert Take(y, idx) == [y[idx[0]]] + Take(y, rest);
      assert forall i :: i in idx <==> i == idx[0] || i in rest;
      assert Distinct(idx) ==> idx[0] !in rest;
      (if y[idx[0]] == 1 then [idx[0]] else []) + FraudRows(y, rest)
  }

  /** The folds with each test set narrowed to its fraud rows. */
  function FraudFolds(y: seq<Label>, folds: seq<Fold>): (ff: seq<Fold>)
    requires forall k :: 0 <= k < |folds| ==> InRange(folds[k].test, |y|)
    ensures |ff| == |folds| && forall k :: 0 <= k < |folds| ==> ff[k].test == FraudRows(y, folds[k].test)
  {
    if folds == [] then []
    else
      assert forall k :: 0 <= k < |folds| - 1 ==> folds[1..][k] == folds[k + 1];
      [Fold(folds[0].train, FraudRows(y, folds[0].test))] + FraudFolds(y, folds[1..])
  }

  /** Fraud counts add up over concatenation. */
  lemma {:induction false} PositivesAppend(a: seq<Label>, b: seq<Label>)
    ensures Positives(a + b) == Positives(a) + Positives(b)
  {
    if a != [] {
      assert (a + b)[0] == a[0] && (a + b)[1..] == a[1..] + b;
      PositivesAppend(a[1..], b);
    } else {
      assert a + b == b;
    }
  }

  /** The fraud rows among the first n rows. */
  function FraudSet(y: seq<Label>, n: nat): set<nat>
    requires n <= |y|
  {
    set i: nat | i < n && y[i] == 1
  }

  /** There are as many fraud rows among the first n rows as fraud labels. */
  lemma {:induction false} FraudSetCard(y: seq<Label>, n: nat)
    requires n <= |y|
    ensures |FraudSet(y, n)| == Positives(y[..n])
  {
    if n > 0 {
      FraudSetCard(y, n - 1);
      assert y[..n] == y[..n - 1] + [y[n - 1]];
      PositivesAppend(y[..n - 1], [y[n - 1]]);
      if y[n - 1] == 1 {
        assert FraudSet(y, n) == FraudSet(y, n - 1) + {n - 1};
      } else {
        assert FraudSet(y, n) == FraudSet(y, n - 1);
      }
    }
  }

  /** Narrowed to their fraud rows, duplicate-free test sets stay duplicate-free. */
  lemma FraudFoldsDistinct(folds: seq<Fold>, y: seq<Label>)
    requires forall k :: 0 <= k < |folds| ==> InRange(folds[k].test, |y|) && Distinct(folds[k].test)
    ensures var ff := FraudFolds(y, folds);
      forall k :: 0 <= k < |ff| ==> Distinct(ff[k].test)
  {
  }

  /** Narrowed to their fraud rows, disjoint test sets stay disjoint. */
  lemma FraudFoldsDisjoint(folds: seq<Fold>, y: seq<Label>)
    requires forall k :: 0 <= k < |folds| ==> InRange(folds[k].test, |y|)
    requires forall k, l, i :: 0 <= k < l < |folds| && i in folds[k].test ==> i !in folds[l].test
    ensures var ff := FraudFolds(y, folds);
      forall k, l, i :: 0 <= k < l < |ff| && i in ff[k].test ==> i !in ff[l].test
  {
  }

  /** Narrowed to their fraud rows, test sets that cover every row hold
      exactly the fraud rows. */
  lemma FraudFoldsCover(folds: seq<Fold>, y: seq<Label>)
    requires forall k :: 0 <= k < |folds| ==> InRange(folds[k].test, |y|)
    requires forall i :: 0 <= i < |y| ==> Covered(folds, i)
    ensures forall i: nat :: Covered(FraudFolds(y, folds), i) <==> i in FraudSet(y, |y|)
  {
    var ff := FraudFolds(y, folds);
    forall i: nat | i in FraudSet(y, |y|) ensures Covered(ff, i) {
      assert i < |y| && y[i] == 1;
      assert Covered(folds, i);
      var k :| 0 <= k < |folds| && i in folds[k].test;
      assert i in ff[k].test;
    }
    forall i: nat | Covered(ff, i) ensures i in FraudSet(y, |y|) {
      var k :| 0 <= k < |ff| && i in ff[k].test;
      assert i in folds[k].test && i < |y| && y[i] == 1;
    }
  }

  /** The test sets of a partition hold every fraud row once. */
  lemma PartitionFrauds(folds: seq<Fold>, y: seq<Label>)
    requires Partition(folds, |y|)
    ensures TestSizes(FraudFolds(y, folds)) == Positives(y)
  {
    FraudFoldsDistinct(folds, y);
    FraudFoldsDisjoint(folds, y);
    FraudFoldsCover(folds, y);
    FraudTestSizes(FraudFolds(y, folds), y);
  }

  /** Disjoint duplicate-free test sets that together hold exactly the
      fraud rows hold as many rows as there are fraud labels. */
  lemma FraudTestSizes(ff: seq<Fold>, y: seq<Label>)
    requires forall k :: 0 <= k < |ff| ==> Distinct(ff[k].test)
    requires forall k, l, i :: 0 <= k < l < |ff| && i in ff[k].test ==> i !in ff[l].test
    requires forall i: nat :: Covered(ff, i) <==> i in FraudSet(y, |y|)
    ensures TestSizes(ff) == Positives(y)
  {
    TestIndicesCard(ff);
    assert TestIndices(ff) == FraudSet(y, |y|);
    FraudSetCard(y, |y|);
    assert y[..|y|] == y;
  }

  /** Matrices whose fraud rows count their folds' fraud rows add up to
      the fraud rows of all folds. */
  lemma {:induction false} FraudRowTotals(ms: seq<Confusion>, folds: seq<Fold>, y: seq<Label>)
    requires |ms| == |folds| && forall k :: 0 <= k < |ms| ==> ms[k].TwoByTwo?
    requires forall k :: 0 <= k < |folds| ==>
               InRange(folds[k].test, |y|) && ms[k].fn + ms[k].tp == Positives(Take(y, folds[k].test))
    ensures CellTotal(ms, 1, 0) + CellTotal(ms, 1, 1) == TestSizes(FraudFolds(y, folds))
  {
    if ms != [] {
      assert forall k :: 0 <= k < |ms| - 1 ==> ms[1..][k] == ms[k + 1] && folds[1..][k] == folds[k + 1];
      FraudRowTotals(ms[1..], folds[1..], y);
      assert FraudFolds(y, folds)[1..] == FraudFolds(y, folds[1..]);
    }
  }

  /** Once every 2x2 collected matrix's fraud row counts its fold's fraud
      rows, a 2x2 matrix list counts the fraud rows of all folds. */
  lemma CollectedFraudRows(outcomes: seq<Result<FoldScores>>, folds: seq<Fold>, y: seq<Label>)
    requires |outcomes| == |folds| && Collect(outcomes, |folds|).Ok?
    requires forall k :: 0 <= k < |folds| ==>
               && InRange(folds[k].test, |y|)
               && (outcomes[k].Ok? && outcomes[k].value.confusion.TwoByTwo? ==>
                     outcomes[k].value.confusion.fn + outcomes[k].value.confusion.tp == Positives(Take(y, folds[k].test)))
    ensures var ms := ListsOf(Collect(outcomes, |folds|).value).confMatrices;
      (forall k :: 0 <= k < |ms| ==> ms[k].TwoByTwo?) ==>
        CellTotal(ms, 1, 0) + CellTotal(ms, 1, 1) == TestSizes(FraudFolds(y, folds))
  {
    var rs := Collect(outcomes, |folds|).value;
    var ms := ListsOf(rs).confMatrices;
    CollectEntries(outcomes, |folds|);
    ListsOfEntries(rs);
    if forall k :: 0 <= k < |ms| ==> ms[k].TwoByTwo? {
      FraudRowTotals(ms, folds, y);
    }
  }

  /** Once every collected matrix counts its fold's test rows, the
      collected matrices count all test rows together. */
  lemma {:induction false} CollectedTotals(outcomes: seq<Result<FoldScores>>, folds: seq<Fold>)
    requires |outcomes| == |folds| && Collect(outcomes, |folds|).Ok?
    requires forall k :: 0 <= k < |folds| && outcomes[k].Ok? ==> Total(outcomes[k].value.confusion) == |folds[k].test|
    ensures TotalOf(ListsOf(Collect(outcomes, |folds|).value).confMatrices) == TestSizes(folds)
  {
    var rs := Collect(outcomes, |folds|).value;
    CollectEntries(outcomes, |folds|);
    ListsOfEntries(rs);
    TotalsMatchSizes(ListsOf(rs).confMatrices, folds);
  }

  /** Every row is a test row exactly once, so the summed confusion matrix
      counts each row once: its cells add up to the number of rows. */
  lemma ReportCountsEveryRow(variant: Variant, x: Table, y: seq<Label>, folds: seq<Fold>, classify: Classifier, scorers: Scorers)
    requires Ready(variant, x, y) && Partition(folds, |y|)
    requires CrossValidationReport(variant, x, y, folds, classify, scorers).Ok?
    ensures Total(CrossValidationReport(variant, x, y, folds, classify, scorers).value.confusion) == |y|
  {
    PartitionSizes(folds, |y|);
  }

  /** Every fraud row is a test row exactly once, so a 2x2 summed matrix's
      fraud row, false negatives plus true positives, counts every
      fraudulent transaction. */
  lemma ReportCountsEveryFraud(variant: Variant, x: Table, y: seq<Label>, folds: seq<Fold>, classify: Classifier, scorers: Scorers)
    requires Ready(variant, x, y) && Partition(folds, |y|)
    requires CrossValidationReport(variant, x, y, folds, classify, scorers).Ok?
    requires CrossValidationReport(variant, x, y, folds, classify, scorers).value.confusion.TwoByTwo?
    ensures var m := CrossValidationReport(variant, x, y, folds, classify, scorers).value.confusion;
      m.fn + m.tp == Positives(y)
  {
    var outcomes := FoldOutcomes(variant, x, y, folds, classify, scorers);
    var ms := ListsOf(Collect(outcomes, |folds|).value).confMatrices;
    var m := CrossValidationReport(variant, x, y, folds, classify, scorers).value.confusion;
    FoldConfusion(variant, x, y, folds, classify, scorers);
    CollectedFraudRows(outcomes, folds, y);
    PartitionFrauds(folds, y);
    assert m == SumConfusions(ms).value;
    assert m.fn == Cell(m, 1, 0) && m.tp == Cell(m, 1, 1);
  }

  /** When every test partition holds both classes (what stratification
      gives once each class has at least as many rows as there are folds),
      every fold's matrix is 2x2 and the sum is defined; the run then
      fails only when a fold does. */
  lemma BothClassesEveryFold(variant: Variant, x: Table, y: seq<Label>, folds: seq<Fold>, classify: Classifier, scorers: Scorers)
    requires Ready(variant, x, y) && Partition(folds, |y|)
    requires forall k :: 0 <= k < |folds| ==> 0 in Take(y, folds[k].test) && 1 in Take(y, folds[k].test)
    requires forall k :: 0 <= k < |folds| ==> FoldResult(variant, x, y, folds[k], classify, scorers).Ok?
    ensures CrossValidationReport(variant, x, y, folds, classify, scorers).Ok?
    ensures CrossValidationReport(variant, x, y, folds, classify, scorers).value.confusion.TwoByTwo?
  {
    var outcomes := FoldOutcomes(variant, x, y, folds, classify, scorers);
    FoldConfusion(variant, x, y, folds, classify, scorers);
    assert forall k :: 0 <= k < |folds| ==> outcomes[k].Ok?;
    CollectedSquares(outcomes);
  }

  /** Once every outcome is a success with a 2x2 matrix, the run reports
      a 2x2 sum. */
  lemma CollectedSquares(outcomes: seq<Result<FoldScores>>)
    requires |outcomes| > 0
    requires forall k :: 0 <= k < |outcomes| ==> outcomes[k].Ok? && outcomes[k].value.confusion.TwoByTwo?
    ensures Collect(outcomes, |outcomes|).Ok?
    ensures var lists := ListsOf(Collect(outcomes, |outcomes|).value);
      Summary(lists).Ok? && Summary(lists).value.confusion.TwoByTwo?
  {
    CollectedMatrices(outcomes);
    var lists := ListsOf(Collect(outcomes, |outcomes|).value);
    assert forall k :: 0 <= k < |lists.confMatrices| ==> lists.confMatrices[k].TwoByTwo?;
  }

  /** The matrix list the loop fills holds the successful outcomes' matrices in fold order. */
  lemma CollectedMatrices(outcomes: seq<Result<FoldScores>>)
    requires forall k :: 0 <= k < |outcomes| ==> outcomes[k].Ok?
    ensures Collect(outcomes, |outcomes|).Ok?
    ensures var ms := ListsOf(Collect(outcomes, |outcomes|).value).confMatrices;
      |ms| == |outcomes| && forall k :: 0 <= k < |outcomes| ==> ms[k] == outcomes[k].value.confusion
  {
    CollectEntries(outcomes, |outcomes|);
    ListsOfEntries(Collect(outcomes, |outcomes|).value);
  }

  /** When one fold predicts and holds a single class but another fold
      sees both, the matrices have different shapes and summing them
      raises instead of reporting. */
  lemma MixedShapesRaise(variant: Variant, x: Table, y: seq<Label>, folds: seq<Fold>, classify: Classifier, scorers: Scorers, k: nat, l: nat)
    requires Ready(variant, x, y) && Partition(folds, |y|)
    requires Collect(FoldOutcomes(variant, x, y, folds, classify, scorers), |folds|).Ok?
    requires k < |folds| && l < |folds|
    requires Collect(FoldOutcomes(variant, x, y, folds, classify, scorers), |folds|).value[k].confusion.OneByOne?
    requires Collect(FoldOutcomes(variant, x, y, folds, classify, scorers), |folds|).value[l].confusion.TwoByTwo?
    ensures CrossValidationReport(variant, x, y, folds, classify, scorers) == Err(ValueError)
  {
    MixedListsRaise(Collect(FoldOutcomes(variant, x, y, folds, classify, scorers), |folds|).value, k, l);
  }

  /** Iteration results whose matrices differ in shape cannot be summarised. */
  lemma MixedListsRaise(rs: seq<FoldScores>, k: nat, l: nat)
    requires k < |rs| && l < |rs|
    requires rs[k].confusion.OneByOne? && rs[l].confusion.TwoByTwo?
    ensures Summary(ListsOf(rs)) == Err(ValueError)
  {
    var ms := ListsOf(rs).confMatrices;
    ListsOfEntries(rs);
    MixedMatricesRaise(ms, k, l);
  }

  /** Summing a 1x1 and a 2x2 matrix raises a ValueError. */
  lemma MixedMatricesRaise(ms: seq<Confusion>, k: nat, l: nat)
    requires k < |ms| && l < |ms|
    requires ms[k].OneByOne? && ms[l].TwoByTwo?
    ensures SumConfusions(ms).Err? && SumConfusions(ms).error == ValueError
  {
    SumConfusionsError(ms);
  }

  /** Adding matrices only fails on a shape mismatch. */
  lemma {:induction false} SumConfusionsError(ms: seq<Confusion>)
    requires |ms| > 0
    ensures SumConfusions(ms).Err? ==> SumConfusions(ms).error == ValueError
  {
    if |ms| > 1 {
      SumConfusionsError(ms[1..]);
    }
  }

  /** The one-hot path of a fold raises only when `type` is missing: with
      the column present and no other column labelled like one of its
      indicator columns, the split succeeds. */
  lemma LinearSplitSucceeds(x: Table, f: Fold)
    requires WellFormed(x) && ValidFold(f, |x.rows|) && TextCategories(x)
    requires Category in x.columns && NoDummyClash(x.columns, Category)
    ensures LinearSplit(x, f).Ok?
  {
    SelectRowsKeepsText(x, f.train);
    SelectRowsKeepsText(x, f.test);
    OneHotSplitSucceeds(SelectRows(x, f.train), SelectRows(x, f.test), Category);
  }

  // ---------------------------------------------------------------------
  // The deployed model's inputs
  // ---------------------------------------------------------------------

  /** The value `(y==0).sum()/(y==1).sum()` takes: numpy division gives
      infinity for a positive count over zero and NaN for zero over zero. */
  datatype Weight = Finite(w: real) | Infinite | NotANumber

  /** `scale_pos_weight`: legitimate rows per fraudulent row. */
  function ScalePosWeight(y: seq<Label>): (w: Weight)
    ensures w.Finite? <==> Positives(y) > 0
    ensures w.Finite? ==> w.w >= 0.0 && w.w * Positives(y) as real == (|y| - Positives(y)) as real
    ensures w.NotANumber? <==> y == []
  {
    LabelsSplit(y);
    if Positives(y) > 0 then Finite(Negatives(y) as real / Positives(y) as real)
    else if Negatives(y) > 0 then Infinite
    else NotANumber
  }

  /** Lines 144-149: the deployed encoding is fitted on every row and the
      map saved beside the model is the one applied, with no fallback. */
  function ProductionEncoding(x: Table, y: seq<Label>): (r: Result<(Table, map<Cell, real>)>)
    requires Rectangular(x) && |y| == |x.rows|
    ensures r.Err? <==> Category !in x.columns
    ensures r.Err? ==> r.error == KeyError([Category])
    ensures r.Ok? ==> && r.value.0.columns == x.columns && |r.value.0.rows| == |x.rows|
                      && forall c :: c in r.value.1 <==> c in Column(x, Category) && c != NaN
  {
    if Category !in x.columns then Err(KeyError([Category]))
    else
      var cats := Column(x, Category);
      var means := TargetMeans(cats, y);
      Ok((WithColumn(x, Category, MapCategories(cats, means)), means))
  }

  /** The script's steps: copy the frame, fit the map, overwrite `type`. */
  method EncodeForProduction(x: Table, y: seq<Label>) returns (r: Result<(Table, map<Cell, real>)>)
    requires WellFormed(x) && |y| == |x.rows|
    ensures r == ProductionEncoding(x, y)
  {
    if Category !in x.columns {
      return Err(KeyError([Category]));
    }
    var processed := new DataFrame(x);
    var cats := Column(x, Category);
    var means := TargetMeans(cats, y);
    processed.SetColumn(Category, MapCategories(cats, means));
    r := Ok((processed.Snapshot(), means));
  }

  /** The deployed encoding raises exactly when `type` is missing; it
      leaves a missing category NaN, gives every other row its category's
      fraud rate over the whole data, and keeps the other columns. */
  lemma FullEncodingNoFallback(x: Table, y: seq<Label>)
    requires WellFormed(x) && |y| == |x.rows|
    ensures Category !in x.columns <==> ProductionEncoding(x, y) == Err(KeyError([Category]))
    ensures Category in x.columns ==>
      var cats := Column(x, Category);
      var encoded, means := ProductionEncoding(x, y).value.0, ProductionEncoding(x, y).value.1;
      && means == TargetMeans(cats, y)
      && encoded.columns == x.columns && |encoded.rows| == |x.rows|
      && (forall i :: 0 <= i < |x.rows| && cats[i] != NaN ==>
            && cats[i] in means
            && Get(encoded, i, Category) == Real(Frauds(cats, y, cats[i]) as real / Count(cats, cats[i]) as real))
      && (forall i :: 0 <= i < |x.rows| && cats[i] == NaN ==> Get(encoded, i, Category) == NaN)
      && (forall i, c :: 0 <= i < |x.rows| && c in x.columns && c != Category ==> Get(encoded, i, c) == Get(x, i, c))
  {
    if Category !in x.columns {
      return;
    }
    var cats := Column(x, Category);
    var means := TargetMeans(cats, y);
    WithColumnCells(x, Category, MapCategories(cats, means));
    forall i | 0 <= i < |x.rows| && cats[i] != NaN ensures cats[i] in means {
      assert cats[i] in cats;
    }
  }

  /** The file build_features.py writes has no `type` column, because its
      pruning drops it; the training script reads that file, so both
      harnesses raise a KeyError for `type` on their first fold. */
  lemma ProcessedFileLacksCategory(raw: Table, y: seq<Label>, variant: Variant, folds: seq<Fold>, classify: Classifier, scorers: Scorers)
    requires WellFormed(raw) && Features.ProcessedFeatures(raw).Ok?
    requires Drop(Features.ProcessedFeatures(raw).value, ["isFraud"]).Ok?
    requires |y| == |Features.ProcessedFeatures(raw).value.rows| && Partition(folds, |y|)
    ensures var x := Drop(Features.ProcessedFeatures(raw).value, ["isFraud"]).value;
      && Category !in x.columns && Ready(variant, x, y)
      && CrossValidationReport(variant, x, y, folds, classify, scorers) == Err(KeyError([Category]))
  {
    var processed := Features.ProcessedFeatures(raw).value;
    Features.ProcessedKeepsStepAndHour(raw);
    assert Category in Features.RedundantColumns;
    DropWellFormed(processed, ["isFraud"]);
    var x := Drop(processed, ["isFraud"]).value;
    assert Category !in x.columns;
    var outcomes := FoldOutcomes(variant, x, y, folds, classify, scorers);
    assert outcomes[0] == FoldResult(variant, x, y, folds[0], classify, scorers);
    FirstFailureEndsLoop(outcomes, 0, |folds|);
  }
}
