/** Target-mean encoding of the transaction `type` (src/models/train_model.py):
    `y.groupby(X['type']).mean()` maps each category to the fraud rate of its
    rows; `X['type'].map(means)` replaces each category with its rate, and a
    category the map lacks becomes NaN, which the test side fills with the
    overall training fraud rate. */
module TargetEncoding {
  import opened Frames

  /** The label `isFraud`: 0 or 1. */
  type Label = x: int | 0 <= x <= 1

  /** Number of rows whose category is `c`. */
  function Count(cats: seq<Cell>, c: Cell): nat {
    if cats == [] then 0
    else (if cats[0] == c then 1 else 0) + Count(cats[1..], c)
  }

  /** Number of fraudulent rows whose category is `c`. */
  function Frauds(cats: seq<Cell>, labels: seq<Label>, c: Cell): nat
    requires |cats| == |labels|
  {
    if cats == [] then 0
    else (if cats[0] == c then labels[0] else 0) + Frauds(cats[1..], labels[1..], c)
  }

  /** Number of fraudulent rows. */
  function Positives(labels: seq<Label>): nat {
    if labels == [] then 0 else labels[0] + Positives(labels[1..])
  }

  /** Number of legitimate rows. */
  function Negatives(labels: seq<Label>): nat {
    if labels == [] then 0 else (1 - labels[0]) + Negatives(labels[1..])
  }

  /** Every row is legitimate or fraudulent. */
  lemma {:induction false} LabelsSplit(labels: seq<Label>)
    ensures Positives(labels) + Negatives(labels) == |labels|
  {
    if labels != [] {
      LabelsSplit(labels[1..]);
    }
  }

  /** A category's fraud count never exceeds its row count, and a category
      that occurs has at least one row. */
  lemma {:induction false} FraudsAtMostCount(cats: seq<Cell>, labels: seq<Label>, c: Cell)
    requires |cats| == |labels|
    ensures Frauds(cats, labels, c) <= Count(cats, c)
    ensures c in cats <==> Count(cats, c) > 0
  {
    if cats != [] {
      FraudsAtMostCount(cats[1..], labels[1..], c);
      assert c in cats <==> c == cats[0] || c in cats[1..];
    }
  }

  /** The running totals of one group: its rows and its fraudulent rows. */
  datatype Tally = Tally(rows: nat, frauds: nat)

  function TallyOf(acc: map<Cell, Tally>, c: Cell): Tally {
    if c in acc then acc[c] else Tally(0, 0)
  }

  /** The single pass of `groupby`: each row adds itself to its category's
      tally; rows with a missing category are skipped, as pandas drops NaN
      group keys. */
  function GroupBy(cats: seq<Cell>, labels: seq<Label>, acc: map<Cell, Tally>): (groups: map<Cell, Tally>)
    requires |cats| == |labels|
    ensures forall c :: c in acc ==> c in groups
    ensures NaN in groups <==> NaN in acc
  {
    if cats == [] then acc
    else if cats[0] == NaN then GroupBy(cats[1..], labels[1..], acc)
    else
      var t := TallyOf(acc, cats[0]);
      GroupBy(cats[1..], labels[1..], acc[cats[0] := Tally(t.rows + 1, t.frauds + labels[0])])
  }

  /** The pass ends with one group per non-missing category, whose tally is
      what it started with plus that category's rows and frauds. */
  lemma {:induction false} GroupByTallies(cats: seq<Cell>, labels: seq<Label>, acc: map<Cell, Tally>)
    requires |cats| == |labels| && NaN !in acc
    ensures forall c :: c in GroupBy(cats, labels, acc) <==> c in acc || (c in cats && c != NaN)
    ensures forall c :: c in GroupBy(cats, labels, acc) ==>
              GroupBy(cats, labels, acc)[c] ==
                Tally(TallyOf(acc, c).rows + Count(cats, c), TallyOf(acc, c).frauds + Frauds(cats, labels, c))
  {
    if cats != [] {
      var next := if cats[0] == NaN then acc
                  else acc[cats[0] := Tally(TallyOf(acc, cats[0]).rows + 1, TallyOf(acc, cats[0]).frauds + labels[0])];
      GroupByTallies(cats[1..], labels[1..], next);
      assert forall c :: c in cats <==> c == cats[0] || c in cats[1..];
    }
  }

  /** The groups the pass builds from nothing: one per non-missing
      category, holding at least one row and no more frauds than rows. */
  lemma GroupsFromScratch(cats: seq<Cell>, labels: seq<Label>)
    requires |cats| == |labels|
    ensures var groups := GroupBy(cats, labels, map[]);
      && (forall c :: c in groups <==> c in cats && c != NaN)
      && (forall c :: c in groups ==>
            && groups[c] == Tally(Count(cats, c), Frauds(cats, labels, c))
            && 0 < Count(cats, c) && Frauds(cats, labels, c) <= Count(cats, c))
  {
    GroupByTallies(cats, labels, map[]);
    forall c | c in cats ensures 0 < Count(cats, c) && Frauds(cats, labels, c) <= Count(cats, c) {
      FraudsAtMostCount(cats, labels, c);
    }
  }

  /** A share of rows lies in [0, 1]. */
  lemma RateBounds(part: nat, whole: nat)
    requires part <= whole && whole > 0
    ensures 0.0 <= part as real / whole as real <= 1.0
  {
    assert part as real / whole as real * whole as real == part as real;
  }

  /** `y.groupby(X['type']).mean()`: every category present (NaN aside) is
      a key, nothing else is, and its value is the share of its rows that
      are fraudulent, a rate in [0, 1]. */
  function TargetMeans(cats: seq<Cell>, labels: seq<Label>): (means: map<Cell, real>)
    requires |cats| == |labels|
    ensures forall c :: c in means <==> c in cats && c != NaN
    ensures forall c :: c in means ==>
              && Count(cats, c) > 0
              && means[c] == Frauds(cats, labels, c) as real / Count(cats, c) as real
              && 0.0 <= means[c] <= 1.0
  {
    GroupsFromScratch(cats, labels);
    var groups := GroupBy(cats, labels, map[]);
    assert forall c :: c in groups ==> groups[c].rows > 0 && 0.0 <= groups[c].frauds as real / groups[c].rows as real <= 1.0 by {
      forall c | c in groups ensures groups[c].rows > 0 && 0.0 <= groups[c].frauds as real / groups[c].rows as real <= 1.0 {
        assert groups[c] == Tally(Count(cats, c), Frauds(cats, labels, c));
        RateBounds(groups[c].frauds, groups[c].rows);
      }
    }
    map c | c in groups :: groups[c].frauds as real / groups[c].rows as real
  }

  /** `y.mean()`: the fraud rate over all the given rows. */
  function MeanLabel(labels: seq<Label>): (m: real)
    requires |labels| > 0
    ensures m * |labels| as real == Positives(labels) as real
    ensures 0.0 <= m <= 1.0
  {
    LabelsSplit(labels);
    Positives(labels) as real / |labels| as real
  }

  /** `cats.map(means)`: a category that is a key becomes its value, any
      other cell becomes NaN. */
  function MapCategories(cats: seq<Cell>, means: map<Cell, real>): (encoded: seq<Cell>)
    ensures |encoded| == |cats|
    ensures forall i :: 0 <= i < |cats| ==> (encoded[i] == NaN <==> cats[i] !in means)
    ensures forall i :: 0 <= i < |cats| && cats[i] in means ==> encoded[i] == Real(means[cats[i]])
  {
    seq(|cats|, i requires 0 <= i < |cats| => if cats[i] in means then Real(means[cats[i]]) else NaN)
  }

  /** `cells.fillna(v)` */
  function FillNaN(cells: seq<Cell>, v: real): (filled: seq<Cell>)
    ensures |filled| == |cells| && NaN !in filled
    ensures forall i :: 0 <= i < |cells| ==> filled[i] == if cells[i] == NaN then Real(v) else cells[i]
  {
    seq(|cells|, i requires 0 <= i < |cells| => if cells[i] == NaN then Real(v) else cells[i])
  }

  /** Mapping the training categories through their own means leaves no
      gap: each row with a category gets that category's fraud rate over
      the training rows, a value in [0, 1]. */
  lemma {:induction false} TrainEncodingComplete(cats: seq<Cell>, labels: seq<Label>)
    requires |cats| == |labels|
    ensures var encoded := MapCategories(cats, TargetMeans(cats, labels));
      forall i :: 0 <= i < |cats| && cats[i] != NaN ==>
        && encoded[i].Real?
        && encoded[i].r == Frauds(cats, labels, cats[i]) as real / Count(cats, cats[i]) as real
        && 0.0 <= encoded[i].r <= 1.0
  {
    var means := TargetMeans(cats, labels);
    forall i | 0 <= i < |cats| && cats[i] != NaN ensures cats[i] in means {
      assert cats[i] in cats;
    }
  }

  /** Test rows are mapped through the training means: a category seen in
      training gets exactly its training fraud rate; any other category, and
      a missing one, gets the fraud rate of the whole training partition. */
  lemma TestEncodingFallsBack(trainCats: seq<Cell>, trainLabels: seq<Label>, testCats: seq<Cell>)
    requires |trainCats| == |trainLabels| > 0
    ensures var means := TargetMeans(trainCats, trainLabels);
      var encoded := FillNaN(MapCategories(testCats, means), MeanLabel(trainLabels));
      && |encoded| == |testCats|
      && (forall i :: 0 <= i < |testCats| && testCats[i] in trainCats && testCats[i] != NaN ==>
            encoded[i] == Real(Frauds(trainCats, trainLabels, testCats[i]) as real / Count(trainCats, testCats[i]) as real))
      && (forall i :: 0 <= i < |testCats| && (testCats[i] !in trainCats || testCats[i] == NaN) ==>
            encoded[i] == Real(MeanLabel(trainLabels)))
  {
  }
}
