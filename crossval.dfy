/** `cross_val` of function_scripts/Baseline_functions.py: refit the baseline
    on each fold's training rows, predict the held-out rows and collect the
    per-fold mean squared errors. The shuffled K-fold split is an input. */
module CrossValidation {
  import opened DataFrame
  import opened Baseline

  /** Why a run stops: an exception `fit` raises, `predict` returning None
      (so that `predictions["target"]` is a TypeError), a KeyError inside
      `predict`, or a missing prediction, which mean_squared_error refuses. */
  datatype CvError = FitRaised(fitError: FitError) | PredictReturnedNone | PredictRaised(predictError: PredictError) | NaNInPredictions

  predicate StrictlyIncreasing(s: seq<nat>)
  {
    forall a, b :: 0 <= a < b < |s| ==> s[a] < s[b]
  }

  /** One pair that KFold.split yields: training positions, held-out positions. */
  datatype Split = Split(train: seq<nat>, test: seq<nat>)

  /** Both lists index rows below n and at least one row is held out. */
  predicate IsSplit(sp: Split, n: nat)
  {
    |sp.test| > 0 && InRange(sp.test, n) && InRange(sp.train, n)
  }

  predicate WellIndexed(splits: seq<Split>, n: nat)
  {
    forall k :: 0 <= k < |splits| ==> IsSplit(splits[k], n)
  }

  /** Row i is held out by some fold. */
  predicate HeldOut(splits: seq<Split>, i: nat)
  {
    exists k :: 0 <= k < |splits| && i in splits[k].test
  }

  /** The training positions of a fold: every row below n that it does not
      hold out, in ascending order. */
  function TrainIndices(n: nat, test: seq<nat>): (r: seq<nat>)
    ensures InRange(r, n)
  {
    if n == 0 then [] else TrainIndices(n - 1, test) + (if n - 1 in test then [] else [n - 1])
  }

  /** The training positions are exactly the rows below n outside the fold,
      each once, in ascending order. */
  lemma {:induction false} TrainIndicesComplement(n: nat, test: seq<nat>)
    ensures var r := TrainIndices(n, test);
      && (forall j :: 0 <= j < |r| ==> r[j] !in test)
      && (forall i :: 0 <= i < n && i !in test ==> i in r)
      && StrictlyIncreasing(r)
  {
    if n > 0 {
      TrainIndicesComplement(n - 1, test);
    }
  }

  /** What sklearn's KFold(n_splits = |splits|).split yields: at least two
      folds whose held-out lists are non-empty, sorted, pairwise disjoint and
      together cover every row, each paired with the ascending list of the
      other rows. */
  predicate IsKFold(splits: seq<Split>, n: nat)
  {
    && |splits| >= 2
    && WellIndexed(splits, n)
    && (forall k :: 0 <= k < |splits| ==> StrictlyIncreasing(splits[k].test))
    && (forall k :: 0 <= k < |splits| ==> splits[k].train == TrainIndices(n, splits[k].test))
    && (forall k, l, j :: 0 <= k < l < |splits| && 0 <= j < |splits[k].test| ==> splits[k].test[j] !in splits[l].test)
    && (forall i: nat :: i < n ==> HeldOut(splits, i))
  }

  /** The sum of the squared differences of two lists paired by position. */
  function SquaredErrors(p: seq<real>, t: seq<real>): (r: real)
    requires |p| == |t|
    ensures r >= 0.0
  {
    if p == [] then 0.0 else (p[0] - t[0]) * (p[0] - t[0]) + SquaredErrors(p[1..], t[1..])
  }

  /** mean_squared_error on exact reals: the mean of the squared differences
      of the two lists paired by position, never negative. */
  function Mse(p: seq<real>, t: seq<real>): (r: real)
    requires |p| == |t| > 0
    ensures r >= 0.0
  {
    SquaredErrors(p, t) / (|p| as real)
  }

  /** A perfect prediction scores zero. */
  lemma {:induction false} PerfectPredictionScoresZero(p: seq<real>)
    requires |p| > 0
    ensures Mse(p, p) == 0.0
  {
    SquaredErrorsOfSelf(p);
  }

  lemma {:induction false} SquaredErrorsOfSelf(p: seq<real>)
    ensures SquaredErrors(p, p) == 0.0
  {
    if p != [] {
      SquaredErrorsOfSelf(p[1..]);
    }
  }

  /** The score does not depend on which list is the prediction. */
  lemma {:induction false} MseSymmetric(p: seq<real>, t: seq<real>)
    requires |p| == |t| > 0
    ensures Mse(p, t) == Mse(t, p)
  {
    SquaredErrorsSymmetric(p, t);
  }

  lemma {:induction false} SquaredErrorsSymmetric(p: seq<real>, t: seq<real>)
    requires |p| == |t|
    ensures SquaredErrors(p, t) == SquaredErrors(t, p)
  {
    if p != [] {
      SquaredErrorsSymmetric(p[1..], t[1..]);
      assert (p[0] - t[0]) * (p[0] - t[0]) == (t[0] - p[0]) * (t[0] - p[0]);
    }
  }

  predicate AllPresent(preds: seq<Prediction>)
  {
    forall i :: 0 <= i < |preds| ==> preds[i].target.Some?
  }

  function Targets(preds: seq<Prediction>): seq<real>
    requires AllPresent(preds)
  {
    seq(|preds|, i requires 0 <= i < |preds| => preds[i].target.value)
  }

  /** The estimator's mutable state: `fitted` and `level_averages`. */
  datatype Snapshot = Snapshot(fitted: bool, averages: LevelTable)

  /** The state after `model.fit(X, y)`: its printed failure leaves the state
      as it was, its raised failures stop the run. */
  function Refit(cols: seq<string>, s: Snapshot, X: Frame, y: seq<real>): Result<Snapshot, CvError>
    requires |y| == |X.rows|
  {
    match FitTable(cols, X, y)
    case Ok(t) => Ok(Snapshot(true, t))
    case Err(NotCategorical) => Ok(s)
    case Err(e) => Err(FitRaised(e))
  }

  /** `mean_squared_error(model.predict(test)["target"], yTest)`. */
  function Score(cols: seq<string>, s: Snapshot, test: Frame, yTest: seq<real>): Result<real, CvError>
    requires |yTest| == |test.rows| > 0
  {
    if !s.fitted then Err(PredictReturnedNone)
    else match LeftJoin(cols, s.averages, test)
      case Err(e) => Err(PredictRaised(e))
      case Ok(preds) =>
        if !AllPresent(preds) then Err(NaNInPredictions)
        else Ok(Mse(Targets(preds), yTest))
  }

  /** One fold from state s: refit on its training rows, then score its
      held-out rows. The state the fold leaves (the old one when fit raised)
      and the score or the failure. */
  function FoldStep(cols: seq<string>, s: Snapshot, X: Frame, y: seq<real>, sp: Split): (Snapshot, Result<real, CvError>)
    requires |y| == |X.rows| && IsSplit(sp, |X.rows|)
  {
    match Refit(cols, s, SelectRows(X, sp.train), Pick(y, sp.train))
    case Err(e) => (s, Err(e))
    case Ok(s') => (s', Score(cols, s', SelectRows(X, sp.test), Pick(y, sp.test)))
  }

  /** What one fold does to the estimator's state, as a value. */
  type FoldFunction = (Snapshot, Split) --> (Snapshot, Result<real, CvError>)

  /** `step` can run every fold of `splits` from any state. */
  ghost predicate Runs(step: FoldFunction, splits: seq<Split>)
  {
    forall st, j :: 0 <= j < |splits| ==> step.requires(st, splits[j])
  }

  /** The first k folds run in order from state s: the state they leave, and
      their scores in fold order or the first failure, after which no fold runs. */
  function Run(step: FoldFunction, s: Snapshot, splits: seq<Split>, k: nat): (Snapshot, Result<seq<real>, CvError>)
    requires Runs(step, splits) && k <= |splits|
  {
    if k == 0 then (s, Ok([]))
    else
      var (s', done) := Run(step, s, splits, k - 1);
      match done
      case Err(_) => (s', done)
      case Ok(scores) =>
        var (s'', out) := step(s', splits[k - 1]);
        match out
        case Err(e) => (s'', Err(e))
        case Ok(score) => (s'', Ok(scores + [score]))
  }

  /** The baseline's fold: FoldStep with the grouping columns and data fixed.
      This, Implements, FoldingImplements and StepFold have no counterpart in
      the code: they let the loop be proved against the generic Run without
      unfolding fit and predict at every step. */
  function Folding(cols: seq<string>, X: Frame, y: seq<real>): FoldFunction
  {
    (st: Snapshot, sp: Split) requires |y| == |X.rows| && IsSplit(sp, |X.rows|) => FoldStep(cols, st, X, y, sp)
  }

  /** `step` is the baseline's fold on every well-indexed split (a proof device:
      the loop sees only `step`, never FoldStep's definition). */
  ghost predicate Implements(step: FoldFunction, cols: seq<string>, X: Frame, y: seq<real>)
  {
    forall st, sp {:trigger FoldStep(cols, st, X, y, sp)} :: |y| == |X.rows| && IsSplit(sp, |X.rows|) ==>
      step.requires(st, sp) && step(st, sp) == FoldStep(cols, st, X, y, sp)
  }

  /** Folding is such a step function (the one place the two are connected). */
  lemma FoldingImplements(cols: seq<string>, X: Frame, y: seq<real>)
    ensures Implements(Folding(cols, X, y), cols, X, y)
  {
  }

  /** The first k folds of `cross_val` run from state s. */
  function RunPrefix(cols: seq<string>, s: Snapshot, X: Frame, y: seq<real>, splits: seq<Split>, k: nat): (Snapshot, Result<seq<real>, CvError>)
    requires |y| == |X.rows| && WellIndexed(splits, |X.rows|) && k <= |splits|
  {
    Run(Folding(cols, X, y), s, splits, k)
  }

  /** The level-average table fitted on the given training positions: the
      group means of those rows and their targets only. */
  function FoldTable(cols: seq<string>, X: Frame, y: seq<real>, train: seq<nat>): LevelTable
    requires |y| == |X.rows| && InRange(train, |X.rows|)
  {
    GroupMeans(cols, Pick(X.rows, train), Pick(y, train))
  }

  /** A finished run has one score per fold it ran. */
  lemma {:induction false} RunLength(step: FoldFunction, s: Snapshot, splits: seq<Split>, k: nat)
    requires Runs(step, splits) && k <= |splits|
    requires Run(step, s, splits, k).1.Ok?
    ensures |Run(step, s, splits, k).1.value| == k
  {
    if k > 0 {
      RunLength(step, s, splits, k - 1);
    }
  }

  /** The first failure ends the run: every longer run fails with it and
      leaves the same state. */
  lemma {:induction false} RunStops(step: FoldFunction, s: Snapshot, splits: seq<Split>, k: nat, m: nat)
    requires Runs(step, splits) && k <= m <= |splits|
    requires Run(step, s, splits, k).1.Err?
    ensures Run(step, s, splits, m) == Run(step, s, splits, k)
    decreases m - k
  {
    if k < m {
      RunStops(step, s, splits, k + 1, m);
    }
  }

  /** Score j of a finished run is what fold j scored from the state the
      first j folds left. */
  lemma {:induction false} RunEntry(step: FoldFunction, s: Snapshot, splits: seq<Split>, k: nat, j: nat)
    requires Runs(step, splits) && j < k <= |splits|
    requires Run(step, s, splits, k).1.Ok?
    ensures Run(step, s, splits, j).1.Ok?
    ensures |Run(step, s, splits, k).1.value| == k
    ensures step(Run(step, s, splits, j).0, splits[j]).1 == Ok(Run(step, s, splits, k).1.value[j])
  {
    RunLength(step, s, splits, k);
    if j < k - 1 {
      RunEntry(step, s, splits, k - 1, j);
      RunLength(step, s, splits, k - 1);
    } else {
      RunLength(step, s, splits, j);
    }
  }

  /** With categorical grouping columns, a fold that runs scores the
      predictions of the table fitted on its own training rows. */
  lemma FoldStepScores(cols: seq<string>, s: Snapshot, X: Frame, y: seq<real>, sp: Split)
    requires |y| == |X.rows| && IsSplit(sp, |X.rows|)
    requires forall c :: c in cols ==> IsCategorical(X, c)
    requires FoldStep(cols, s, X, y, sp).1.Ok?
    ensures var preds := LeftJoin(cols, FoldTable(cols, X, y, sp.train), SelectRows(X, sp.test));
      && preds.Ok? && AllPresent(preds.value)
      && FoldStep(cols, s, X, y, sp).1.value == Mse(Targets(preds.value), Pick(y, sp.test))
  {
    var Xtrain := SelectRows(X, sp.train);
    assert Xtrain.columns == X.columns && Xtrain.categorical == X.categorical;
    assert Refit(cols, s, Xtrain, Pick(y, sp.train)) == Ok(Snapshot(true, FoldTable(cols, X, y, sp.train)));
  }

  /** With categorical grouping columns, entry j of a finished prefix is
      the mean squared error between the predictions that fold j's training
      rows give for its held-out rows and the held-out targets, paired by
      position. */
  lemma RunPrefixScores(cols: seq<string>, s: Snapshot, X: Frame, y: seq<real>, splits: seq<Split>, k: nat, j: nat)
    requires |y| == |X.rows| && WellIndexed(splits, |X.rows|)
    requires forall c :: c in cols ==> IsCategorical(X, c)
    requires j < k <= |splits| && RunPrefix(cols, s, X, y, splits, k).1.Ok?
    ensures |RunPrefix(cols, s, X, y, splits, k).1.value| == k
    ensures var preds := LeftJoin(cols, FoldTable(cols, X, y, splits[j].train), SelectRows(X, splits[j].test));
      && preds.Ok? && AllPresent(preds.value)
      && RunPrefix(cols, s, X, y, splits, k).1.value[j] == Mse(Targets(preds.value), Pick(y, splits[j].test))
  {
    var step := Folding(cols, X, y);
    RunEntry(step, s, splits, k, j);
    FoldStepScores(cols, Run(step, s, splits, j).0, X, y, splits[j]);
  }

  /** With categorical grouping columns, a finished prefix leaves the model
      holding the table fitted on the training rows of its last fold. */
  lemma RunPrefixLeavesLastFit(cols: seq<string>, s: Snapshot, X: Frame, y: seq<real>, splits: seq<Split>, k: nat)
    requires |y| == |X.rows| && WellIndexed(splits, |X.rows|)
    requires forall c :: c in cols ==> IsCategorical(X, c)
    requires 0 < k <= |splits| && RunPrefix(cols, s, X, y, splits, k).1.Ok?
    ensures RunPrefix(cols, s, X, y, splits, k).0 == Snapshot(true, FoldTable(cols, X, y, splits[k - 1].train))
  {
    var step := Folding(cols, X, y);
    RunEntry(step, s, splits, k, k - 1);
    var before := Run(step, s, splits, k - 1).0;
    var Xtrain := SelectRows(X, splits[k - 1].train);
    assert Xtrain.columns == X.columns && Xtrain.categorical == X.categorical;
    assert FoldStep(cols, before, X, y, splits[k - 1]).1.Ok?;
  }

  /** Nothing held out reaches the fit: changing the targets or the cells of
      the held-out rows leaves the table fitted on the other rows unchanged. */
  lemma HeldOutRowsUnused(cols: seq<string>, X1: Frame, y1: seq<real>, X2: Frame, y2: seq<real>, test: seq<nat>)
    requires |y1| == |X1.rows| == |X2.rows| == |y2|
    requires forall i :: 0 <= i < |y1| && i !in test ==> y1[i] == y2[i] && X1.rows[i] == X2.rows[i]
    ensures var train := TrainIndices(|X1.rows|, test);
      FoldTable(cols, X1, y1, train) == FoldTable(cols, X2, y2, train)
  {
    var train := TrainIndices(|X1.rows|, test);
    TrainIndicesComplement(|X1.rows|, test);
    assert Pick(y1, train) == Pick(y2, train);
    assert Pick(X1.rows, train) == Pick(X2.rows, train);
  }

  /** One fold's prediction and score on the model's current state. */
  method ScoreFold(model: AvgPerIndustryDegree, test: Frame, yTest: seq<real>) returns (r: Result<real, CvError>)
    requires |yTest| == |test.rows| > 0
    ensures r == Score(model.fittedColumns, Snapshot(model.fitted, model.levelAverages), test, yTest)
  {
    var predictions := model.Predict(test);
    if predictions.Err? {
      return if predictions.error == NotFitted then Err(PredictReturnedNone) else Err(PredictRaised(predictions.error));
    }
    if !AllPresent(predictions.value) {
      return Err(NaNInPredictions);
    }
    r := Ok(Mse(Targets(predictions.value), yTest));
  }

  /** One pass of the loop body: fit on the fold's training rows, then
      predict and score its held-out rows. A raised fit error leaves the
      model as it was; otherwise the model holds the refitted state. */
  method RunFold(model: AvgPerIndustryDegree, X: Frame, y: seq<real>, sp: Split) returns (r: Result<real, CvError>)
    requires model.Valid() && |y| == |X.rows| && IsSplit(sp, |X.rows|)
    modifies model`fitted, model`levelAverages
    ensures model.Valid()
    ensures var step := FoldStep(model.fittedColumns, old(Snapshot(model.fitted, model.levelAverages)), X, y, sp);
      Snapshot(model.fitted, model.levelAverages) == step.0 && r == step.1
  {
    var fitted := model.Fit(SelectRows(X, sp.train), Pick(y, sp.train));
    if fitted.Err? && fitted.error != NotCategorical {
      return Err(FitRaised(fitted.error));
    }
    r := ScoreFold(model, SelectRows(X, sp.test), Pick(y, sp.test));
  }

  /** RunFold as one application of `step`: a proof device with no counterpart
      in the code, so that FoldLoop's verification never unfolds FoldStep. */
  method StepFold(model: AvgPerIndustryDegree, X: Frame, y: seq<real>, sp: Split, ghost step: FoldFunction) returns (r: Result<real, CvError>)
    requires model.Valid() && |y| == |X.rows| && IsSplit(sp, |X.rows|)
    requires Implements(step, model.fittedColumns, X, y)
    modifies model`fitted, model`levelAverages
    ensures model.Valid()
    ensures step.requires(old(Snapshot(model.fitted, model.levelAverages)), sp)
    ensures (Snapshot(model.fitted, model.levelAverages), r) == step(old(Snapshot(model.fitted, model.levelAverages)), sp)
  {
    r := RunFold(model, X, y, sp);
  }

  /** `cross_val(model, X, y, cv = 3)` with the split given as `splits`: all the
      folds run in order from the model's current state, one score per fold;
      a finished run leaves the model fitted on the last fold's training rows. */
  method CrossVal(model: AvgPerIndustryDegree, X: Frame, y: seq<real>, splits: seq<Split>, cv: nat := 3)
    returns (r: Result<seq<real>, CvError>)
    requires model.Valid() && |y| == |X.rows|
    requires |splits| == cv && IsKFold(splits, |X.rows|)
    modifies model`fitted, model`levelAverages
    ensures model.Valid()
    ensures (Snapshot(model.fitted, model.levelAverages), r)
            == RunPrefix(model.fittedColumns, old(Snapshot(model.fitted, model.levelAverages)), X, y, splits, |splits|)
    ensures r.Ok? ==> |r.value| == cv
  {
    ghost var step := Folding(model.fittedColumns, X, y);
    FoldingImplements(model.fittedColumns, X, y);
    r := FoldLoop(model, X, y, splits, step);
    if r.Ok? {
      RunLength(step, old(Snapshot(model.fitted, model.levelAverages)), splits, |splits|);
    }
  }

  /** The loop over the folds: refit, predict, append the score. `step` is
      what one fold does; the loop meets it through StepFold. */
  method FoldLoop(model: AvgPerIndustryDegree, X: Frame, y: seq<real>, splits: seq<Split>, ghost step: FoldFunction)
    returns (r: Result<seq<real>, CvError>)
    requires model.Valid() && |y| == |X.rows| && WellIndexed(splits, |X.rows|) && Runs(step, splits)
    requires Implements(step, model.fittedColumns, X, y)
    modifies model`fitted, model`levelAverages
    ensures model.Valid()
    ensures (Snapshot(model.fitted, model.levelAverages), r) == Run(step, old(Snapshot(model.fitted, model.levelAverages)), splits, |splits|)
  {
    ghost var start := Snapshot(model.fitted, model.levelAverages);
    var mse: seq<real> := [];
    var k := 0;
    while k < |splits|
      invariant 0 <= k <= |splits|
      invariant model.Valid() && model.fittedColumns == old(model.fittedColumns)
      invariant Run(step, start, splits, k) == (Snapshot(model.fitted, model.levelAverages), Ok(mse))
    {
      var score := StepFold(model, X, y, splits[k], step);
      if score.Err? {
        RunStops(step, start, splits, k + 1, |splits|);
        return Err(score.error);
      }
      mse := mse + [score.value];
      k := k + 1;
    }
    r := Ok(mse);
  }
}
