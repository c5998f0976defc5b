# Salary baseline and feature transform, modelled in Dafny

This project models the two pieces of the salary-prediction repository that
hold real logic:

- The grouped-average baseline estimator `avg_per_industry_degree` and its
  cross-validation loop `cross_val` (`function_scripts/Baseline_functions.py`).
  - The estimator learns the mean salary of every combination of the chosen
    categorical columns.
  - It predicts by a left join against that table.
  - `cross_val` refits it on each fold's training rows and collects one mean
    squared error per fold.
- The configuration-only feature transform `change_variables`, plus the
  no-op `fit` of `to_dense_mat` (`function_scripts/Preprocessing.py`).
  - The transform can recode `degree` into `higher_ed`.
  - It can add the `major_industry` interaction column.
  - It can then delete listed columns.

Files:

- `frame.dfy` (module `DataFrame`): the table. A frame is an ordered list of
  column names, the set of object-dtype (categorical) columns, and rows that
  map column names to a cell. A cell is a string, an integer or pandas'
  missing value. The module also holds column assignment, `drop` and
  positional row selection (`iloc`).
- `baseline.dfy` (module `Baseline`): the group means as pure functions, with
  lemmas about them. The estimator is a class whose `Fit` method updates
  `fitted` and `levelAverages` in place. `Predict` and `GetParams` are
  read-only functions of that state.
- `crossval.dfy` (module `CrossValidation`):
  - `cross_val` is a method with a loop over the folds, proved against the
    specification function `RunPrefix`.
  - `RunPrefix` is a left fold of one fold's effect (`FoldStep`) over the
    splits. It is built on the generic fold `Run`.
  - The K-fold split is an input, described by `IsKFold`.
- `preprocessing.dfy` (module `Preprocessing`): `change_variables` as a
  value whose `Transform` is a pure function.

Two behaviours of the code that the model keeps:

- A `fit` that only prints does not stop `cross_val`.
  - `fit` only prints when a grouping column is not categorical. It returns
    `None` and leaves the estimator as it was.
  - `cross_val` carries on and predicts with the old state. An estimator
    never fitted returns `None` from `predict`, and indexing that fails.
  - In the model, `Refit` keeps the state on `NotCategorical`, and `Score`
    fails with `PredictReturnedNone` when the state is unfitted.
- `cross_val` refits the same estimator on every fold, so the table is
  replaced each time, and the estimator ends holding the last fold's table
  (`RunPrefixLeavesLastFit`).

pandas behaviour is modelled as pandas 1.x does it:

- `groupby` drops rows whose key has a missing part.
- `mean()` drops non-numeric columns.
- `drop` of an absent label is a KeyError.
- A merge against a frame that already has a `target` column produces
  `target_x`/`target_y`, so selecting `target` fails.
- `mean_squared_error` rejects a missing prediction.

## Model

| member | source | states |
|---|---|---|
| Baseline.AvgPerIndustryDegree.constructor | function_scripts/Baseline_functions.py:16-18 | a new estimator stores exactly the given grouping columns, is unfitted and has an empty table |
| Baseline.FitTable | function_scripts/Baseline_functions.py:30-39 | fit reports the categorical-check failure exactly when some grouping column is not an object-dtype column of X (absent columns included); it raises "No group keys" exactly when the grouping columns are empty and X has rows; it succeeds exactly when the grouping columns are categorical, non-empty unless X has no rows, and both numeric predictors are present to be dropped |
| Baseline.AvgPerIndustryDegree.Fit | function_scripts/Baseline_functions.py:20-39 | on success the table becomes the group means of X and y, `fitted` becomes true and the estimator itself is returned; on any failure (printed or raised) `fitted` and the old table are unchanged; the class invariant is kept |
| Baseline.GroupMeansKeys | function_scripts/Baseline_functions.py:31-33 | the table's keys are exactly the distinct complete grouping-value combinations present in the training rows |
| Baseline.GroupMeansValue | function_scripts/Baseline_functions.py:31-33 | each key's value is the arithmetic mean of the targets of the training rows carrying that combination (there is at least one) |
| Baseline.AccumulateIsSumAndCount | function_scripts/Baseline_functions.py:31-33 | the one-pass accumulation holds, per complete combination present, the sum and the count of the matching targets, and nothing else |
| Baseline.MatchingNonEmpty | function_scripts/Baseline_functions.py:31-33 | a combination has matching targets exactly when some row carries it |
| Baseline.GroupMeansIgnoreOtherColumns | function_scripts/Baseline_functions.py:31-34 | the table depends only on the grouping columns and the target: other columns, `yearsExperience` and `milesFromMetropolis` included, cannot change it |
| Baseline.AccumulateDependsOnKeysOnly | function_scripts/Baseline_functions.py:31-33 | rows with the same keys and targets accumulate to the same table |
| Baseline.NoGroupKeysOnlyWithRows | function_scripts/Baseline_functions.py:30-36 | with no grouping columns, fitting an empty X succeeds with an empty table and fitting a non-empty X is the "No group keys" error |
| Baseline.LeftJoin | function_scripts/Baseline_functions.py:52-56 | an empty key list is the merge's ValueError; otherwise the merge succeeds exactly when the grouping columns and `jobId` are present and `target` is not; then it has one output per input row, in order, with that row's `jobId` and its key's table entry, or a missing target when the key is not in the table |
| Baseline.AvgPerIndustryDegree.Predict | function_scripts/Baseline_functions.py:51-60 | unfitted: the "needs to be fitted" error; fitted: the left join of X against the stored table |
| Baseline.AvgPerIndustryDegree.GetParams | function_scripts/Baseline_functions.py:62-69 | the stored table exactly when fitted, nothing otherwise |
| Baseline.PredictAfterFit | function_scripts/Baseline_functions.py:20-57 | after a successful fit, row i's prediction carries its `jobId`; it is present exactly when its combination occurred complete in training, and then equals the mean of the matching training targets |
| CrossValidation.TrainIndicesComplement | function_scripts/Baseline_functions.py:84-90 | a fold's training positions are every row below n outside its held-out positions, each once, ascending |
| CrossValidation.Mse | function_scripts/Baseline_functions.py:95 | the mean squared error of two equally long non-empty lists is never negative |
| CrossValidation.PerfectPredictionScoresZero | function_scripts/Baseline_functions.py:95 | predicting the targets exactly scores 0 |
| CrossValidation.MseSymmetric | function_scripts/Baseline_functions.py:95 | the score does not depend on which list is the prediction |
| CrossValidation.RunLength | function_scripts/Baseline_functions.py:85-97 | a run of k folds that finishes has exactly k scores |
| CrossValidation.RunStops | function_scripts/Baseline_functions.py:88-95 | after the first failing fold no further fold runs: every longer run has the same failure and the same final state |
| CrossValidation.RunEntry | function_scripts/Baseline_functions.py:88-95 | score j of a finished run is what fold j scored, starting from the state the first j folds left |
| CrossValidation.FoldStepScores | function_scripts/Baseline_functions.py:89-95 | with categorical grouping columns, a fold that scores fits the table on its own training rows and scores the predictions for its held-out rows against their targets |
| CrossValidation.RunPrefixScores | function_scripts/Baseline_functions.py:88-95 | with categorical grouping columns, entry j of a finished run is the mean squared error between fold j's held-out targets and the predictions of the table fitted on fold j's training rows, paired by position |
| CrossValidation.RunPrefixLeavesLastFit | function_scripts/Baseline_functions.py:88-92 | with categorical grouping columns, a finished run leaves the estimator holding the table fitted on the last fold's training rows |
| CrossValidation.HeldOutRowsUnused | function_scripts/Baseline_functions.py:89-92 | the table a fold fits is unchanged by any change to the targets or cells of its held-out rows |
| CrossValidation.ScoreFold | function_scripts/Baseline_functions.py:94-95 | predict then score on the estimator's current state, with `None` from an unfitted predict and a missing prediction as errors |
| CrossValidation.RunFold | function_scripts/Baseline_functions.py:89-95 | one loop pass: the new state and the score are those of `FoldStep` (a raised fit error keeps the old state; the printed one keeps it and still predicts) |
| CrossValidation.CrossVal | function_scripts/Baseline_functions.py:71-97 | the returned scores or error, and the estimator's final state, are those of running every fold in order; a finished run has exactly `cv` scores; `cv` defaults to 3 |
| CrossValidation.FoldLoop | function_scripts/Baseline_functions.py:85-97 | the loop appends one score per fold and stops at the first error; its result and the final state are those of the run over all folds |
| Preprocessing.RecodeDegree | function_scripts/Preprocessing.py:37-39 | fails exactly when `degree` is absent; otherwise keeps the row count and replaces `degree` by `higher_ed` among the columns |
| Preprocessing.AddInteraction | function_scripts/Preprocessing.py:42-43 | succeeds exactly when `major` is an object column, `industry` is present and every row's concatenation is defined; then adds `major_industry` and keeps the row count; the errors come in evaluation order: a missing `major`, then the TypeError of `major + "_"` (any non-object `major`, or an object one holding a non-string), then a missing `industry`, then the TypeError of adding `industry` |
| Preprocessing.MajorTypeErrorBeforeIndustryLookup | function_scripts/Preprocessing.py:43 | a frame whose object `major` holds an integer and that has no `industry` column fails with the TypeError, not the KeyError on `industry` |
| Preprocessing.NonObjectMajorFails | function_scripts/Preprocessing.py:43 | a non-object `major` fails with the TypeError whatever its cells, with no rows or with only missing cells |
| Preprocessing.DeleteColumns | function_scripts/Preprocessing.py:46-48 | fails exactly when a listed name is not a column; otherwise removes exactly the listed columns and keeps the row count |
| Preprocessing.ChangeVariables.Fit | function_scripts/Preprocessing.py:28-30 | fitting returns the transform unchanged |
| Preprocessing.ChangeVariables.Transform | function_scripts/Preprocessing.py:32-48 | row count and rectangularity are kept; with every option off it returns X itself; with `change_degree` and no `degree` column it fails with a KeyError on `degree` |
| Preprocessing.HigherEdRecodesDegree | function_scripts/Preprocessing.py:37-39 | with `change_degree`, `degree` is gone and the integer column `higher_ed` is 0 exactly for "NONE" and "HIGH_SCHOOL" and 1 otherwise |
| Preprocessing.InteractionCellMeaning | function_scripts/Preprocessing.py:43 | a defined `major + "_" + industry` is missing exactly when a part is missing, and is the joined string when both are strings |
| Preprocessing.InteractionJoinsMajorAndIndustry | function_scripts/Preprocessing.py:42-43 | with `interactions`, `major_industry` is an object column holding `major` + "_" + `industry`, missing when either part is missing |
| Preprocessing.DeletedColumnsAbsent | function_scripts/Preprocessing.py:46-48 | every column listed for deletion is absent from the result |
| Preprocessing.UntouchedColumnKept | function_scripts/Preprocessing.py:34-48 | a column no enabled option creates, removes or deletes keeps its presence, its dtype and every cell |
| Preprocessing.DeletingRecodedDegreeFails | function_scripts/Preprocessing.py:37-48 | recoding `degree` and also listing it for deletion always fails, because deletion runs after `degree` is gone |
| Preprocessing.ToDenseMat.Fit | function_scripts/Preprocessing.py:54-55 | fitting returns the stage unchanged |

## Left out

- `cv_mse_stats` (function_scripts/Preprocessing.py:60-86): sklearn's parallel `cross_val_score` and a floating-point standard deviation.
- `to_dense_mat.transform`: a call into scipy's sparse-to-dense conversion.
- The shuffled `KFold(random_state = 42)` split: sklearn's random generator is not modelled. The split is an input that `IsKFold` describes: disjoint sorted held-out lists that cover every row, each paired with the ascending list of the other rows. Reproducibility for a fixed seed is therefore not stated.
- Floating point: means and squared errors are exact reals, so rounding is not modelled.
- Mse: the model proves that the score is never negative and is 0 for a perfect prediction, but not that 0 happens only for a perfect prediction.
- Numeric columns other than the two named predictors: `groupby().mean()` would carry them into `level_averages` as extra columns. The table models only the target's mean. The merge would then add those columns to the output, where the final selection of `jobId` and `target` drops them; the exception is a non-object `jobId` column in the training X, which is not modelled: its mean would sit in `level_averages`, the merge would rename the two copies to `jobId_x`/`jobId_y`, and the selection of `jobId` would raise a KeyError in `predict` (and so in `cross_val`), where the model predicts.
- A grouping column named `target`, and a missing value in y: neither is modelled.
- CrossVal: requires `cv` to be the number of splits of a valid K-fold split, so it does not model sklearn's ValueError for `cv < 2` or for more folds than rows (function_scripts/Baseline_functions.py:84, 88).
- CrossVal: takes the baseline estimator only; `cross_val` accepts any object with `fit` and `predict`, and other estimators are not modelled.
- `X_copy["target"] = y.copy()` aligns y with X by index label; the model pairs them by position, which is the same thing only when both carry the same index. A `y` whose length differs from X's (a ValueError for a numpy `y`) is not modelled: `FitTable`, `Fit` and `CrossVal` require equal lengths. Calling `fit` without y (its default `None`) is not modelled either: once the categorical check passes, `None.copy()` raises AttributeError.
- Duplicate column names: `Frame.Valid()` does not require the names to be distinct, and no lemma depends on it.
- Merge dtype errors: pandas refuses to merge key columns whose dtypes differ, and that is not modelled.
- Python aliasing: X, y and the frames are values, so the model cannot express that the caller's X is not mutated. It holds because nothing assigns into it.
- The EDA, results, data-import and deployment scripts: plotting, file I/O and calls into pickled models, outside this model.
