/** The grouped-average baseline estimator `avg_per_industry_degree` of
    function_scripts/Baseline_functions.py: it learns the mean target of each
    combination of the grouping columns' values and predicts by lookup. */
module Baseline {
  import opened DataFrame

  /** One combination of grouping-column values, in grouping-column order. */
  type Key = seq<Value>

  /** The level-average table: combination to mean target. */
  type LevelTable = map<Key, real>

  function KeyOf(cols: seq<string>, row: Row): Key
  {
    seq(|cols|, j requires 0 <= j < |cols| => Cell(row, cols[j]))
  }

  /** pandas' groupby leaves out rows whose key has a missing value. */
  predicate Complete(k: Key)
  {
    forall j :: 0 <= j < |k| ==> !k[j].Missing?
  }

  /** The distinct complete combinations present in `rows`. */
  ghost function ObservedKeys(cols: seq<string>, rows: seq<Row>): set<Key>
  {
    set i | 0 <= i < |rows| && Complete(KeyOf(cols, rows[i])) :: KeyOf(cols, rows[i])
  }

  /** The targets of the rows carrying combination `k`, in row order. */
  function Matching(cols: seq<string>, rows: seq<Row>, y: seq<real>, k: Key): seq<real>
    requires |y| == |rows|
  {
    if rows == [] then []
    else (if KeyOf(cols, rows[0]) == k then [y[0]] else []) + Matching(cols, rows[1..], y[1..], k)
  }

  function Sum(s: seq<real>): real
  {
    if s == [] then 0.0 else s[0] + Sum(s[1..])
  }

  function Mean(s: seq<real>): real
    requires |s| > 0
  {
    Sum(s) / (|s| as real)
  }

  /** One pass over the rows: running (sum, count) per complete combination. */
  function Accumulate(cols: seq<string>, rows: seq<Row>, y: seq<real>): (acc: map<Key, (real, nat)>)
    requires |y| == |rows|
    ensures forall k :: k in acc ==> acc[k].1 > 0
  {
    if rows == [] then map[]
    else
      var acc := Accumulate(cols, rows[1..], y[1..]);
      var k := KeyOf(cols, rows[0]);
      if !Complete(k) then acc
      else if k in acc then acc[k := (acc[k].0 + y[0], acc[k].1 + 1)]
      else acc[k := (y[0], 1)]
  }

  /** `groupby(cols).mean()` restricted to the target column. */
  function GroupMeans(cols: seq<string>, rows: seq<Row>, y: seq<real>): LevelTable
    requires |y| == |rows|
  {
    var acc := Accumulate(cols, rows, y);
    map k | k in acc :: acc[k].0 / (acc[k].1 as real)
  }

  lemma {:induction false} AccumulateIsSumAndCount(cols: seq<string>, rows: seq<Row>, y: seq<real>, k: Key)
    requires |y| == |rows|
    ensures k in Accumulate(cols, rows, y) <==> Complete(k) && |Matching(cols, rows, y, k)| > 0
    ensures k in Accumulate(cols, rows, y) ==>
              Accumulate(cols, rows, y)[k] == (Sum(Matching(cols, rows, y, k)), |Matching(cols, rows, y, k)|)
    decreases |rows|
  {
    if rows != [] {
      AccumulateIsSumAndCount(cols, rows[1..], y[1..], k);
      var rest := Matching(cols, rows[1..], y[1..], k);
      if KeyOf(cols, rows[0]) == k {
        assert Matching(cols, rows, y, k) == [y[0]] + rest;
        assert Sum([y[0]] + rest) == y[0] + Sum(rest);
      } else {
        assert Matching(cols, rows, y, k) == rest;
      }
    }
  }

  lemma {:induction false} MatchingNonEmpty(cols: seq<string>, rows: seq<Row>, y: seq<real>, k: Key)
    requires |y| == |rows|
    ensures |Matching(cols, rows, y, k)| > 0 <==> exists i :: 0 <= i < |rows| && KeyOf(cols, rows[i]) == k
    decreases |rows|
  {
    if rows != [] {
      MatchingNonEmpty(cols, rows[1..], y[1..], k);
      if exists i :: 0 <= i < |rows| && KeyOf(cols, rows[i]) == k {
        var i :| 0 <= i < |rows| && KeyOf(cols, rows[i]) == k;
        if i > 0 {
          assert KeyOf(cols, rows[1..][i - 1]) == k;
        }
      }
      if exists i :: 0 <= i < |rows| - 1 && KeyOf(cols, rows[1..][i]) == k {
        var i :| 0 <= i < |rows| - 1 && KeyOf(cols, rows[1..][i]) == k;
        assert KeyOf(cols, rows[i + 1]) == k;
      }
    }
  }

  /** The table's keys are exactly the distinct complete combinations of the
      grouping columns' values present in the training rows. */
  lemma GroupMeansKeys(cols: seq<string>, rows: seq<Row>, y: seq<real>)
    requires |y| == |rows|
    ensures GroupMeans(cols, rows, y).Keys == ObservedKeys(cols, rows)
  {
    forall k | k in GroupMeans(cols, rows, y)
      ensures k in ObservedKeys(cols, rows)
    {
      AccumulateIsSumAndCount(cols, rows, y, k);
      MatchingNonEmpty(cols, rows, y, k);
      var i :| 0 <= i < |rows| && KeyOf(cols, rows[i]) == k;
    }
    forall k | k in ObservedKeys(cols, rows)
      ensures k in GroupMeans(cols, rows, y)
    {
      var i :| 0 <= i < |rows| && Complete(KeyOf(cols, rows[i])) && KeyOf(cols, rows[i]) == k;
      MatchingNonEmpty(cols, rows, y, k);
      AccumulateIsSumAndCount(cols, rows, y, k);
    }
  }

  /** Each key's value is the arithmetic mean of the targets of the rows that
      carry that combination. */
  lemma GroupMeansValue(cols: seq<string>, rows: seq<Row>, y: seq<real>, k: Key)
    requires |y| == |rows| && k in GroupMeans(cols, rows, y)
    ensures |Matching(cols, rows, y, k)| > 0
    ensures GroupMeans(cols, rows, y)[k] == Mean(Matching(cols, rows, y, k))
  {
    AccumulateIsSumAndCount(cols, rows, y, k);
  }

  lemma {:induction false} AccumulateDependsOnKeysOnly(cols: seq<string>, rows1: seq<Row>, rows2: seq<Row>, y: seq<real>)
    requires |rows1| == |rows2| == |y|
    requires forall i :: 0 <= i < |y| ==> KeyOf(cols, rows1[i]) == KeyOf(cols, rows2[i])
    ensures Accumulate(cols, rows1, y) == Accumulate(cols, rows2, y)
    decreases |y|
  {
    if y != [] {
      assert KeyOf(cols, rows1[0]) == KeyOf(cols, rows2[0]);
      forall i | 0 <= i < |y| - 1
        ensures KeyOf(cols, rows1[1..][i]) == KeyOf(cols, rows2[1..][i])
      {
        assert KeyOf(cols, rows1[i + 1]) == KeyOf(cols, rows2[i + 1]);
      }
      AccumulateDependsOnKeysOnly(cols, rows1[1..], rows2[1..], y[1..]);
    }
  }

  /** Only the target is averaged: the table does not depend on any column
      outside the grouping columns (`yearsExperience`, `milesFromMetropolis`
      and the other predictors included). */
  lemma GroupMeansIgnoreOtherColumns(cols: seq<string>, rows1: seq<Row>, rows2: seq<Row>, y: seq<real>)
    requires |rows1| == |rows2| == |y|
    requires forall i, c :: 0 <= i < |y| && c in cols ==> Cell(rows1[i], c) == Cell(rows2[i], c)
    ensures GroupMeans(cols, rows1, y) == GroupMeans(cols, rows2, y)
  {
    forall i | 0 <= i < |y|
      ensures KeyOf(cols, rows1[i]) == KeyOf(cols, rows2[i])
    {
      forall j | 0 <= j < |cols|
        ensures Cell(rows1[i], cols[j]) == Cell(rows2[i], cols[j])
      {
        assert cols[j] in cols;
      }
    }
    AccumulateDependsOnKeysOnly(cols, rows1, rows2, y);
  }

  /** The failures of `fit`: the printed "choose categorical columns" message
      (NotCategorical), pandas' "No group keys passed!" ValueError (NoGroupKeys,
      raised only when X has rows: an empty X groups by nothing without error),
      and the KeyError of dropping a numeric predictor the means lack. */
  datatype FitError = NotCategorical | NoGroupKeys | NoNumericColumn(name: string)

  /** A column of X that has object dtype, as `X.columns[X.dtypes == "O"]` lists. */
  predicate IsCategorical(X: Frame, c: string)
  {
    c in X.columns && c in X.categorical
  }

  /** A column that groupby(...).mean() averages, so that drop can remove it. */
  predicate IsNumeric(X: Frame, c: string)
  {
    c in X.columns && c !in X.categorical
  }

  /** What `fit` computes from X and y, or the error it reports. */
  function FitTable(cols: seq<string>, X: Frame, y: seq<real>): (r: Result<LevelTable, FitError>)
    requires |y| == |X.rows|
    ensures r == Err(NotCategorical) <==> exists c :: c in cols && !IsCategorical(X, c)
    ensures r == Err(NoGroupKeys) <==> cols == [] && |X.rows| > 0
    ensures r.Ok? <==> && (cols != [] || |X.rows| == 0)
                       && (forall c :: c in cols ==> IsCategorical(X, c))
                       && IsNumeric(X, "yearsExperience") && IsNumeric(X, "milesFromMetropolis")
  {
    if exists c :: c in cols && !IsCategorical(X, c) then Err(NotCategorical)
    else if cols == [] && |X.rows| > 0 then Err(NoGroupKeys)
    else if !IsNumeric(X, "yearsExperience") then Err(NoNumericColumn("yearsExperience"))
    else if !IsNumeric(X, "milesFromMetropolis") then Err(NoNumericColumn("milesFromMetropolis"))
    else Ok(GroupMeans(cols, X.rows, y))
  }

  /** With no grouping columns, fitting on an empty X succeeds with an empty
      table, and fitting on a non-empty X is the "No group keys" ValueError. */
  lemma NoGroupKeysOnlyWithRows(X: Frame, y: seq<real>)
    requires |y| == |X.rows| && IsNumeric(X, "yearsExperience") && IsNumeric(X, "milesFromMetropolis")
    ensures X.rows == [] ==> FitTable([], X, y) == Ok(map[])
    ensures X.rows != [] ==> FitTable([], X, y) == Err(NoGroupKeys)
  {
    if X.rows == [] {
      GroupMeansKeys([], X.rows, y);
    }
  }

  /** One output row of `predict`: the job id and the predicted target. */
  datatype Prediction = Prediction(jobId: Value, target: Option<real>)

  /** The failures of `predict`: the printed "needs to be fitted" message
      (NotFitted), pandas' ValueError for a merge on an empty key list
      (NoMergeKeys) and pandas' KeyError for a column the merge or the final
      selection cannot find. */
  datatype PredictError = NotFitted | NoMergeKeys | UnknownColumn(name: string)

  function Lookup(table: LevelTable, k: Key): Option<real>
  {
    if k in table then Some(table[k]) else None
  }

  /** `pd.merge(X, table, how = "left", on = cols)[["jobId", "target"]]`. An
      empty `cols` is refused before any column is looked up. A
      frame that already has a `target` column gets `target_x`/`target_y`
      from the merge, so the selection of `target` fails. */
  function LeftJoin(cols: seq<string>, table: LevelTable, X: Frame): (r: Result<seq<Prediction>, PredictError>)
    ensures cols == [] ==> r == Err(NoMergeKeys)
    ensures r.Ok? <==> cols != [] && (forall c :: c in cols ==> c in X.columns) && "jobId" in X.columns && "target" !in X.columns
    ensures r.Ok? ==> |r.value| == |X.rows|
    ensures r.Ok? ==> forall i :: 0 <= i < |X.rows| ==>
              && r.value[i].jobId == Cell(X.rows[i], "jobId")
              && (r.value[i].target.Some? <==> KeyOf(cols, X.rows[i]) in table)
              && (r.value[i].target.Some? ==> r.value[i].target.value == table[KeyOf(cols, X.rows[i])])
  {
    if cols == [] then Err(NoMergeKeys)
    else match FirstAbsent(cols, X.columns)
    case Some(c) => Err(UnknownColumn(c))
    case None =>
      if "jobId" !in X.columns then Err(UnknownColumn("jobId"))
      else if "target" in X.columns then Err(UnknownColumn("target"))
      else Ok(seq(|X.rows|, i requires 0 <= i < |X.rows| =>
                Prediction(Cell(X.rows[i], "jobId"), Lookup(table, KeyOf(cols, X.rows[i])))))
  }

  /** Fit then predict: a row gets the mean target of the training rows with
      its combination, and a missing value (not an error, not 0) when that
      combination never occurred in training or has a missing part. */
  lemma PredictAfterFit(cols: seq<string>, X: Frame, y: seq<real>, Q: Frame, i: nat)
    requires |y| == |X.rows| && FitTable(cols, X, y).Ok?
    requires LeftJoin(cols, FitTable(cols, X, y).value, Q).Ok? && i < |Q.rows|
    ensures var k := KeyOf(cols, Q.rows[i]);
      var p := LeftJoin(cols, FitTable(cols, X, y).value, Q).value[i];
      && p.jobId == Cell(Q.rows[i], "jobId")
      && (p.target.Some? <==> k in ObservedKeys(cols, X.rows))
      && (p.target.Some? ==> |Matching(cols, X.rows, y, k)| > 0 && p.target.value == Mean(Matching(cols, X.rows, y, k)))
  {
    var k := KeyOf(cols, Q.rows[i]);
    GroupMeansKeys(cols, X.rows, y);
    if k in GroupMeans(cols, X.rows, y) {
      GroupMeansValue(cols, X.rows, y, k);
    }
  }

  class AvgPerIndustryDegree {
    var fittedColumns: seq<string>
    var fitted: bool
    var levelAverages: LevelTable

    /** Before the first successful fit there is no table; every key of the
        table has one complete value per grouping column. */
    ghost predicate Valid()
      reads this
    {
      && (!fitted ==> levelAverages == map[])
      && forall k :: k in levelAverages ==> |k| == |fittedColumns| && Complete(k)
    }

    constructor (columns: seq<string>)
      ensures fittedColumns == columns && !fitted && Valid()
    {
      fittedColumns := columns;
      fitted := false;
      levelAverages := map[];
    }

    /** On success the table is replaced and the estimator itself returned;
        on any failure nothing changes. X itself is a value and is never
        altered. */
    method Fit(X: Frame, y: seq<real>) returns (r: Result<AvgPerIndustryDegree, FitError>)
      requires Valid() && |y| == |X.rows|
      modifies this`fitted, this`levelAverages
      ensures Valid()
      ensures r.Ok? <==> FitTable(fittedColumns, X, y).Ok?
      ensures r.Ok? ==> r.value == this && fitted && levelAverages == FitTable(fittedColumns, X, y).value
      ensures r.Err? ==> && r.error == FitTable(fittedColumns, X, y).error
                         && fitted == old(fitted) && levelAverages == old(levelAverages)
    {
      var t := FitTable(fittedColumns, X, y);
      if t.Err? {
        return Err(t.error);
      }
      GroupMeansKeys(fittedColumns, X.rows, y);
      levelAverages := t.value;
      fitted := true;
      r := Ok(this);
    }

    function Predict(X: Frame): (r: Result<seq<Prediction>, PredictError>)
      reads this
      ensures !fitted ==> r == Err(NotFitted)
      ensures fitted ==> r == LeftJoin(fittedColumns, levelAverages, X)
    {
      if fitted then LeftJoin(fittedColumns, levelAverages, X) else Err(NotFitted)
    }

    function GetParams(): (r: Option<LevelTable>)
      reads this
      ensures r.Some? <==> fitted
      ensures r.Some? ==> r.value == levelAverages
    {
      if fitted then Some(levelAverages) else None
    }
  }
}
