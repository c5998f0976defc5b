/** The configuration-only feature transform `change_variables` and the
    companion `to_dense_mat` stage of function_scripts/Preprocessing.py. */
module Preprocessing {
  import opened DataFrame

  /** A pandas error raised by `transform`: a KeyError for a missing column, or
      the TypeError of concatenating a non-string cell. */
  datatype TransformError = ColumnNotFound(name: string) | NotConcatenable

  /** `higher_ed` for one `degree` cell: 0 for "NONE" and "HIGH_SCHOOL",
      1 for anything else (a missing degree included, as np.where does). */
  function DegreeFlag(degree: Value): Value
  {
    if degree == Str("NONE") || degree == Str("HIGH_SCHOOL") then Int(0) else Int(1)
  }

  /** Object-dtype `a + b`: a missing operand gives a missing cell (pandas masks
      it), two strings concatenate, anything else is a TypeError. */
  function ConcatCells(a: Value, b: Value): Option<Value>
  {
    if a.Missing? || b.Missing? then Some(Missing)
    else if a.Str? && b.Str? then Some(Str(a.s + b.s))
    else None
  }

  /** `major + "_"` for one row: the left half, which pandas evaluates before
      it looks up `industry`. */
  function MajorPart(row: Row): Option<Value>
  {
    ConcatCells(Cell(row, "major"), Str("_"))
  }

  /** `major + "_" + industry` for one row, evaluated left to right. */
  function InteractionCell(row: Row): Option<Value>
  {
    match MajorPart(row)
    case None => None
    case Some(left) => ConcatCells(left, Cell(row, "industry"))
  }

  /** Step 1: add the integer column `higher_ed`, then drop `degree`. */
  function RecodeDegree(X: Frame): (r: Result<Frame, TransformError>)
    ensures r.Err? <==> "degree" !in X.columns
    ensures r.Err? ==> r.error == ColumnNotFound("degree")
    ensures r.Ok? ==> |r.value.rows| == |X.rows| && (X.Valid() ==> r.value.Valid())
    ensures r.Ok? ==> r.value.ColumnSet() == X.ColumnSet() + {"higher_ed"} - {"degree"}
  {
    if "degree" !in X.columns then Err(ColumnNotFound("degree"))
    else
      var flags := seq(|X.rows|, i requires 0 <= i < |X.rows| => DegreeFlag(Cell(X.rows[i], "degree")));
      Ok(DropColumns(SetColumn(X, "higher_ed", flags, false), {"degree"}))
  }

  /** Step 2: add the object column `major_industry`. The errors come in
      evaluation order: the `major` lookup, the TypeError of `major + "_"`
      (raised for any non-object `major` column, and cell by cell for an
      object one), the `industry` lookup, then the TypeError of adding
      `industry`. */
  function AddInteraction(X: Frame): (r: Result<Frame, TransformError>)
    ensures r.Ok? <==> && "major" in X.columns && "major" in X.categorical && "industry" in X.columns
                       && forall i :: 0 <= i < |X.rows| ==> InteractionCell(X.rows[i]).Some?
    ensures r == Err(ColumnNotFound("major")) <==> "major" !in X.columns
    ensures r == Err(ColumnNotFound("industry")) <==>
              && "major" in X.columns && "major" in X.categorical && "industry" !in X.columns
              && forall i :: 0 <= i < |X.rows| ==> MajorPart(X.rows[i]).Some?
    ensures "major" in X.columns && "major" !in X.categorical ==> r == Err(NotConcatenable)
    ensures "major" in X.columns && (exists i :: 0 <= i < |X.rows| && MajorPart(X.rows[i]).None?) ==>
              r == Err(NotConcatenable)
    ensures r.Err? ==> r.error in {ColumnNotFound("major"), ColumnNotFound("industry"), NotConcatenable}
    ensures r.Ok? ==> |r.value.rows| == |X.rows| && (X.Valid() ==> r.value.Valid())
    ensures r.Ok? ==> r.value.ColumnSet() == X.ColumnSet() + {"major_industry"}
  {
    if "major" !in X.columns then Err(ColumnNotFound("major"))
    else if "major" !in X.categorical then Err(NotConcatenable)
    else if exists i :: 0 <= i < |X.rows| && MajorPart(X.rows[i]).None? then Err(NotConcatenable)
    else if "industry" !in X.columns then Err(ColumnNotFound("industry"))
    else if exists i :: 0 <= i < |X.rows| && InteractionCell(X.rows[i]).None? then Err(NotConcatenable)
    else
      var joined := seq(|X.rows|, i requires 0 <= i < |X.rows| => InteractionCell(X.rows[i]).value);
      Ok(SetColumn(X, "major_industry", joined, true))
  }

  /** Step 3: `drop(cols_to_delete, axis = 1)`, a KeyError if one is not a column. */
  function DeleteColumns(X: Frame, names: seq<string>): (r: Result<Frame, TransformError>)
    ensures r.Ok? <==> forall c :: c in names ==> c in X.columns
    ensures r.Ok? ==> |r.value.rows| == |X.rows| && (X.Valid() ==> r.value.Valid())
    ensures r.Ok? ==> r.value.ColumnSet() == X.ColumnSet() - set c | c in names
  {
    match FirstAbsent(names, X.columns)
    case Some(c) => Err(ColumnNotFound(c))
    case None => Ok(DropColumns(X, set c | c in names))
  }

  /** The columns the enabled steps create or remove, besides the deleted ones. */
  function Touched(t: ChangeVariables): set<string>
  {
    (if t.changeDegree then {"degree", "higher_ed"} else {})
    + (if t.interactions then {"major_industry"} else {})
  }

  function Deleted(t: ChangeVariables): set<string>
  {
    match t.colsToDelete
    case None => {}
    case Some(cs) => set c | c in cs
  }

  /** `change_variables(cols_to_delete, change_degree, interactions)`: the
      configuration is fixed when the value is built. */
  datatype ChangeVariables = ChangeVariables(colsToDelete: Option<seq<string>> := None, changeDegree: bool := false, interactions: bool := false)
  {
    /** There is nothing to fit: the transform is returned as it was. */
    function Fit(X: Frame): (r: ChangeVariables)
      ensures r == this
    {
      this
    }

    /** The three optional steps, in this order, on a copy of X. */
    function Transform(X: Frame): (r: Result<Frame, TransformError>)
      ensures r.Ok? ==> |r.value.rows| == |X.rows|
      ensures r.Ok? && X.Valid() ==> r.value.Valid()
      ensures !changeDegree && !interactions && colsToDelete.None? ==> r == Ok(X)
      ensures changeDegree && "degree" !in X.columns ==> r == Err(ColumnNotFound("degree"))
    {
      match (if changeDegree then RecodeDegree(X) else Ok(X))
      case Err(e) => Err(e)
      case Ok(X1) =>
        match (if interactions then AddInteraction(X1) else Ok(X1))
        case Err(e) => Err(e)
        case Ok(X2) =>
          match colsToDelete
          case None => Ok(X2)
          case Some(cs) => DeleteColumns(X2, cs)
    }
  }

  /** A step that does not name column c keeps its presence, dtype and cells. */
  predicate Keeps(X: Frame, Y: Frame, c: string)
  {
    && |Y.rows| == |X.rows|
    && (c in Y.columns <==> c in X.columns)
    && (c in Y.categorical <==> c in X.categorical)
    && forall i :: 0 <= i < |X.rows| ==> Cell(Y.rows[i], c) == Cell(X.rows[i], c)
  }

  lemma RecodeDegreeKeeps(X: Frame, c: string)
    requires RecodeDegree(X).Ok? && c != "degree" && c != "higher_ed"
    ensures Keeps(X, RecodeDegree(X).value, c)
  {
    var Y := RecodeDegree(X).value;
    assert c in Y.columns <==> c in Y.ColumnSet();
    assert c in X.columns <==> c in X.ColumnSet();
  }

  lemma AddInteractionKeeps(X: Frame, c: string)
    requires AddInteraction(X).Ok? && c != "major_industry"
    ensures Keeps(X, AddInteraction(X).value, c)
  {
    var Y := AddInteraction(X).value;
    assert c in Y.columns <==> c in Y.ColumnSet();
    assert c in X.columns <==> c in X.ColumnSet();
  }

  lemma DeleteColumnsKeeps(X: Frame, names: seq<string>, c: string)
    requires DeleteColumns(X, names).Ok? && c !in names
    ensures Keeps(X, DeleteColumns(X, names).value, c)
  {
    var Y := DeleteColumns(X, names).value;
    assert c in Y.columns <==> c in Y.ColumnSet();
    assert c in X.columns <==> c in X.ColumnSet();
  }

  /** With `change_degree`: `degree` is gone and `higher_ed` (an integer
      column) is 0 exactly for "NONE" and "HIGH_SCHOOL", 1 otherwise. */
  lemma HigherEdRecodesDegree(t: ChangeVariables, X: Frame, i: nat)
    requires t.changeDegree && t.Transform(X).Ok?
    requires "higher_ed" !in Deleted(t) && i < |X.rows|
    ensures var out := t.Transform(X).value;
      && "degree" !in out.columns
      && "higher_ed" in out.columns && "higher_ed" !in out.categorical
      && (Cell(out.rows[i], "higher_ed") == Int(0) <==>
            Cell(X.rows[i], "degree") == Str("NONE") || Cell(X.rows[i], "degree") == Str("HIGH_SCHOOL"))
      && (Cell(out.rows[i], "higher_ed") == Int(0) || Cell(out.rows[i], "higher_ed") == Int(1))
  {
    var X1 := RecodeDegree(X).value;
    assert "higher_ed" in X1.ColumnSet() && "degree" !in X1.ColumnSet();
    var X2 := if t.interactions then AddInteraction(X1).value else X1;
    if t.interactions {
      AddInteractionKeeps(X1, "higher_ed");
      AddInteractionKeeps(X1, "degree");
    }
    assert Keeps(X1, X2, "higher_ed") && Keeps(X1, X2, "degree");
    var out := t.Transform(X).value;
    if t.colsToDelete.Some? {
      assert "higher_ed" !in t.colsToDelete.value;
      DeleteColumnsKeeps(X2, t.colsToDelete.value, "higher_ed");
      assert "degree" !in out.ColumnSet();
    }
    assert Keeps(X2, out, "higher_ed");
  }

  /** What `major + "_" + industry` gives for one row that does not raise. */
  lemma InteractionCellMeaning(row: Row)
    requires InteractionCell(row).Some?
    ensures var major, industry, v := Cell(row, "major"), Cell(row, "industry"), InteractionCell(row).value;
      && (v == Missing <==> major == Missing || industry == Missing)
      && (major.Str? && industry.Str? ==> v == Str(major.s + "_" + industry.s))
      && (v.Str? || v.Missing?)
  {
  }

  lemma AddInteractionCell(X1: Frame, i: nat)
    requires AddInteraction(X1).Ok? && i < |X1.rows|
    ensures var X2 := AddInteraction(X1).value;
      && "major_industry" in X2.columns && "major_industry" in X2.categorical
      && InteractionCell(X1.rows[i]).Some?
      && Cell(X2.rows[i], "major_industry") == InteractionCell(X1.rows[i]).value
  {
    var X2 := AddInteraction(X1).value;
    assert "major_industry" in X2.ColumnSet();
  }

  /** With `interactions`: `major_industry` is an object column holding
      major + "_" + industry, missing when either part is missing. */
  lemma InteractionJoinsMajorAndIndustry(t: ChangeVariables, X: Frame, i: nat)
    requires t.interactions && t.Transform(X).Ok?
    requires "major_industry" !in Deleted(t) && i < |X.rows|
    ensures var out := t.Transform(X).value;
      var major := Cell(X.rows[i], "major");
      var industry := Cell(X.rows[i], "industry");
      && "major_industry" in out.columns && "major_industry" in out.categorical
      && (Cell(out.rows[i], "major_industry") == Missing <==> major == Missing || industry == Missing)
      && (major.Str? && industry.Str? ==> Cell(out.rows[i], "major_industry") == Str(major.s + "_" + industry.s))
  {
    var X1 := if t.changeDegree then RecodeDegree(X).value else X;
    assert Cell(X1.rows[i], "major") == Cell(X.rows[i], "major");
    assert Cell(X1.rows[i], "industry") == Cell(X.rows[i], "industry");
    AddInteractionCell(X1, i);
    InteractionCellMeaning(X1.rows[i]);
    var X2 := AddInteraction(X1).value;
    var out := t.Transform(X).value;
    assert out == X2 || out == DeleteColumns(X2, t.colsToDelete.value).value;
    assert Cell(out.rows[i], "major_industry") == Cell(X2.rows[i], "major_industry");
    assert "major_industry" in out.ColumnSet();
  }

  /** Deletion comes last: every listed column is absent from the result. */
  lemma DeletedColumnsAbsent(t: ChangeVariables, X: Frame, c: string)
    requires t.Transform(X).Ok? && c in Deleted(t)
    ensures var out := t.Transform(X).value;
      && c !in out.columns && c !in out.categorical
      && forall i :: 0 <= i < |out.rows| ==> Cell(out.rows[i], c) == Missing
  {
    var out := t.Transform(X).value;
    assert c in out.ColumnSet() ==> c in out.columns;
  }

  /** A column that no enabled step creates, removes or deletes stays a
      column, with its dtype and every cell. */
  lemma UntouchedColumnKept(t: ChangeVariables, X: Frame, c: string)
    requires t.Transform(X).Ok?
    requires c in X.columns && c !in Touched(t) && c !in Deleted(t)
    ensures var out := t.Transform(X).value;
      && c in out.columns
      && (c in out.categorical <==> c in X.categorical)
      && forall i :: 0 <= i < |X.rows| ==> Cell(out.rows[i], c) == Cell(X.rows[i], c)
  {
    var X1 := if t.changeDegree then RecodeDegree(X).value else X;
    if t.changeDegree {
      RecodeDegreeKeeps(X, c);
    }
    assert Keeps(X, X1, c);
    var X2 := if t.interactions then AddInteraction(X1).value else X1;
    if t.interactions {
      AddInteractionKeeps(X1, c);
    }
    assert Keeps(X1, X2, c);
    var out := t.Transform(X).value;
    if t.colsToDelete.Some? {
      assert c !in t.colsToDelete.value;
      DeleteColumnsKeeps(X2, t.colsToDelete.value, c);
    }
    assert Keeps(X2, out, c);
  }

  /** `change_degree` together with deleting `degree` always fails: the column
      is already gone when the deletion runs. */
  lemma DeletingRecodedDegreeFails(t: ChangeVariables, X: Frame)
    requires t.changeDegree && "degree" in Deleted(t)
    ensures t.Transform(X).Err?
  {
  }

  /** The counterexample to the other order of checks: an object `major`
      holding an integer, and no `industry` column, raise the TypeError of
      `major + "_"`. */
  lemma MajorTypeErrorBeforeIndustryLookup()
    ensures AddInteraction(Frame(["major"], {"major"}, [map["major" := Int(5)]])) == Err(NotConcatenable)
  {
    var X := Frame(["major"], {"major"}, [map["major" := Int(5)]]);
    assert MajorPart(X.rows[0]).None?;
  }

  /** A non-object `major` raises the TypeError whatever its cells: with no
      rows, or with only missing cells (an all-NaN float column). */
  lemma NonObjectMajorFails(n: nat)
    ensures AddInteraction(Frame(["major", "industry"], {"industry"}, [])) == Err(NotConcatenable)
    ensures AddInteraction(Frame(["major", "industry"], {"industry"},
              seq(n, i => map["major" := Missing, "industry" := Str("OIL")]))) == Err(NotConcatenable)
  {
  }

  /** `to_dense_mat`: fitting is a no-op. */
  datatype ToDenseMat = ToDenseMat
  {
    function Fit(X: Frame): (r: ToDenseMat)
      ensures r == this
    {
      this
    }
  }
}
