/** Tables of observations, as the estimator and the feature transform see a
    pandas DataFrame: an ordered list of column names, the set of columns of
    object ("O") dtype, and the rows, each a map from column name to a cell. */
module DataFrame {

  datatype Option<+T> = None | Some(value: T)

  datatype Result<+T, +E> = Ok(value: T) | Err(error: E)

  /** A cell: a string (object dtype), an integer, or pandas' missing value (NaN/None). */
  datatype Value = Str(s: string) | Int(i: int) | Missing

  type Row = map<string, Value>

  datatype Frame = Frame(columns: seq<string>, categorical: set<string>, rows: seq<Row>)
  {
    function ColumnSet(): set<string>
    {
      set c | c in columns
    }

    /** Rectangular: every row has exactly the frame's columns, and only
        existing columns can have object dtype. */
    predicate Valid()
    {
      && categorical <= ColumnSet()
      && forall i :: 0 <= i < |rows| ==> rows[i].Keys == ColumnSet()
    }
  }

  /** The cell of `row` in column `c`; missing if the row has no such column. */
  function Cell(row: Row, c: string): Value
  {
    if c in row then row[c] else Missing
  }

  /** The first name of `names` that is not one of `cols`, if any (pandas' KeyError). */
  function FirstAbsent(names: seq<string>, cols: seq<string>): (r: Option<string>)
    ensures r.None? <==> forall c :: c in names ==> c in cols
    ensures r.Some? ==> r.value in names && r.value !in cols
  {
    if names == [] then None
    else if names[0] !in cols then Some(names[0])
    else FirstAbsent(names[1..], cols)
  }

  /** `cols` with every name of `names` filtered out, order kept. */
  function Without(cols: seq<string>, names: set<string>): (r: seq<string>)
    ensures forall c :: c in r <==> c in cols && c !in names
  {
    if cols == [] then []
    else (if cols[0] in names then [] else [cols[0]]) + Without(cols[1..], names)
  }

  /** `df[name] = vals`: overwrites the column in place if it exists, appends it otherwise. */
  function SetColumn(f: Frame, name: string, vals: seq<Value>, isObject: bool): (g: Frame)
    requires |vals| == |f.rows|
    ensures f.Valid() ==> g.Valid()
    ensures g.ColumnSet() == f.ColumnSet() + {name}
    ensures |g.rows| == |f.rows|
    ensures forall c :: c in g.categorical <==> (if c == name then isObject else c in f.categorical)
    ensures forall i, c :: 0 <= i < |g.rows| ==>
              Cell(g.rows[i], c) == if c == name then vals[i] else Cell(f.rows[i], c)
  {
    Frame(if name in f.columns then f.columns else f.columns + [name],
          if isObject then f.categorical + {name} else f.categorical - {name},
          seq(|f.rows|, i requires 0 <= i < |f.rows| => f.rows[i][name := vals[i]]))
  }

  /** `df.drop(names, axis = 1)` once every name is known to be a column. */
  function DropColumns(f: Frame, names: set<string>): (g: Frame)
    ensures f.Valid() ==> g.Valid()
    ensures g.ColumnSet() == f.ColumnSet() - names
    ensures |g.rows| == |f.rows|
    ensures forall c :: c in g.categorical <==> c in f.categorical && c !in names
    ensures forall i, c :: 0 <= i < |g.rows| ==>
              Cell(g.rows[i], c) == if c in names then Missing else Cell(f.rows[i], c)
  {
    Frame(Without(f.columns, names),
          f.categorical - names,
          seq(|f.rows|, i requires 0 <= i < |f.rows| => f.rows[i] - names))
  }

  predicate InRange(idx: seq<nat>, n: nat)
  {
    forall j :: 0 <= j < |idx| ==> idx[j] < n
  }

  /** Positional selection, `s.iloc[idx]`. */
  function Pick<T>(s: seq<T>, idx: seq<nat>): (r: seq<T>)
    requires InRange(idx, |s|)
  {
    seq(|idx|, j requires 0 <= j < |idx| => s[idx[j]])
  }

  /** `X.iloc[idx]`: the chosen rows, same columns and dtypes. */
  function SelectRows(f: Frame, idx: seq<nat>): (g: Frame)
    requires InRange(idx, |f.rows|)
    ensures f.Valid() ==> g.Valid()
  {
    f.(rows := Pick(f.rows, idx))
  }
}
