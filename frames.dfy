/**
 * A pandas DataFrame as a value: an ordered list of column names and one
 * row per record, each row a map from column name to cell.
 */
module Frames {
  /** A cell holds a number or a string, as the CSV columns of the pipeline do. */
  datatype Cell = Num(value: real) | Str(text: string)

  type Row = map<string, Cell>

  datatype Frame = Frame(columns: seq<string>, rows: seq<Row>)

  predicate Distinct(s: seq<string>)
  {
    forall i, j :: 0 <= i < j < |s| ==> s[i] != s[j]
  }

  /** Column names are distinct and every row has exactly the frame's columns. */
  ghost predicate WellFormed(f: Frame)
  {
    && Distinct(f.columns)
    && forall i :: 0 <= i < |f.rows| ==> f.rows[i].Keys == (set c | c in f.columns)
  }

  /** Cell `c` of `row` exists and is a number. */
  predicate NumAt(row: Row, c: string)
  {
    c in row && row[c].Num?
  }

  /** Wherever a row has a cell in one of the columns `cols`, that cell is a number. */
  predicate NumericIn(f: Frame, cols: seq<string>)
  {
    forall i, j :: 0 <= i < |f.rows| && 0 <= j < |cols| && cols[j] in f.rows[i] ==>
      f.rows[i][cols[j]].Num?
  }

  /** `df[name] = values` for a column not yet present: appended as the last column. */
  function WithColumn(f: Frame, name: string, values: seq<Cell>): (g: Frame)
    requires name !in f.columns && |values| == |f.rows|
    ensures g.columns == f.columns + [name]
    ensures |g.rows| == |f.rows|
    ensures forall i :: 0 <= i < |f.rows| ==>
              g.rows[i] == f.rows[i][name := values[i]]
    ensures WellFormed(f) ==> WellFormed(g)
  {
    var rows := seq(|f.rows|, i requires 0 <= i < |f.rows| => f.rows[i][name := values[i]]);
    var g := Frame(f.columns + [name], rows);
    assert WellFormed(f) ==> WellFormed(g) by {
      if WellFormed(f) {
        assert (set c | c in g.columns) == (set c | c in f.columns) + {name};
      }
    }
    g
  }

  /** The row cut down to the columns in `cols`. */
  function Restrict(row: Row, cols: seq<string>): Row
  {
    map c | c in row && c in cols :: row[c]
  }
}
