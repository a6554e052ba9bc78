/**
 * The part of pandas' DataFrame behaviour that the two scripts use: a frame is an
 * ordered list of column names and a list of rows, each row one cell per column.
 */
module Frames {
  import opened Outcomes
  import opened Seqs

  /** One floating-point sensor reading; its value plays no part in the model. */
  type Sample(==, !new)

  /** A cell: a sensor reading, a text tag, or pandas' missing value. */
  datatype Cell = Num(sample: Sample) | Text(text: string) | NaN

  type Row = seq<Cell>

  datatype Frame = Frame(columns: seq<string>, rows: seq<Row>)

  /** The exceptions pandas raises on the paths modelled here. */
  datatype Error =
    | NoObjectsToConcatenate  // `pd.concat` of an empty collection
    | ColumnsDiffer           // frames whose columns differ (column union is not modelled)
    | KeyError(name: string)  // a column label that is not in the frame

  /** Every row has one cell per column. */
  predicate Valid(f: Frame)
  {
    forall k :: 0 <= k < |f.rows| ==> |f.rows[k]| == |f.columns|
  }

  /** The position of the first column called `name`, which is where pandas finds `df[name]`. */
  function IndexOf(names: seq<string>, name: string): (r: Option<nat>)
    ensures r.None? <==> name !in names
    ensures r.Some? ==> r.value < |names| && names[r.value] == name
    ensures r.Some? ==> forall j :: 0 <= j < r.value ==> names[j] != name
  {
    if |names| == 0 then None
    else if names[0] == name then Some(0)
    else match IndexOf(names[1..], name)
      case None => None
      case Some(k) => Some(k + 1)
  }

  /** The column list after `df[name] = ...`: unchanged if `name` is already a column, else extended by it. */
  function WithColumn(columns: seq<string>, name: string): seq<string>
  {
    if name in columns then columns else columns + [name]
  }

  /** `df[name] = cells`: overwrite the column if it exists, else append it as the last column. */
  function Assign(f: Frame, name: string, cells: seq<Cell>): (r: Frame)
    requires Valid(f) && |cells| == |f.rows|
    ensures Valid(r) && |r.rows| == |f.rows| && r.columns == WithColumn(f.columns, name)
    ensures name !in f.columns ==>
      r.columns == f.columns + [name] &&
      forall k :: 0 <= k < |f.rows| ==> r.rows[k] == f.rows[k] + [cells[k]]
    ensures name in f.columns ==>
      r.columns == f.columns &&
      forall k, j :: 0 <= k < |f.rows| && 0 <= j < |f.columns| ==>
        r.rows[k][j] == if j == IndexOf(f.columns, name).value then cells[k] else f.rows[k][j]
  {
    match IndexOf(f.columns, name)
    case None =>
      Frame(f.columns + [name], seq(|f.rows|, k requires 0 <= k < |f.rows| => f.rows[k] + [cells[k]]))
    case Some(i) =>
      Frame(f.columns, seq(|f.rows|, k requires 0 <= k < |f.rows| => f.rows[k][i := cells[k]]))
  }

  /** `df[name] = value` for a scalar: every row gets the same cell. */
  function AssignConst(f: Frame, name: string, c: Cell): (r: Frame)
    requires Valid(f)
    ensures Valid(r) && |r.rows| == |f.rows| && r.columns == WithColumn(f.columns, name)
    ensures name !in f.columns ==>
      r.columns == f.columns + [name] &&
      forall k :: 0 <= k < |f.rows| ==> r.rows[k] == f.rows[k] + [c]
  {
    Assign(f, name, seq(|f.rows|, _ => c))
  }

  predicate SameColumns(fs: seq<Frame>)
  {
    forall i :: 0 <= i < |fs| ==> fs[i].columns == fs[0].columns
  }

  function RowsOf(fs: seq<Frame>): seq<seq<Row>>
  {
    seq(|fs|, i requires 0 <= i < |fs| => fs[i].rows)
  }

  /**
   * `pd.concat(fs, ignore_index=True)` of frames with the same columns: the rows of the
   * frames one after another, in order. An empty collection raises.
   */
  function Concat(fs: seq<Frame>): (r: Result<Frame, Error>)
    ensures |fs| == 0 <==> r == Err(NoObjectsToConcatenate)
    ensures r.Ok? <==> |fs| > 0 && SameColumns(fs)
    ensures r.Ok? ==> r.value.columns == fs[0].columns && r.value.rows == Flatten(RowsOf(fs))
  {
    if |fs| == 0 then Err(NoObjectsToConcatenate)
    else if !SameColumns(fs) then Err(ColumnsDiffer)
    else Ok(Frame(fs[0].columns, Flatten(RowsOf(fs))))
  }

  /** Concatenating rectangular frames with the same columns gives a rectangular frame. */
  lemma ConcatValid(fs: seq<Frame>)
    requires forall i :: 0 <= i < |fs| ==> Valid(fs[i])
    requires Concat(fs).Ok?
    ensures Valid(Concat(fs).value)
  {
    var r := Concat(fs).value;
    forall k | 0 <= k < |r.rows| ensures |r.rows[k]| == |r.columns| {
      FlattenMember(RowsOf(fs), k);
    }
  }

  /** `Series.map(m)` on one cell: a text key found in `m` maps to its value, anything else to NaN. */
  function Lookup(m: map<string, string>, c: Cell): Cell
  {
    if c.Text? && c.text in m then Text(m[c.text]) else NaN
  }

  /** `df[src].map(m)`: the column `src` looked up cell by cell in `m`. */
  function MapColumn(f: Frame, src: string, m: map<string, string>): (r: Result<seq<Cell>, Error>)
    requires Valid(f)
    ensures src !in f.columns <==> r == Err(KeyError(src))
    ensures r.Ok? ==> |r.value| == |f.rows|
    ensures r.Ok? ==> forall k :: 0 <= k < |f.rows| ==>
      r.value[k] == Lookup(m, f.rows[k][IndexOf(f.columns, src).value])
  {
    match IndexOf(f.columns, src)
    case None => Err(KeyError(src))
    case Some(i) => Ok(seq(|f.rows|, k requires 0 <= k < |f.rows| => Lookup(m, f.rows[k][i])))
  }

  /** The rows for which `keep` holds, in their original order. */
  function Filter(rows: seq<Row>, keep: Row -> bool): (r: seq<Row>)
  {
    if |rows| == 0 then []
    else Filter(rows[..|rows| - 1], keep) + (if keep(rows[|rows| - 1]) then [rows[|rows| - 1]] else [])
  }

  /** A row survives the filter exactly when it was there and `keep` holds of it. */
  lemma {:induction false} FilterMember(rows: seq<Row>, keep: Row -> bool, x: Row)
    ensures x in Filter(rows, keep) <==> x in rows && keep(x)
  {
    if |rows| > 0 {
      var init := rows[..|rows| - 1];
      FilterMember(init, keep, x);
      assert rows == init + [rows[|rows| - 1]];
    }
  }

  /** The positions of the rows for which `keep` holds, in ascending order. */
  function KeptPositions(rows: seq<Row>, keep: Row -> bool): seq<nat>
  {
    if |rows| == 0 then []
    else KeptPositions(rows[..|rows| - 1], keep) + (if keep(rows[|rows| - 1]) then [|rows| - 1] else [])
  }

  /** The kept positions are strictly increasing and are exactly the positions of rows `keep` accepts. */
  lemma {:induction false} KeptPositionsSpec(rows: seq<Row>, keep: Row -> bool)
    ensures forall k1, k2 :: 0 <= k1 < k2 < |KeptPositions(rows, keep)| ==>
      KeptPositions(rows, keep)[k1] < KeptPositions(rows, keep)[k2]
    ensures forall k :: 0 <= k < |KeptPositions(rows, keep)| ==> KeptPositions(rows, keep)[k] < |rows|
    ensures forall j :: 0 <= j < |rows| ==> (j in KeptPositions(rows, keep) <==> keep(rows[j]))
    decreases |rows|
  {
    if |rows| > 0 {
      var n := |rows|;
      var init := rows[..n - 1];
      KeptPositionsSpec(init, keep);
      assert forall j :: 0 <= j < n - 1 ==> rows[j] == init[j];
    }
  }

  /** Two masks that agree on every row keep the same positions. */
  lemma {:induction false} KeptPositionsSame(rows: seq<Row>, keep: Row -> bool, keep': Row -> bool)
    requires forall j :: 0 <= j < |rows| ==> keep(rows[j]) == keep'(rows[j])
    ensures KeptPositions(rows, keep) == KeptPositions(rows, keep')
    decreases |rows|
  {
    if |rows| > 0 {
      var n := |rows|;
      var init := rows[..n - 1];
      assert forall j :: 0 <= j < n - 1 ==> rows[j] == init[j];
      KeptPositionsSame(init, keep, keep');
    }
  }

  /**
   * The filter keeps the rows at the kept positions, one for one and in that order: the rows
   * `keep` accepts, each once, in their original order.
   */
  lemma {:induction false} FilterAt(rows: seq<Row>, keep: Row -> bool)
    ensures |Filter(rows, keep)| == |KeptPositions(rows, keep)|
    ensures forall k :: 0 <= k < |Filter(rows, keep)| ==>
      KeptPositions(rows, keep)[k] < |rows| && Filter(rows, keep)[k] == rows[KeptPositions(rows, keep)[k]]
    decreases |rows|
  {
    if |rows| > 0 {
      var n := |rows|;
      var init := rows[..n - 1];
      FilterAt(init, keep);
      assert forall j :: 0 <= j < n - 1 ==> rows[j] == init[j];
    }
  }

  /** `df[mask]`: the rows of `f` for which `keep` holds, under the same columns. */
  function Where(f: Frame, keep: Row -> bool): (r: Frame)
    requires Valid(f)
    ensures Valid(r) && r.columns == f.columns
    ensures forall x :: x in r.rows <==> x in f.rows && keep(x)
  {
    var rows := Filter(f.rows, keep);
    assert forall x :: x in rows <==> x in f.rows && keep(x) by {
      forall x ensures x in rows <==> x in f.rows && keep(x) {
        FilterMember(f.rows, keep, x);
      }
    }
    assert forall k :: 0 <= k < |rows| ==> rows[k] in f.rows;
    Frame(f.columns, rows)
  }

  /** The cell of `row` under the first column called `name`; NaN when there is none. */
  function CellAt(columns: seq<string>, row: Row, name: string): Cell
  {
    match IndexOf(columns, name)
    case None => NaN
    case Some(i) => if i < |row| then row[i] else NaN
  }

  /** A text cell equal to `s`: the comparison `df[col] == s`. */
  predicate IsText(c: Cell, s: string)
  {
    c.Text? && c.text == s
  }

  /** The positions of `names` among `columns`, or a KeyError for the first name that is missing. */
  function Positions(columns: seq<string>, names: seq<string>): (r: Result<seq<nat>, Error>)
    ensures r.Ok? <==> forall j :: 0 <= j < |names| ==> names[j] in columns
    ensures r.Ok? ==> |r.value| == |names|
    ensures r.Ok? ==> forall j :: 0 <= j < |names| ==> r.value[j] < |columns| && columns[r.value[j]] == names[j]
    ensures r.Ok? ==> forall j :: 0 <= j < |names| ==> IndexOf(columns, names[j]) == Some(r.value[j])
    ensures r.Err? ==> exists j :: 0 <= j < |names| && names[j] !in columns && r.error == KeyError(names[j])
  {
    if |names| == 0 then Ok([])
    else match IndexOf(columns, names[0])
      case None => Err(KeyError(names[0]))
      case Some(i) =>
        match Positions(columns, names[1..])
        case Err(e) => Err(e)
        case Ok(rest) => Ok([i] + rest)
  }

  /**
   * `df[names]`: the listed columns, in the listed order. A missing name raises KeyError; pandas'
   * message lists every missing name, the error here carries one of them.
   */
  function Project(f: Frame, names: seq<string>): (r: Result<Frame, Error>)
    requires Valid(f)
    ensures r.Ok? <==> forall j :: 0 <= j < |names| ==> names[j] in f.columns
    ensures r.Err? ==> exists j :: 0 <= j < |names| && names[j] !in f.columns && r.error == KeyError(names[j])
    ensures r.Ok? ==> Valid(r.value) && r.value.columns == names && |r.value.rows| == |f.rows|
    ensures r.Ok? ==> forall k, j :: 0 <= k < |f.rows| && 0 <= j < |names| ==>
      r.value.rows[k][j] == CellAt(f.columns, f.rows[k], names[j])
  {
    match Positions(f.columns, names)
    case Err(e) => Err(e)
    case Ok(ps) =>
      Ok(Frame(names, seq(|f.rows|, k requires 0 <= k < |f.rows| =>
        seq(|names|, j requires 0 <= j < |names| => f.rows[k][ps[j]]))))
  }
}
