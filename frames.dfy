/** The time-series snapshot a cycle keeps beside its variables (a pandas DataFrame with one row
  * per input record and one column per key seen in any record). */
module Frames {
  import opened Wrappers
  import opened Dicts
  import opened Json

  /** One cell: a missing value (pandas NaN, also what a JSON null becomes), a number (a boolean
    * counts as 0 or 1), a text, or a nested list or dict, by its Python type name. */
  datatype Cell = Missing | Num(r: real) | Text(s: string) | Nested(kind: string)

  /** One input record: `{"timestamp": ..., "data": {...}}`, its values as decoded from JSON. */
  datatype RecordRow = RecordRow(timestamp: Option<string>, data: Dict<Json>)

  datatype Frame = Frame(rows: nat, columns: map<string, seq<Cell>>)

  /** The cell pandas stores for one decoded value. */
  function CellValue(v: Json): (c: Cell)
    ensures c.Missing? <==> v.JNull?
    ensures v.JNum? ==> c == Num(v.r)
  {
    match v
    case JNull => Missing
    case JNum(x) => Num(x)
    case JBool(b) => Num(if b then 1.0 else 0.0)
    case JStr(s) => Text(s)
    case _ => Nested(TypeName(v))
  }

  /** The cell of column `c` in the row built from `row`: `{"timestamp": ts, **data}`, so a data
    * key named `timestamp` wins over the record's own timestamp. */
  function CellOf(row: RecordRow, c: string): Cell {
    if c in row.data.m then CellValue(row.data.m[c])
    else if c == "timestamp" then (if row.timestamp.Some? then Text(row.timestamp.value) else Missing)
    else Missing
  }

  /** Every key that appears in some record, plus `timestamp`. */
  function ColumnNames(rows: seq<RecordRow>): set<string> {
    {"timestamp"} + (set i, k | 0 <= i < |rows| && k in rows[i].data.m :: k)
  }

  /** `pd.DataFrame([{"timestamp": ..., **data} for row in records])`. */
  function BuildFrame(rows: seq<RecordRow>): (f: Frame)
    ensures f.rows == |rows| && f.columns.Keys == ColumnNames(rows)
    ensures forall c :: c in f.columns ==> |f.columns[c]| == |rows|
    ensures forall c, i :: c in f.columns && 0 <= i < |rows| ==> f.columns[c][i] == CellOf(rows[i], c)
  {
    Frame(|rows|, map c | c in ColumnNames(rows) :: seq(|rows|, i requires 0 <= i < |rows| => CellOf(rows[i], c)))
  }
}
