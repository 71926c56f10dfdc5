/** Column inference of the table viewer: the column definitions are read off
    the keys of the first fetched row, one sortable and filterable column per key,
    in that row's key order. */
module Columns {

  /** A cell value. Nested values (objects, arrays) are abstracted to their
      text; the viewer never inspects cell values. */
  datatype Value =
    | Null
    | Boolean(b: bool)
    | Number(n: real)
    | Text(s: string)
    | Json(text: string)

  /** One property of a row: its key and its value. */
  type Field = (string, Value)

  /** No key occurs twice in a row. */
  predicate DistinctKeys(fields: seq<Field>) {
    forall i, j :: 0 <= i < j < |fields| ==> fields[i].0 != fields[j].0
  }

  /** A row record: its properties in the order in which the object's keys are
      enumerated. */
  type Row = fields: seq<Field> | DistinctKeys(fields) witness []

  /** The column definition the viewer hands to the grid. */
  datatype ColumnDef = ColumnDef(field: string, filter: bool, sortable: bool)

  /** The keys of a row, in enumeration order. */
  function Keys(row: seq<Field>): (keys: seq<string>)
    ensures |keys| == |row|
    ensures forall i :: 0 <= i < |row| ==> keys[i] == row[i].0
  {
    if row == [] then [] else [row[0].0] + Keys(row[1..])
  }

  /** One column definition per key, each with filtering and sorting enabled. */
  function ColumnsFor(keys: seq<string>): (cols: seq<ColumnDef>)
    ensures |cols| == |keys|
    ensures forall i :: 0 <= i < |keys| ==> cols[i] == ColumnDef(keys[i], true, true)
  {
    if keys == [] then [] else [ColumnDef(keys[0], true, true)] + ColumnsFor(keys[1..])
  }

  /** The field names of a list of column definitions. */
  function Fields(cols: seq<ColumnDef>): seq<string> {
    if cols == [] then [] else [cols[0].field] + Fields(cols[1..])
  }

  /** The columns inferred from a result set: none for an empty result set,
      otherwise those of the first row's keys. */
  function InferColumns(data: seq<Row>): (cols: seq<ColumnDef>)
    ensures data == [] ==> cols == []
    ensures data != [] ==> |cols| == |data[0]|
    ensures data != [] ==> forall i :: 0 <= i < |cols| ==> cols[i].field == data[0][i].0
    ensures forall c :: c in cols ==> c.filter && c.sortable
  {
    if |data| == 0 then [] else ColumnsFor(Keys(data[0]))
  }

  /** Reading the field names back off generated columns gives the keys they
      were generated from. */
  lemma {:induction false} FieldsOfColumnsFor(keys: seq<string>)
    ensures Fields(ColumnsFor(keys)) == keys
  {
    if keys != [] {
      FieldsOfColumnsFor(keys[1..]);
      assert ColumnsFor(keys)[1..] == ColumnsFor(keys[1..]);
    }
  }

  /** The pointwise contract of `InferColumns`, restated as one sequence
      equality through `Fields`: for a non-empty result set, the field names of
      the inferred columns are exactly the first row's keys, in the same order. */
  lemma InferredFieldsAreFirstRowKeys(data: seq<Row>)
    requires data != []
    ensures Fields(InferColumns(data)) == Keys(data[0])
  {
    FieldsOfColumnsFor(Keys(data[0]));
  }

  /** Only the first row is consulted: two result sets that agree on their
      first row get the same columns, whatever their later rows. */
  lemma LaterRowsIgnored(data: seq<Row>, other: seq<Row>)
    requires data != [] && other != [] && data[0] == other[0]
    ensures InferColumns(data) == InferColumns(other)
  {
  }

  /** No two inferred columns share a field name. */
  lemma InferredFieldsDistinct(data: seq<Row>)
    ensures forall i, j :: 0 <= i < j < |InferColumns(data)| ==>
              InferColumns(data)[i].field != InferColumns(data)[j].field
  {
  }
}
