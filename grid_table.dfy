/** The table viewer component: one fetch cycle per table name, its effect on
    the displayed rows, columns and loading flag, and the export handle that a
    host can call. */
module GridTable {
  import opened Columns

  datatype Option<T> = None | Some(value: T)

  /** What the dataset source query settles with: a response carrying data or
      null and an error or null (both may be present), or an exception. */
  datatype Outcome =
    | Response(data: Option<seq<Row>>, error: Option<string>)
    | Thrown(reason: string)

  /** The rows an outcome delivers, if any. An error is only logged and an
      exception is caught, so neither delivers anything. */
  function ReturnedRows(o: Outcome): Option<seq<Row>> {
    match o
    case Response(data, _) => data
    case Thrown(_) => None
  }

  /** The viewer's displayed state. */
  datatype Snapshot = Snapshot(rows: seq<Row>, cols: seq<ColumnDef>, loading: bool)

  /** The columns are those inferred from the rows. */
  predicate Consistent(s: Snapshot) {
    s.cols == InferColumns(s.rows)
  }

  /** The state the component mounts with. */
  const Initial := Snapshot([], [], false)

  /** The first half of a cycle: the loading flag is raised before the query. */
  function Started(s: Snapshot): Snapshot {
    s.(loading := true)
  }

  /** The second half of a cycle: returned data replaces rows and columns
      together; the loading flag is cleared whatever the outcome. */
  function Settled(s: Snapshot, o: Outcome): (r: Snapshot)
    ensures !r.loading
    ensures ReturnedRows(o).Some? ==> r.rows == ReturnedRows(o).value && Consistent(r)
    ensures ReturnedRows(o).None? ==> r.rows == s.rows && r.cols == s.cols
  {
    match ReturnedRows(o)
    case Some(data) => Snapshot(data, InferColumns(data), false)
    case None => s.(loading := false)
  }

  /** A whole fetch cycle for one table name, as one sequential step. */
  function FetchCycle(s: Snapshot, tableName: string, o: Outcome): (r: Snapshot)
    ensures tableName == "" ==> r == s
    ensures tableName != "" ==> !r.loading
    ensures tableName != "" && ReturnedRows(o).Some? ==>
              r.rows == ReturnedRows(o).value && Consistent(r)
    ensures ReturnedRows(o).None? ==> r.rows == s.rows && r.cols == s.cols
    ensures Consistent(s) ==> Consistent(r)
  {
    if tableName == "" then s else Settled(Started(s), o)
  }

  /** One table-name change together with what its query settles with. */
  datatype Request = Request(tableName: string, outcome: Outcome)

  /** The state after the given cycles, run one after the other. */
  function RunCycles(s: Snapshot, reqs: seq<Request>): Snapshot {
    if reqs == [] then s
    else
      var last := reqs[|reqs| - 1];
      FetchCycle(RunCycles(s, reqs[..|reqs| - 1]), last.tableName, last.outcome)
  }

  /** The data of the most recent cycle that ran and returned data. */
  function LatestData(reqs: seq<Request>): Option<seq<Row>> {
    if reqs == [] then None
    else
      var last := reqs[|reqs| - 1];
      if last.tableName != "" && ReturnedRows(last.outcome).Some? then ReturnedRows(last.outcome)
      else LatestData(reqs[..|reqs| - 1])
  }

  /** Starting from an idle, consistent state, every run of cycles ends idle
      (the loading flag is always reset) with the columns matching the rows. */
  lemma {:induction false} CyclesEndIdleAndConsistent(s: Snapshot, reqs: seq<Request>)
    requires Consistent(s) && !s.loading
    ensures Consistent(RunCycles(s, reqs)) && !RunCycles(s, reqs).loading
  {
    if reqs != [] {
      CyclesEndIdleAndConsistent(s, reqs[..|reqs| - 1]);
    }
  }

  /** State is replaced wholesale, never merged: after a run of cycles the rows
      are exactly those of the latest cycle that returned data, or the starting
      rows when none did. */
  lemma {:induction false} LatestDataWins(s: Snapshot, reqs: seq<Request>)
    ensures RunCycles(s, reqs).rows == (match LatestData(reqs)
                                        case Some(data) => data
                                        case None => s.rows)
  {
    if reqs != [] {
      LatestDataWins(s, reqs[..|reqs| - 1]);
    }
  }

  /** The viewer component: the displayed rows and columns, the loading flag,
      whether the grid API handle has been stored, and how many export calls
      were forwarded to it. */
  class Viewer {
    var rowData: seq<Row>
    var columnDefs: seq<ColumnDef>
    var loading: bool
    var gridApiSet: bool
    var csvExports: nat
    var excelExports: nat

    function State(): Snapshot
      reads this
    {
      Snapshot(rowData, columnDefs, loading)
    }

    ghost predicate Valid()
      reads this
    {
      Consistent(State())
    }

    constructor ()
      ensures Valid() && State() == Initial
      ensures !gridApiSet && csvExports == 0 && excelExports == 0
    {
      rowData, columnDefs, loading := [], [], false;
      gridApiSet := false;
      csvExports, excelExports := 0, 0;
    }

    /** The part of a fetch before the query is awaited: an empty table name
        skips the cycle, otherwise the loading flag is raised. */
    method BeginFetch(tableName: string) returns (started: bool)
      requires Valid()
      modifies this
      ensures Valid()
      ensures started <==> tableName != ""
      ensures State() == if started then Started(old(State())) else old(State())
      ensures gridApiSet == old(gridApiSet)
      ensures csvExports == old(csvExports) && excelExports == old(excelExports)
    {
      if tableName == "" {
        return false;
      }
      loading := true;
      started := true;
    }

    /** The part of a fetch after the query settles: data replaces rows and
        columns, an error or exception only gets logged, and the loading flag
        is cleared in every case. */
    method SettleFetch(outcome: Outcome)
      requires Valid()
      modifies this
      ensures Valid()
      ensures State() == Settled(old(State()), outcome)
      ensures gridApiSet == old(gridApiSet)
      ensures csvExports == old(csvExports) && excelExports == old(excelExports)
    {
      match outcome {
        case Response(data, error) =>
          if data.Some? {
            rowData := data.value;
            if |data.value| > 0 {
              columnDefs := ColumnsFor(Keys(data.value[0]));
            } else {
              columnDefs := [];
            }
          }
        case Thrown(_) =>
      }
      loading := false;
    }

    /** One whole fetch cycle for the given table name. */
    method Fetch(tableName: string, outcome: Outcome)
      requires Valid()
      modifies this
      ensures Valid()
      ensures State() == FetchCycle(old(State()), tableName, outcome)
      ensures gridApiSet == old(gridApiSet)
      ensures csvExports == old(csvExports) && excelExports == old(excelExports)
    {
      var started := BeginFetch(tableName);
      if started {
        SettleFetch(outcome);
      }
    }

    /** The grid reports that it is ready: its API handle is stored. */
    method OnGridReady()
      modifies this
      ensures gridApiSet
      ensures State() == old(State())
      ensures csvExports == old(csvExports) && excelExports == old(excelExports)
    {
      gridApiSet := true;
    }

    /** CSV export: forwarded to the grid exactly when the handle is stored,
        otherwise nothing happens. */
    method ExportCsv() returns (forwarded: bool)
      modifies this
      ensures forwarded <==> gridApiSet
      ensures csvExports == old(csvExports) + (if forwarded then 1 else 0)
      ensures excelExports == old(excelExports)
      ensures State() == old(State()) && gridApiSet == old(gridApiSet)
    {
      forwarded := gridApiSet;
      if forwarded {
        csvExports := csvExports + 1;
      }
    }

    /** Excel export: forwarded to the grid exactly when the handle is stored,
        otherwise nothing happens. */
    method ExportExcel() returns (forwarded: bool)
      modifies this
      ensures forwarded <==> gridApiSet
      ensures excelExports == old(excelExports) + (if forwarded then 1 else 0)
      ensures csvExports == old(csvExports)
      ensures State() == old(State()) && gridApiSet == old(gridApiSet)
    {
      forwarded := gridApiSet;
      if forwarded {
        excelExports := excelExports + 1;
      }
    }
  }

  /** Two rows `{id, name}` as the "widgets" table returns them. */
  function Widgets(): seq<Row> {
    [ [("id", Number(1.0)), ("name", Text("x"))],
      [("id", Number(2.0)), ("name", Text("y"))] ]
  }

  /** Loading "widgets" shows both rows under the columns "id" and "name". */
  method LoadWidgets() returns (fields: seq<string>, rowCount: nat, busy: bool)
    ensures fields == ["id", "name"] && rowCount == 2 && !busy
  {
    var v := new Viewer();
    v.Fetch("widgets", Response(Some(Widgets()), None));
    InferredFieldsAreFirstRowKeys(v.rowData);
    fields := Fields(v.columnDefs);
    rowCount := |v.rowData|;
    busy := v.loading;
  }

  /** An empty table shows no rows and no columns. */
  method LoadEmptyTable() returns (rowCount: nat, colCount: nat, busy: bool)
    ensures rowCount == 0 && colCount == 0 && !busy
  {
    var v := new Viewer();
    v.Fetch("widgets", Response(Some(Widgets()), None));
    v.Fetch("empty_table", Response(Some([]), None));
    rowCount, colCount, busy := |v.rowData|, |v.columnDefs|, v.loading;
  }

  /** A refused query leaves the previous table on screen: there is no failed
      state, the error is only logged. */
  method RefusedQueryKeepsRows() returns (shown: seq<Row>, busy: bool)
    ensures shown == Widgets() && !busy
  {
    var v := new Viewer();
    v.Fetch("widgets", Response(Some(Widgets()), None));
    v.Fetch("secrets", Response(None, Some("permission denied")));
    shown, busy := v.rowData, v.loading;
  }

  /** Without a stale-result guard, when the query for "a" settles after the
      one for "b" was issued and settled, the rows of "a" end up on screen; and
      the loading flag drops as soon as either query settles. */
  method OutOfOrderResults(aRows: seq<Row>, bRows: seq<Row>)
    returns (busyAfterB: bool, shown: seq<Row>)
    ensures !busyAfterB && shown == aRows
  {
    var v := new Viewer();
    var startedA := v.BeginFetch("a");
    var startedB := v.BeginFetch("b");
    v.SettleFetch(Response(Some(bRows), None));
    busyAfterB := v.loading;
    v.SettleFetch(Response(Some(aRows), None));
    shown := v.rowData;
  }

  /** Export calls made before the grid is ready are dropped; after it, each
      one is forwarded once, also while a fetch is in flight. */
  method ExportAroundGridReady() returns (early: bool, duringLoad: bool, csv: nat, excel: nat)
    ensures !early && duringLoad && csv == 1 && excel == 0
  {
    var v := new Viewer();
    early := v.ExportCsv();
    v.OnGridReady();
    var started := v.BeginFetch("widgets");
    duringLoad := v.ExportCsv();
    csv, excel := v.csvExports, v.excelExports;
  }
}
