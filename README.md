# Dynamic-schema table viewer

A Dafny model of the `GridTable` component of a small database table viewer.
The component fetches every row of a named table and derives the grid's column
definitions from the keys of the first row: one filterable and sortable column
per key, in key order. It keeps `rowData`, `columnDefs` and a `loading` flag,
and it stores the grid API handle when the grid reports ready. Through that
handle it exposes `exportToCsv` and `exportToExcel` to its host.

The model has two modules:

- `Columns` (`columns.dfy`) holds the pure column inference. A row is an
  ordered sequence of `(key, value)` pairs with distinct keys, in the order in
  which `Object.keys` enumerates the row object.
- `GridTable` (`grid_table.dfy`) holds the fetch cycle and the viewer state:
  - the query's result is an `Outcome` passed in by the caller. It is either a
    `Response` with optional data and an optional error (both may be present,
    and the code tests them independently) or a `Thrown` exception;
  - `Started`, `Settled` and `FetchCycle` are the specification functions for
    the fetch cycle;
  - the `Viewer` class has the component's fields. `BeginFetch` is the part of
    `fetchTableData` before the `await`, `SettleFetch` the part after it, and
    `Fetch` runs both;
  - `OnGridReady`, `ExportCsv` and `ExportExcel` model the export handle. Each
    forwarded export call is counted.

Four behaviours of the code that a reader of such a viewer might not expect:

- There is no stale-result guard. A query that settles late overwrites the
  rows of a newer one. The loading flag also drops as soon as any pending query
  settles. `OutOfOrderResults` shows both.
- There is no failed state. A query error or an exception is only logged, and
  the previous rows and columns stay on screen (`RefusedQueryKeepsRows`).
- An empty result is not a separate state. It is the grid with no rows and no
  columns (`LoadEmptyTable`).
- Export checks only that the grid handle is stored, not the loading flag. A
  call made during a fetch is still forwarded (`ExportAroundGridReady`), even
  though the grid is unmounted while loading, so the call goes to the stored
  handle of a destroyed grid.

## Model

| member | source | states |
|---|---|---|
| `Columns.Keys` | src/components/GridTable.tsx:45 | a row's keys, one per property, in the row's own order |
| `Columns.ColumnsFor` | src/components/GridTable.tsx:45-49 | one column definition per key, same length and order; each has `field` equal to its key, `filter = true` and `sortable = true` |
| `Columns.InferColumns` | src/components/GridTable.tsx:42-53 | an empty result set gives no columns; otherwise there is one column per key of the first row, in that row's order, and every column is filterable and sortable |
| `Columns.FieldsOfColumnsFor` | src/components/GridTable.tsx:45-49 | reading the field names back off the generated columns gives exactly the keys they were generated from |
| `Columns.InferredFieldsAreFirstRowKeys` | src/components/GridTable.tsx:42-50 | for non-empty data, the inferred columns' field names equal the first row's keys |
| `Columns.LaterRowsIgnored` | src/components/GridTable.tsx:42-50 | two result sets with the same first row get the same columns, so later rows are never consulted |
| `Columns.InferredFieldsDistinct` | src/components/GridTable.tsx:45-49 | no two inferred columns share a field name |
| `GridTable.Settled` | src/components/GridTable.tsx:36-59 | after a query settles, `loading` is false for every outcome; returned data replaces rows and columns together, with the columns inferred from it; an outcome without data keeps rows and columns as they were |
| `GridTable.FetchCycle` | src/components/GridTable.tsx:24-61 | an empty table name leaves the state unchanged; otherwise `loading` ends false whatever the outcome; returned data becomes the rows and the columns are inferred from it; an outcome without data keeps the rows and columns; consistency of columns with rows is preserved |
| `GridTable.CyclesEndIdleAndConsistent` | src/components/GridTable.tsx:30-60 | after any run of fetch cycles from an idle, consistent state, `loading` is false and the columns match the rows |
| `GridTable.LatestDataWins` | src/components/GridTable.tsx:40-53 | after any run of cycles, the rows are exactly the data of the latest cycle that returned data, or the starting rows when none did (state is replaced, never merged) |
| `GridTable.Viewer.constructor` | src/components/GridTable.tsx:18-22 | the component starts with no rows, no columns, not loading, no grid handle and no forwarded exports |
| `GridTable.Viewer.BeginFetch` | src/components/GridTable.tsx:25-30 | an empty table name starts nothing and changes nothing; any other name raises `loading` and leaves rows and columns as they were |
| `GridTable.Viewer.SettleFetch` | src/components/GridTable.tsx:31-60 | the new state is `Settled` of the old one: data replaces rows and columns together, an error or exception changes neither, and `loading` is cleared in every case; the grid handle and export counts are untouched |
| `GridTable.Viewer.Fetch` | src/components/GridTable.tsx:24-61 | the new state is `FetchCycle` of the old one, and columns stay consistent with rows |
| `GridTable.Viewer.OnGridReady` | src/components/GridTable.tsx:81-85 | the grid handle is stored; displayed state and export counts are unchanged |
| `GridTable.Viewer.ExportCsv` | src/components/GridTable.tsx:69-73 | forwards exactly when the handle is stored, adding exactly one to the CSV count; otherwise nothing changes |
| `GridTable.Viewer.ExportExcel` | src/components/GridTable.tsx:74-78 | forwards exactly when the handle is stored, adding exactly one to the Excel count; otherwise nothing changes |
| `GridTable.LoadWidgets` | src/components/GridTable.tsx:40-50 | two rows `{id, name}` are displayed under the columns `["id", "name"]` and loading is off |
| `GridTable.LoadEmptyTable` | src/components/GridTable.tsx:51-53 | an empty result set replaces a loaded table with no rows and no columns |
| `GridTable.RefusedQueryKeepsRows` | src/components/GridTable.tsx:36-39 | a query error with no data leaves the previously loaded rows on screen and clears loading |
| `GridTable.OutOfOrderResults` | src/components/GridTable.tsx:24-65 | with two overlapping fetches, loading drops when the first one settles, and the query that settles last decides the rows, even if it was issued first |
| `GridTable.ExportAroundGridReady` | src/components/GridTable.tsx:68-85 | an export before `onGridReady` is dropped; after it each call is forwarded once, also while a fetch is in flight |

## Left out

- The dataset client's construction and its query transport (GridTable.tsx lines 5-10 and 32-34). This is network I/O. Its result enters the model as the `Outcome` parameter.
- React scheduling: `useEffect`, `useCallback`, `useImperativeHandle` and the batching of state updates. Each half of a fetch is one atomic step; which fetch runs when is up to the caller of the model.
- Error values and console logging. An error's content is never inspected, only logged, so the model carries it as an uninspected string.
- The rendering (GridTable.tsx lines 87-105), including the loading text and the unmount and remount of the grid while loading. `OnGridReady` can be called any number of times; every call stores the handle again.
- The grid's own CSV and Excel serialisation. Export is modelled only as "forwarded or not", with a count per format.
- Cell values are abstract. Numbers are kept as `real`, without their JavaScript floating-point representation. Nested JSON values, which the client delivers as parsed objects and arrays, are abstracted to their text. The viewer never inspects cell values.
- Objects enumerate integer-like keys first, in ascending order. A `Row` is the key order `Object.keys` yields, not the order of the columns in the database.
- `src/components/ApiTest.tsx` (a connection-test widget) and `src/App.tsx` (the page shell) are not part of this model.
