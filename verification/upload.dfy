/** Reading the query list from an uploaded workbook: `readExcelFile` of the
    command line (`src/excel-reader.ts`) and `parseUploadedFile` of the
    Workers (`workers/core/parser.ts`). The workbook is its sheets, already
    converted to records; sheet names are assumed distinct, as in a real
    workbook, so a name lookup is an index. */
module Upload {
  import opened Wrappers
  import opened Text
  import opened Types
  import opened Sheet
  import Json

  const FailurePrefix: string := "Failed to read Excel file: "
  const NoColumnFound: string := "No query column found"

  function EmptySheetMessage(name: string): string {
    "Sheet \"" + name + "\" is empty"
  }

  function NoColumnMessage(headers: seq<string>): string {
    "Could not detect query column. Available columns: " + Join(headers, ", ")
    + "\nExpected patterns: " + Join(GscHeaders, ", ")
  }

  function NoQueriesMessage(col: string): string {
    "No valid queries found in column \"" + col + "\""
  }

  /** `findGSCSheet(wb) || wb.SheetNames[0]`: the detected sheet, or the
      first one when none is detected (or the detected name is empty). */
  function SelectSheet(d: Detector, sheets: seq<Sheet>): (r: nat)
    requires |sheets| > 0
    ensures r < |sheets|
    ensures r != 0 ==> GscSheet(d, sheets[r]) && forall j :: 0 <= j < r ==> !GscSheet(d, sheets[j])
    ensures (forall j :: 0 <= j < |sheets| ==> !GscSheet(d, sheets[j])) ==> r == 0
    ensures FindGscSheet(d, sheets).Some? ==>
              r == (if sheets[FindGscSheet(d, sheets).value].name != "" then FindGscSheet(d, sheets).value else 0)
  {
    match FindGscSheet(d, sheets)
    case Some(i) => if sheets[i].name != "" then i else 0
    case None => 0
  }

  // ---- row extraction ----

  /** Indices below `n` whose query is non-empty, each paired with its
      1-based spreadsheet row (`index + 2`, after the header row). */
  function KeepNonEmpty(qs: seq<string>, n: nat): (r: seq<QueryRow>)
    requires n <= |qs|
    ensures forall k :: 0 <= k < |r| ==> 2 <= r[k].rowIndex <= n + 1
    ensures forall k :: 0 <= k < |r| ==> r[k].query == qs[r[k].rowIndex - 2] && r[k].query != ""
    ensures forall k :: 0 < k < |r| ==> r[k - 1].rowIndex < r[k].rowIndex
  {
    if n == 0 then []
    else
      var prev := KeepNonEmpty(qs, n - 1);
      if qs[n - 1] != "" then prev + [QueryRow(qs[n - 1], n + 1)] else prev
  }

  /** No non-empty query is dropped. */
  lemma {:induction false} KeepNonEmptyComplete(qs: seq<string>, n: nat, i: nat)
    requires i < n <= |qs| && qs[i] != ""
    ensures exists k :: 0 <= k < |KeepNonEmpty(qs, n)| && KeepNonEmpty(qs, n)[k].rowIndex == i + 2
  {
    var prev := KeepNonEmpty(qs, n - 1);
    var r := KeepNonEmpty(qs, n);
    if i == n - 1 {
      assert r == prev + [QueryRow(qs[n - 1], n + 1)];
      assert r[|prev|].rowIndex == i + 2;
    } else {
      KeepNonEmptyComplete(qs, n - 1, i);
      var k :| 0 <= k < |prev| && prev[k].rowIndex == i + 2;
      assert r == prev + [QueryRow(qs[n - 1], n + 1)] || r == prev;
      assert r[k] == prev[k];
    }
  }

  /** Adjacent order gives order between any two rows. */
  lemma {:induction false} SortedRows(r: seq<QueryRow>, k: nat, l: nat)
    requires forall m :: 0 < m < |r| ==> r[m - 1].rowIndex < r[m].rowIndex
    requires k < l < |r|
    ensures r[k].rowIndex < r[l].rowIndex
    decreases l - k
  {
    if k + 1 < l {
      SortedRows(r, k + 1, l);
    }
  }

  /** `f` applied to every row. */
  function MapRows(f: Record -> string, data: seq<Record>): (r: seq<string>)
    ensures |r| == |data|
  {
    if |data| == 0 then [] else [f(data[0])] + MapRows(f, data[1..])
  }

  lemma {:induction false} MapRowsAt(f: Record -> string, data: seq<Record>, i: nat)
    requires i < |data|
    ensures MapRows(f, data)[i] == f(data[i])
  {
    if i > 0 {
      MapRowsAt(f, data[1..], i - 1);
    }
  }

  /** The trimmed text of column `col` in every row. */
  function ColumnQueries(data: seq<Record>, col: string): (qs: seq<string>)
    ensures |qs| == |data|
  {
    MapRows(r => CellQuery(r, col), data)
  }

  /** Entry `i` is `String(data[i][col] || '').trim()`. */
  lemma ColumnQueriesAt(data: seq<Record>, col: string, i: nat)
    requires i < |data|
    ensures ColumnQueries(data, col)[i] == CellQuery(data[i], col)
  {
    MapRowsAt(r => CellQuery(r, col), data, i);
  }

  /** The query rows of column `col`: rows with a non-empty trimmed cell,
      keeping their spreadsheet row numbers, so skipped rows leave gaps. */
  function ExtractQueries(data: seq<Record>, col: string): (r: seq<QueryRow>)
    ensures forall k :: 0 <= k < |r| ==> 2 <= r[k].rowIndex <= |data| + 1
    ensures forall k :: 0 <= k < |r| ==>
              r[k].query == ColumnQueries(data, col)[r[k].rowIndex - 2] && r[k].query != ""
    ensures forall k :: 0 < k < |r| ==> r[k - 1].rowIndex < r[k].rowIndex
  {
    var qs := ColumnQueries(data, col);
    KeepNonEmpty(qs, |qs|)
  }

  /** Every row with a non-empty query is extracted. */
  lemma ExtractComplete(data: seq<Record>, col: string, i: nat)
    requires i < |data| && ColumnQueries(data, col)[i] != ""
    ensures exists k :: 0 <= k < |ExtractQueries(data, col)| && ExtractQueries(data, col)[k].rowIndex == i + 2
  {
    var qs := ColumnQueries(data, col);
    KeepNonEmptyComplete(qs, |qs|, i);
    var r := KeepNonEmpty(qs, |qs|);
    var k :| 0 <= k < |r| && r[k].rowIndex == i + 2;
    assert ExtractQueries(data, col)[k].rowIndex == i + 2;
  }

  /** A column of blanks yields no rows. */
  lemma BlankColumnIsEmpty(data: seq<Record>, col: string)
    requires forall i :: 0 <= i < |data| ==> ColumnQueries(data, col)[i] == ""
    ensures ExtractQueries(data, col) == []
  {
    KeepNonEmptyBlank(ColumnQueries(data, col), |data|);
  }

  lemma {:induction false} KeepNonEmptyBlank(qs: seq<string>, n: nat)
    requires n <= |qs|
    requires forall i :: 0 <= i < |qs| ==> qs[i] == ""
    ensures KeepNonEmpty(qs, n) == []
  {
    if n > 0 {
      KeepNonEmptyBlank(qs, n - 1);
    }
  }

  /** Every extracted query is already trimmed. */
  lemma ExtractedAreTrimmed(data: seq<Record>, col: string)
    ensures forall k :: 0 <= k < |ExtractQueries(data, col)| ==>
              Trim(ExtractQueries(data, col)[k].query) == ExtractQueries(data, col)[k].query
  {
    var r := ExtractQueries(data, col);
    forall k | 0 <= k < |r| ensures Trim(r[k].query) == r[k].query {
      ColumnQueriesAt(data, col, r[k].rowIndex - 2);
      TrimIdempotent(OrText(At(data[r[k].rowIndex - 2], col)));
    }
  }

  // ---- the two readers ----

  /** `readExcelFile`: the rows of the detected query column, or an error
      whose message is prefixed with "Failed to read Excel file: ". A
      workbook without sheets fails inside the spreadsheet library. */
  function ReadExcelFile(sheets: seq<Sheet>): (r: Result<seq<QueryRow>>)
    ensures r.Throw? ==> StartsWith(r.message, FailurePrefix)
    ensures |sheets| == 0 ==> r.Throw?
    ensures |sheets| > 0 && |sheets[SelectSheet(ExcelReader, sheets)].data| == 0
            ==> r == Throw(FailurePrefix + EmptySheetMessage(sheets[SelectSheet(ExcelReader, sheets)].name))
    ensures r.Ok? ==> |sheets| > 0 && |r.value| > 0
    ensures r.Ok? ==> var data := sheets[SelectSheet(ExcelReader, sheets)].data;
                      exists col :: col != "" && FindQueryColumn(ExcelReader, data) == Ok(Some(col))
                                     && r.value == ExtractQueries(data, col)
    ensures |sheets| > 0 ==>
              var data := sheets[SelectSheet(ExcelReader, sheets)].data;
              var found := FindQueryColumn(ExcelReader, data);
              |data| > 0 ==>
                (!(found.Ok? && found.value.Some? && found.value.value != "") ==>
                   r == Throw(FailurePrefix + NoColumnMessage(data[0].keys)))
                && (found.Ok? && found.value.Some? && found.value.value != "" ==>
                   r == (if |ExtractQueries(data, found.value.value)| == 0
                             then Throw(FailurePrefix + NoQueriesMessage(found.value.value))
                             else Ok(ExtractQueries(data, found.value.value))))
  {
    if |sheets| == 0 then Throw(FailurePrefix + Json.TypeErrorMessage)
    else
      var s := sheets[SelectSheet(ExcelReader, sheets)];
      if |s.data| == 0 then Throw(FailurePrefix + EmptySheetMessage(s.name))
      else SheetQueries(s.data)
  }

  /** The query rows of a non-empty sheet: its detected column's non-empty
      cells, or an error when there is no such column or no such cell. */
  function SheetQueries(data: seq<Record>): (r: Result<seq<QueryRow>>)
    requires |data| > 0
    ensures r.Throw? ==> StartsWith(r.message, FailurePrefix)
    ensures r.Ok? ==> |r.value| > 0
    ensures r.Ok? ==> exists col :: col != "" && FindQueryColumn(ExcelReader, data) == Ok(Some(col))
                                   && r.value == ExtractQueries(data, col)
    ensures var found := FindQueryColumn(ExcelReader, data);
            (!(found.Ok? && found.value.Some? && found.value.value != "") ==>
               r == Throw(FailurePrefix + NoColumnMessage(data[0].keys)))
            && (found.Ok? && found.value.Some? && found.value.value != "" ==>
               r == (if |ExtractQueries(data, found.value.value)| == 0
                         then Throw(FailurePrefix + NoQueriesMessage(found.value.value))
                         else Ok(ExtractQueries(data, found.value.value))))
  {
    var found := FindQueryColumn(ExcelReader, data);
    var r := ExcelRowsFor(data, found);
    if r.Ok? then
      assert found == Ok(Some(found.value.value)) && r.value == ExtractQueries(data, found.value.value);
      r
    else r
  }

  /** The reader's extraction once the column search has produced `found`. */
  function ExcelRowsFor(data: seq<Record>, found: Result<Option<string>>): (r: Result<seq<QueryRow>>)
    requires |data| > 0
    ensures r.Throw? ==> StartsWith(r.message, FailurePrefix)
    ensures !(found.Ok? && found.value.Some? && found.value.value != "") ==>
              r == Throw(FailurePrefix + NoColumnMessage(data[0].keys))
    ensures found.Ok? && found.value.Some? && found.value.value != "" ==>
              r == (if |ExtractQueries(data, found.value.value)| == 0
                    then Throw(FailurePrefix + NoQueriesMessage(found.value.value))
                    else Ok(ExtractQueries(data, found.value.value)))
    ensures r.Ok? ==> found.Ok? && found.value.Some? && found.value.value != ""
  {
    var col := if found.Ok? && found.value.Some? then found.value.value else "";
    if col == "" then Failure(NoColumnMessage(data[0].keys))
    else
      var rows := ExtractQueries(data, col);
      if |rows| == 0 then Failure(NoQueriesMessage(col)) else Ok(rows)
  }

  /** The failure of `readExcelFile`, its message behind the common prefix. */
  function Failure(m: string): (r: Result<seq<QueryRow>>)
    ensures r.Throw? && StartsWith(r.message, FailurePrefix)
  {
    assert (FailurePrefix + m)[..|FailurePrefix|] == FailurePrefix;
    Throw(FailurePrefix + m)
  }

  /** `parseUploadedFile`: the same extraction, but an empty first record
      list makes `data[0]` throw, a missing column is "No query column
      found", and an empty result is returned rather than rejected. */
  function ParseUploadedFile(sheets: seq<Sheet>): (r: Result<seq<QueryRow>>)
    ensures |sheets| == 0 ==> r.Throw?
    ensures |sheets| > 0 && |sheets[SelectSheet(WorkersParser, sheets)].data| == 0
            ==> r == Throw(Json.TypeErrorMessage)
    ensures |sheets| > 0 && FindQueryColumn(WorkersParser, sheets[SelectSheet(WorkersParser, sheets)].data) == Ok(None)
            ==> r == Throw(NoColumnFound)
    ensures r.Ok? ==> |sheets| > 0 &&
                      var data := sheets[SelectSheet(WorkersParser, sheets)].data;
                      exists col :: col != "" && FindQueryColumn(WorkersParser, data) == Ok(Some(col))
                                     && r.value == ExtractQueries(data, col)
    ensures |sheets| > 0 ==>
              var data := sheets[SelectSheet(WorkersParser, sheets)].data;
              var found := FindQueryColumn(WorkersParser, data);
              (found.Ok? && found.value.Some? && found.value.value != "" ==>
                 r == Ok(ExtractQueries(data, found.value.value)))
              && (found == Ok(Some("")) ==> r == Throw(NoColumnFound))
  {
    if |sheets| == 0 then Throw(Json.TypeErrorMessage)
    else ColumnRows(sheets[SelectSheet(WorkersParser, sheets)].data)
  }

  /** The Workers' extraction from one sheet's records: `data[0]` throws on
      no records, no (or an empty) column name is "No query column found",
      and otherwise the column's non-empty rows, possibly none. */
  function ColumnRows(data: seq<Record>): (r: Result<seq<QueryRow>>)
    ensures |data| == 0 ==> r == Throw(Json.TypeErrorMessage)
    ensures FindQueryColumn(WorkersParser, data) == Ok(None) ==> r == Throw(NoColumnFound)
    ensures FindQueryColumn(WorkersParser, data) == Ok(Some("")) ==> r == Throw(NoColumnFound)
    ensures var found := FindQueryColumn(WorkersParser, data);
            found.Ok? && found.value.Some? && found.value.value != "" ==>
              r == Ok(ExtractQueries(data, found.value.value))
    ensures r.Ok? ==> exists col :: col != "" && FindQueryColumn(WorkersParser, data) == Ok(Some(col))
                                   && r.value == ExtractQueries(data, col)
  {
    RowsFor(data, FindQueryColumn(WorkersParser, data))
  }

  /** The extraction once the column search has produced `found`. */
  function RowsFor(data: seq<Record>, found: Result<Option<string>>): (r: Result<seq<QueryRow>>)
    ensures found.Throw? ==> r == Throw(found.message)
    ensures found == Ok(None) || found == Ok(Some("")) ==> r == Throw(NoColumnFound)
    ensures found.Ok? && found.value.Some? && found.value.value != "" ==>
              r == Ok(ExtractQueries(data, found.value.value))
    ensures r.Ok? ==> found.Ok? && found.value.Some? && found.value.value != ""
  {
    if found.Throw? then Throw(found.message)
    else if found.value.None? || found.value.value == "" then Throw(NoColumnFound)
    else Ok(ExtractQueries(data, found.value.value))
  }

  // ---- properties ----

  /** A sheet whose query column holds only blanks: the command line rejects
      it, the Workers accept it with no rows. */
  lemma BlankColumnDiffers(sheets: seq<Sheet>, col: string)
    requires |sheets| > 0
    requires SelectSheet(ExcelReader, sheets) == SelectSheet(WorkersParser, sheets)
    requires var data := sheets[SelectSheet(ExcelReader, sheets)].data;
             |data| > 0 && col != ""
             && FindQueryColumn(ExcelReader, data) == Ok(Some(col))
             && FindQueryColumn(WorkersParser, data) == Ok(Some(col))
             && forall i :: 0 <= i < |data| ==> ColumnQueries(data, col)[i] == ""
    ensures ReadExcelFile(sheets) == Throw(FailurePrefix + NoQueriesMessage(col))
    ensures ParseUploadedFile(sheets) == Ok([])
  {
    BlankColumnIsEmpty(sheets[SelectSheet(ExcelReader, sheets)].data, col);
  }

  /** A row number is never reused and a row's query comes from that row. */
  lemma RowIndexIdentifiesRow(data: seq<Record>, col: string, k: nat, l: nat)
    requires k < |ExtractQueries(data, col)| && l < |ExtractQueries(data, col)|
    requires ExtractQueries(data, col)[k].rowIndex == ExtractQueries(data, col)[l].rowIndex
    ensures k == l
  {
    var r := ExtractQueries(data, col);
    if k < l {
      SortedRows(r, k, l);
    } else if l < k {
      SortedRows(r, l, k);
    }
  }
}
