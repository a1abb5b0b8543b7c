/** Spreadsheet data as the command line and Workers read it
    (`sheet_to_json` with `defval: ''`): a list of records whose keys are
    the header row. Query-column and Search Console sheet detection, in the
    three record-based variants: `src/sheet-detector.ts`, the inline copy
    in `src/excel-reader.ts`, and `workers/core/parser.ts`. */
module Sheet {
  import opened Wrappers
  import opened Text
  import opened Types
  import opened QueryUtils
  import Json

  /** A cell value; `CEmpty` is `undefined`/`null`. Numbers are integers. */
  datatype Cell = CEmpty | CStr(s: string) | CNum(n: int) | CBool(b: bool)

  predicate CellTruthy(c: Cell) {
    match c
    case CEmpty => false
    case CStr(s) => s != ""
    case CNum(n) => n != 0
    case CBool(b) => b
  }

  /** `String(c)` of a value that is not `undefined`/`null`. */
  function CellString(c: Cell): string {
    match c
    case CEmpty => ""
    case CStr(s) => s
    case CNum(n) => IntToString(n)
    case CBool(b) => if b then "true" else "false"
  }

  /** `String(c || '')`. */
  function OrText(c: Cell): (r: string)
    ensures !CellTruthy(c) ==> r == ""
    ensures c.CStr? ==> r == c.s
  {
    if CellTruthy(c) then CellString(c) else ""
  }

  /** A row: its keys in header order and its values. */
  datatype Record = Record(keys: seq<string>, cells: map<string, Cell>)

  /** `row[key]`: `undefined` for a missing key. */
  function At(r: Record, key: string): Cell {
    if key in r.cells then r.cells[key] else CEmpty
  }

  /** `String(row[col] || '').trim()`. */
  function CellQuery(r: Record, col: string): string {
    Trim(OrText(At(r, col)))
  }

  /** A named sheet and its records. */
  datatype Sheet = Sheet(name: string, data: seq<Record>)

  // ---- the three record-based detectors ----

  datatype Detector = SheetDetector | ExcelReader | WorkersParser

  /** The inline cell test of `src/excel-reader.ts`. */
  predicate ExcelCellTest(v: string) {
    Utf16Length(v) >= QueryMinLength && Utf16Length(v) <= QueryMaxLength && HasLetter(v)
    && !StartsWith(v, "http") && !StartsWith(v, "www.")
  }

  /** The test a detector applies to a trimmed cell. */
  predicate CellTest(d: Detector, v: string) {
    if d == ExcelReader then ExcelCellTest(v) else IsQueryLike(v)
  }

  /** `Math.min(10, data.length)`. */
  function Samples(n: nat): (s: nat)
    ensures s <= DetectionSampleSize && s <= n
    ensures s == DetectionSampleSize || s == n
  {
    if n < DetectionSampleSize then n else DetectionSampleSize
  }

  /** How many of the first `n` flags are set. */
  function CountTrue(flags: seq<bool>, n: nat): (c: nat)
    requires n <= |flags|
    ensures c <= n
  {
    if n == 0 then 0 else CountTrue(flags, n - 1) + (if flags[n - 1] then 1 else 0)
  }

  /** The cell test applied to every row of column `col`. */
  function Passes(d: Detector, data: seq<Record>, col: string): (f: seq<bool>)
    ensures |f| == |data|
    ensures forall i :: 0 <= i < |data| ==> f[i] == CellTest(d, CellQuery(data[i], col))
  {
    seq(|data|, i requires 0 <= i < |data| => CellTest(d, CellQuery(data[i], col)))
  }

  /** How many of the first `n` rows pass the cell test in column `col`. */
  function PassCount(d: Detector, data: seq<Record>, col: string, n: nat): (c: nat)
    requires n <= |data|
    ensures c <= n
  {
    CountTrue(Passes(d, data, col), n)
  }

  /** `isQueryColumn`: `count / samples > 0.7`, as `10 * count > 7 * samples`.
      With no rows the quotient is NaN and the test fails. */
  predicate IsQueryColumn(d: Detector, data: seq<Record>, col: string) {
    var s := Samples(|data|);
    ThresholdDen * PassCount(d, data, col, s) > ThresholdNum * s
  }

  /** The integer test is the rational test `count / samples > 7/10`. */
  lemma ThresholdIsRatio(count: nat, samples: nat)
    requires 0 < samples
    ensures (ThresholdDen * count > ThresholdNum * samples)
            <==> (count as real) / (samples as real) > (ThresholdNum as real) / (ThresholdDen as real)
  {
    RatioCompare(count, samples);
  }

  /** The header pass's test of one lowercased, trimmed header against one
      lowercased known header. */
  predicate HeaderRelated(d: Detector, hl: string, gl: string) {
    if d == WorkersParser then hl == gl || Contains(hl, gl)
    else hl == gl || Contains(hl, gl) || Contains(gl, hl)
  }

  /** `hl` is related to some header of `known` (lowercased). */
  predicate AnyRelated(d: Detector, hl: string, known: seq<string>) {
    |known| > 0 && (HeaderRelated(d, hl, Lower(known[0])) || AnyRelated(d, hl, known[1..]))
  }

  /** A header names the query column. */
  predicate HeaderMatches(d: Detector, header: string) {
    AnyRelated(d, Trim(Lower(header)), GscHeaders)
  }

  /** The index of the first set flag. */
  function FirstTrue(flags: seq<bool>): (r: Option<nat>)
    ensures r.Some? ==> r.value < |flags| && flags[r.value]
                        && forall j :: 0 <= j < r.value ==> !flags[j]
    ensures r.None? ==> forall j :: 0 <= j < |flags| ==> !flags[j]
  {
    if |flags| == 0 then None
    else if flags[0] then Some(0)
    else match FirstTrue(flags[1..])
      case None => None
      case Some(i) => Some(i + 1)
  }

  function HeaderFlags(d: Detector, headers: seq<string>): (f: seq<bool>)
    ensures |f| == |headers|
    ensures forall j :: 0 <= j < |headers| ==> f[j] == HeaderMatches(d, headers[j])
  {
    seq(|headers|, j requires 0 <= j < |headers| => HeaderMatches(d, headers[j]))
  }

  function ColumnFlags(d: Detector, data: seq<Record>, headers: seq<string>): (f: seq<bool>)
    ensures |f| == |headers|
    ensures forall j :: 0 <= j < |headers| ==> f[j] == IsQueryColumn(d, data, headers[j])
  {
    seq(|headers|, j requires 0 <= j < |headers| => IsQueryColumn(d, data, headers[j]))
  }

  /** The first header satisfying the header pass. */
  function FirstHeaderMatch(d: Detector, headers: seq<string>): (r: Option<nat>)
    ensures r.Some? ==> r.value < |headers| && HeaderMatches(d, headers[r.value])
                        && forall j :: 0 <= j < r.value ==> !HeaderMatches(d, headers[j])
    ensures r.None? ==> forall j :: 0 <= j < |headers| ==> !HeaderMatches(d, headers[j])
  {
    FirstTrue(HeaderFlags(d, headers))
  }

  /** The first header whose column passes `isQueryColumn`. */
  function FirstQueryColumn(d: Detector, data: seq<Record>, headers: seq<string>): (r: Option<nat>)
    ensures r.Some? ==> r.value < |headers| && IsQueryColumn(d, data, headers[r.value])
                        && forall j :: 0 <= j < r.value ==> !IsQueryColumn(d, data, headers[j])
    ensures r.None? ==> forall j :: 0 <= j < |headers| ==> !IsQueryColumn(d, data, headers[j])
  {
    FirstTrue(ColumnFlags(d, data, headers))
  }

  /** Neither pass accepts any of `headers`. */
  predicate NoCandidate(d: Detector, data: seq<Record>, headers: seq<string>) {
    forall j :: 0 <= j < |headers| ==> !HeaderMatches(d, headers[j]) && !IsQueryColumn(d, data, headers[j])
  }

  /** `findQueryColumn`: a header match first, then the first column whose
      sample looks like queries, else `null`. The headers are the keys of
      the first record, so an empty sheet makes `data[0]` undefined and the
      call throws. */
  function FindQueryColumn(d: Detector, data: seq<Record>): (r: Result<Option<string>>)
    ensures r.Throw? <==> |data| == 0
    ensures r.Ok? && r.value.Some? ==> r.value.value in data[0].keys
    ensures r.Ok? && r.value.Some? ==> HeaderMatches(d, r.value.value) || IsQueryColumn(d, data, r.value.value)
    ensures r.Ok? ==> (r.value.None? <==> NoCandidate(d, data, data[0].keys))
  {
    if |data| == 0 then Throw(Json.TypeErrorMessage)
    else
      var headers := data[0].keys;
      match FirstHeaderMatch(d, headers)
      case Some(i) => Ok(Some(headers[i]))
      case None =>
        match FirstQueryColumn(d, data, headers)
        case Some(i) => Ok(Some(headers[i]))
        case None => Ok(None)
  }

  /** The header pass takes precedence and picks the leftmost matching
      header; only without one does the data pass pick the leftmost
      column that looks like queries. */
  lemma FindQueryColumnPrecedence(d: Detector, data: seq<Record>)
    requires |data| > 0
    ensures var keys := data[0].keys;
            var h := FirstHeaderMatch(d, keys);
            var q := FirstQueryColumn(d, data, keys);
            (h.Some? ==> FindQueryColumn(d, data) == Ok(Some(keys[h.value])))
            && (h.None? && q.Some? ==> FindQueryColumn(d, data) == Ok(Some(keys[q.value])))
  {
  }

  // ---- Search Console sheet detection ----

  /** The sheet predicate of `findGSCSheet` on lowercased headers. The
      command-line copies accept containment in either direction or a
      metric header; the Workers copy only a header that contains a known
      one. */
  predicate GscSheetHeaders(d: Detector, headers: seq<string>) {
    if d == WorkersParser then
      exists g, h :: 0 <= g < |GscHeaders| && 0 <= h < |headers|
                     && Contains(Lower(headers[h]), Lower(GscHeaders[g]))
    else
      (exists g, h :: 0 <= g < |GscHeaders| && 0 <= h < |headers|
                      && (Contains(Lower(headers[h]), Lower(GscHeaders[g]))
                          || Contains(Lower(GscHeaders[g]), Lower(headers[h]))))
      || (exists m, h :: 0 <= m < |MetricHeaders| && 0 <= h < |headers|
                         && Contains(Lower(headers[h]), MetricHeaders[m]))
  }

  predicate GscSheet(d: Detector, s: Sheet) {
    |s.data| > 0 && GscSheetHeaders(d, s.data[0].keys)
  }

  /** `findGSCSheet`: the first sheet with data that looks like a Search
      Console export. */
  function FindGscSheet(d: Detector, sheets: seq<Sheet>): (r: Option<nat>)
    ensures r.Some? ==> r.value < |sheets| && GscSheet(d, sheets[r.value])
                        && forall j :: 0 <= j < r.value ==> !GscSheet(d, sheets[j])
    ensures r.None? ==> forall j :: 0 <= j < |sheets| ==> !GscSheet(d, sheets[j])
  {
    FirstTrue(SheetFlags(d, sheets))
  }

  function SheetFlags(d: Detector, sheets: seq<Sheet>): (f: seq<bool>)
    ensures |f| == |sheets|
    ensures forall j :: 0 <= j < |sheets| ==> f[j] == GscSheet(d, sheets[j])
  {
    seq(|sheets|, j requires 0 <= j < |sheets| => GscSheet(d, sheets[j]))
  }

  // ---- properties ----

  /** The inline test of the Excel reader is `isQueryLike` on the trimmed
      cell, so the two command-line detectors agree on every column. */
  lemma ExcelTestIsQueryLike(v: string)
    ensures ExcelCellTest(Trim(v)) <==> IsQueryLike(Trim(v))
  {
    IsQueryLikeIff(Trim(v));
    TrimIdempotent(v);
  }

  lemma {:induction false} AnyRelatedAgrees(hl: string, known: seq<string>)
    ensures AnyRelated(ExcelReader, hl, known) == AnyRelated(SheetDetector, hl, known)
  {
    if |known| > 0 {
      AnyRelatedAgrees(hl, known[1..]);
    }
  }

  lemma ColumnTestsAgree(data: seq<Record>, col: string)
    ensures IsQueryColumn(ExcelReader, data, col) == IsQueryColumn(SheetDetector, data, col)
  {
    forall i | 0 <= i < |data|
      ensures CellTest(ExcelReader, CellQuery(data[i], col)) == CellTest(SheetDetector, CellQuery(data[i], col))
    {
      ExcelTestIsQueryLike(OrText(At(data[i], col)));
    }
    assert Passes(ExcelReader, data, col) == Passes(SheetDetector, data, col);
  }

  /** The Excel reader and the sheet detector choose the same column. */
  lemma ExcelAgreesWithDetector(data: seq<Record>)
    ensures FindQueryColumn(ExcelReader, data) == FindQueryColumn(SheetDetector, data)
  {
    if |data| > 0 {
      HeaderFlagsAgree(data[0].keys);
      ColumnFlagsAgree(data, data[0].keys);
    }
  }

  lemma HeaderFlagsAgree(headers: seq<string>)
    ensures HeaderFlags(ExcelReader, headers) == HeaderFlags(SheetDetector, headers)
  {
    forall j | 0 <= j < |headers|
      ensures HeaderMatches(ExcelReader, headers[j]) == HeaderMatches(SheetDetector, headers[j])
    {
      AnyRelatedAgrees(Trim(Lower(headers[j])), GscHeaders);
    }
  }

  lemma ColumnFlagsAgree(data: seq<Record>, headers: seq<string>)
    ensures ColumnFlags(ExcelReader, data, headers) == ColumnFlags(SheetDetector, data, headers)
  {
    forall j | 0 <= j < |headers|
      ensures IsQueryColumn(ExcelReader, data, headers[j]) == IsQueryColumn(SheetDetector, data, headers[j])
    {
      ColumnTestsAgree(data, headers[j]);
    }
  }

  /** A header of white space only trims to "", which every known header
      contains, so the command-line header pass accepts it. */
  lemma BlankHeaderMatches(d: Detector, header: string)
    requires d != WorkersParser
    requires forall i :: 0 <= i < |header| ==> IsWs(header[i])
    ensures HeaderMatches(d, header)
  {
    var l := Lower(header);
    assert forall i :: 0 <= i < |l| ==> IsWs(l[i]) by {
      forall i | 0 <= i < |l| ensures IsWs(l[i]) {
        assert l[i] == LowerChar(header[i]);
      }
    }
    TrimEmptyIff(l);
    ContainsEmpty(Lower(GscHeaders[0]));
    assert HeaderRelated(d, Trim(Lower(header)), Lower(GscHeaders[0]));
  }

  /** The Workers header pass is stricter: a header contained in a known
      header ("top" inside "top queries") matches only on the command line. */
  lemma ContainedHeaderOnlyOnCli()
    ensures HeaderRelated(SheetDetector, "top", "top queries")
    ensures !HeaderRelated(WorkersParser, "top", "top queries")
  {
    assert StartsWith("top queries", "top");
    StartsWithContains("top queries", "top");
    TooLongNotContained("top", "top queries");
  }


  /** A column passes only if more than 7 of 10 sampled rows pass: 7 of 10
      is not enough, 8 of 10 is. */
  lemma ThresholdBoundary()
    ensures !(ThresholdDen * 7 > ThresholdNum * 10)
    ensures ThresholdDen * 8 > ThresholdNum * 10
  {
  }
}
