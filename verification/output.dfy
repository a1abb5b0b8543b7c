/** `convertResultsToRows`: the header row and one 11-cell row per result,
    as written to CSV and Excel by the command line. A missing rank or URL
    becomes "-" here and only here. */
module Output {
  import opened Text
  import opened Types

  /** `String(rank)`, with "-" for a rank that was not found. */
  function RankCell(m: RankMatch): (c: string)
    ensures m.Found? ==> c != Dash && IntValue(c) == m.rank
    ensures m.NotFound? ==> c == Dash
  {
    match m
    case Found(rank, _) =>
      IntToStringNotDash(rank);
      IntToString(rank)
    case NotFound => Dash
  }

  /** The URL cell, "-" when not found. */
  function UrlCell(m: RankMatch): (c: string)
    ensures m.Found? ==> c == m.url
    ensures m.NotFound? ==> c == Dash
  {
    match m
    case Found(_, url) => url
    case NotFound => Dash
  }

  /** The status cell: the status name in capitals. */
  function StatusCell(st: Status): string {
    match st
    case Visible => "VISIBLE"
    case Invisible => "INVISIBLE"
    case ToolOnly => "TOOL-ONLY"
    case Error => "ERROR"
  }

  /** The status cell is `toUpperCase` of the status name. */
  lemma StatusCellIsUpper(st: Status)
    ensures StatusCell(st) == Upper(StatusName(st))
  {
    match st {
      case Visible => VisibleCell();
      case Invisible => InvisibleCell();
      case ToolOnly => ToolOnlyCell();
      case Error => ErrorCell();
    }
  }

  /** One data row. */
  function DataRow(r: ProcessedResult): (row: seq<string>)
    ensures |row| == 11 == |OutputHeaders|
    ensures row[0] == r.originalQuery && row[1] == r.personaPrompt
    ensures row[2] == StatusCell(r.status)
    ensures row[3] == RankCell(r.gpt) && row[4] == UrlCell(r.gpt)
    ensures row[5] == RankCell(r.gptWeb) && row[6] == UrlCell(r.gptWeb)
    ensures row[7] == RankCell(r.gem) && row[8] == UrlCell(r.gem)
    ensures row[9] == RankCell(r.gemWeb) && row[10] == UrlCell(r.gemWeb)
  {
    [r.originalQuery, r.personaPrompt, StatusCell(r.status),
     RankCell(r.gpt), UrlCell(r.gpt), RankCell(r.gptWeb), UrlCell(r.gptWeb),
     RankCell(r.gem), UrlCell(r.gem), RankCell(r.gemWeb), UrlCell(r.gemWeb)]
  }

  /** `convertResultsToRows`: the header, then the results in order. */
  function ConvertResultsToRows(results: seq<ProcessedResult>): (rows: seq<seq<string>>)
    ensures |rows| == |results| + 1
    ensures rows[0] == OutputHeaders
    ensures forall i :: 0 <= i < |results| ==> rows[i + 1] == DataRow(results[i])
    ensures forall i :: 0 <= i < |rows| ==> |rows[i]| == |OutputHeaders|
  {
    var body := DataRows(results);
    assert forall i :: 0 <= i < |results| ==> ([OutputHeaders] + body)[i + 1] == body[i];
    [OutputHeaders] + body
  }

  /** One data row per result, in order. */
  function DataRows(results: seq<ProcessedResult>): (rows: seq<seq<string>>)
    ensures |rows| == |results|
    ensures forall i :: 0 <= i < |results| ==> rows[i] == DataRow(results[i])
  {
    seq(|results|, i requires 0 <= i < |results| => DataRow(results[i]))
  }

  // ---- properties ----

  /** A rank cell is "-" exactly when the rank was not found: no rendered
      number can be confused with the placeholder. */
  lemma RankCellDashIff(m: RankMatch)
    ensures RankCell(m) == Dash <==> m.NotFound?
  {
    if m.Found? {
      IntToStringNotDash(m.rank);
    }
  }

  /** The status cell is the upper-cased status name. */
  lemma ToolOnlyCell()
    ensures Upper(StatusName(ToolOnly)) == "TOOL-ONLY"
  {
    UpperEach("tool-only", "TOOL-ONLY");
  }

  lemma VisibleCell()
    ensures Upper(StatusName(Visible)) == "VISIBLE"
  {
    UpperEach("visible", "VISIBLE");
  }

  lemma InvisibleCell()
    ensures Upper(StatusName(Invisible)) == "INVISIBLE"
  {
    UpperEach("invisible", "INVISIBLE");
  }

  lemma ErrorCell()
    ensures Upper(StatusName(Error)) == "ERROR"
  {
    UpperEach("error", "ERROR");
  }

  /** The status can be read back from its cell. */
  lemma StatusCellInjective(a: Status, b: Status)
    requires Upper(StatusName(a)) == Upper(StatusName(b))
    ensures a == b
  {
    ToolOnlyCell();
    VisibleCell();
    InvisibleCell();
    ErrorCell();
    assert "TOOL-ONLY"[0] != "VISIBLE"[0] && "VISIBLE"[0] != "INVISIBLE"[0] && "INVISIBLE"[0] != "ERROR"[0];
    assert "TOOL-ONLY"[0] != "INVISIBLE"[0] && "TOOL-ONLY"[0] != "ERROR"[0] && "VISIBLE"[0] != "ERROR"[0];
  }
}
