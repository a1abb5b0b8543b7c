/** The entities shared by the three deployment paths (command line, Apps
    Script, Workers) and the constants they read. */
module Types {
  import Text

  // ---- constants ----

  /** Cap on grounding-derived results. */
  const MaxSerpResults: nat := 5
  /** Rows sampled when deciding whether a column holds queries. */
  const DetectionSampleSize: nat := 10
  /** The 0.7 detection threshold as the fraction 7/10. */
  const ThresholdNum: nat := 7
  const ThresholdDen: nat := 10
  /** For a positive sample count, the share `count / samples` compares
      with 7/10 as `10 * count` compares with `7 * samples`. */
  lemma RatioCompare(count: nat, samples: nat)
    requires samples > 0
    ensures (count as real) / (samples as real) > (ThresholdNum as real) / (ThresholdDen as real)
            <==> ThresholdDen * count > ThresholdNum * samples
    ensures (count as real) / (samples as real) >= (ThresholdNum as real) / (ThresholdDen as real)
            <==> ThresholdDen * count >= ThresholdNum * samples
  {
    var c, s := count as real, samples as real;
    var q := c / s;
    assert q * s == c;
    assert (ThresholdNum as real) / (ThresholdDen as real) == 0.7;
    PositiveFactor(10.0 * q - 7.0, s);
    assert (10.0 * q - 7.0) * s == 10.0 * c - 7.0 * s;
  }

  /** Multiplying by a positive factor keeps the sign. */
  lemma PositiveFactor(x: real, s: real)
    requires s > 0.0
    ensures x * s > 0.0 <==> x > 0.0
    ensures x * s >= 0.0 <==> x >= 0.0
  {
    if x > 0.0 {
      assert x * s > 0.0;
    } else if x == 0.0 {
      assert x * s == 0.0;
    } else {
      assert (-x) * s > 0.0;
    }
  }

  const QueryMinLength: nat := 2
  const QueryMaxLength: nat := 200

  const LocationToken: string := "{location}"
  const QueryToken: string := "{query}"
  const WwwPrefix: string := "www."
  const UrlPrefixes: seq<string> := ["http", "www."]
  const RedirectMarker: string := "grounding-api-redirect"
  /** The placeholder written for "no rank" / "no URL". */
  const Dash: string := "-"

  /** Google Search Console header names used for query-column detection. */
  const GscHeaders: seq<string> := ["Top queries", "Query", "Suchanfrage", "Keyword", "Search term"]
  /** Metric headers that also mark a Search Console sheet. */
  const MetricHeaders: seq<string> := ["clicks", "impressions", "ctr", "position"]

  /** Header row of the command-line output (11 columns). */
  const OutputHeaders: seq<string> := [
    "Original Query", "Persona Prompt", "Status",
    "GPT Rank", "GPT URL", "GPT Rank (Web)", "GPT URL (Web)",
    "Gemini Rank", "Gemini URL", "Gemini Rank (Web)", "Gemini URL (Web)"]

  // ---- entities ----

  /** One search-result entry produced from one provider reply. */
  datatype SerpResult = SerpResult(rank: int, domain: string, url: string)

  /** Where the target domain was found in one result list. The source
      writes `NotFound` as the pair ("-", "-"). */
  datatype RankMatch = Found(rank: int, url: string) | NotFound

  datatype Status = Visible | Invisible | ToolOnly | Error

  /** The source's status strings. */
  function StatusName(s: Status): string {
    match s
    case Visible => "visible"
    case Invisible => "invisible"
    case ToolOnly => "tool-only"
    case Error => "error"
  }

  /** An input row: its query text, spreadsheet row number and the raw row,
      which the core never inspects (so it is not represented). */
  datatype QueryRow = QueryRow(query: string, rowIndex: int)

  /** The outcome of one query across the four provider/mode combinations. */
  datatype ProcessedResult = ProcessedResult(
    originalQuery: string,
    personaPrompt: string,
    status: Status,
    gptNoToolResults: seq<SerpResult>,
    gptWithToolResults: seq<SerpResult>,
    gemNoGroundingResults: seq<SerpResult>,
    gemWithGroundingResults: seq<SerpResult>,
    gpt: RankMatch,
    gptWeb: RankMatch,
    gem: RankMatch,
    gemWeb: RankMatch)

  datatype ProcessingStats = ProcessingStats(
    total: nat, processed: nat, visible: nat, invisible: nat, toolOnly: nat, errors: nat)

  const ZeroStats := ProcessingStats(0, 0, 0, 0, 0, 0)

  datatype Prompts = Prompts(
    personaSystem: string,
    noToolsSystem: string,
    noToolsUser: string,
    withToolsSystem: string,
    withToolsUser: string,
    geminiNoGrounding: string,
    geminiWithGrounding: string)

  /** The configuration of the command-line and Workers paths. */
  datatype Config = Config(
    openaiKey: string,
    geminiKey: string,
    targetDomain: string,
    userLocation: string,
    language: string,
    modelOpenai: string,
    modelGemini: string,
    prompts: Prompts)
}
