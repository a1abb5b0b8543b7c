/** The pure parts of the Apps Script sheet helpers (`src/gas/sheet-utils.ts`):
    configuration checks, the city of a location, the 17-column result row,
    query-column detection on a raw value grid, and the `<option>` lists of
    the settings page. Sheet reads and writes are not modelled; a grid is a
    sequence of rows of cells. */
module GasSheet {
  import opened Wrappers
  import opened Text
  import opened Types
  import opened QueryUtils
  import opened Sheet

  /** The settings the Apps Script pipeline reads. */
  datatype GasConfig = GasConfig(
    openaiKey: string,
    geminiKey: string,
    targetDomain: string,
    userLocation: string,
    language: string,
    countryCode: string,
    modelOpenai: string,
    modelGemini: string,
    batchSize: int,
    rateLimitMs: int)

  // ---- configuration checks ----

  const OpenAiKeyMissing: string := "OpenAI API key missing. Open Setup."
  const GeminiKeyMissing: string := "Gemini API key missing. Open Setup."
  const TargetDomainMissing: string := "TARGET_DOMAIN missing. Open Setup."
  const UserLocationMissing: string := "USER_LOCATION missing. Open Setup."

  /** `validateConfig`: throws for the first empty field, in the order
      OpenAI key, Gemini key, target domain, user location. */
  function ValidateConfig(cfg: GasConfig): (r: Result<()>)
    ensures r.Ok? <==> cfg.openaiKey != "" && cfg.geminiKey != "" && cfg.targetDomain != "" && cfg.userLocation != ""
    ensures cfg.openaiKey == "" ==> r == Throw(OpenAiKeyMissing)
    ensures cfg.openaiKey != "" && cfg.geminiKey == "" ==> r == Throw(GeminiKeyMissing)
    ensures cfg.openaiKey != "" && cfg.geminiKey != "" && cfg.targetDomain == "" ==> r == Throw(TargetDomainMissing)
    ensures cfg.openaiKey != "" && cfg.geminiKey != "" && cfg.targetDomain != "" && cfg.userLocation == ""
            ==> r == Throw(UserLocationMissing)
  {
    if cfg.openaiKey == "" then Throw(OpenAiKeyMissing)
    else if cfg.geminiKey == "" then Throw(GeminiKeyMissing)
    else if cfg.targetDomain == "" then Throw(TargetDomainMissing)
    else if cfg.userLocation == "" then Throw(UserLocationMissing)
    else Ok(())
  }

  /** The names `ensureConfigReady` lists as missing, in its order. */
  function MissingSetup(cfg: GasConfig): (m: seq<string>)
    ensures |m| <= 4
    ensures cfg.openaiKey == "" ==> |m| > 0 && m[0] == "OpenAI API key"
  {
    (if cfg.openaiKey == "" then ["OpenAI API key"] else [])
    + (if cfg.geminiKey == "" then ["Gemini API key"] else [])
    + (if cfg.targetDomain == "" then ["TARGET_DOMAIN"] else [])
    + (if cfg.userLocation == "" then ["USER_LOCATION"] else [])
  }

  /** `ensureConfigReady` without its log and toast: ready, or the message
      it shows. */
  function EnsureConfigReady(cfg: GasConfig): (r: Option<string>)
    ensures r.None? <==> |MissingSetup(cfg)| == 0
    ensures r.Some? ==> r.value == "Setup required (" + Join(MissingSetup(cfg), ", ") + "). Opening sidebar."
  {
    var missing := MissingSetup(cfg);
    if |missing| == 0 then None
    else Some("Setup required (" + Join(missing, ", ") + "). Opening sidebar.")
  }

  /** The two checks accept exactly the same configurations. */
  lemma ReadyIffValid(cfg: GasConfig)
    ensures EnsureConfigReady(cfg).None? <==> ValidateConfig(cfg).Ok?
  {
  }

  // ---- city ----

  /** `cityFromLocation`: the trimmed text before the first comma, "" for "". */
  function CityFromLocation(loc: string): (r: string)
    ensures loc == "" ==> r == ""
    ensures ',' !in r
    ensures |r| > 0 ==> !IsWs(r[0]) && !IsWs(r[|r| - 1])
    ensures Contains(loc, r)
  {
    if loc == "" then
      ContainsEmpty(loc);
      ""
    else
      CityOccurs(loc);
      Trim(BeforeFirst(loc, ','))
  }

  /** The trimmed text before the first comma has no comma and occurs in
      the location. */
  lemma CityOccurs(loc: string)
    ensures ',' !in Trim(BeforeFirst(loc, ','))
    ensures Contains(loc, Trim(BeforeFirst(loc, ',')))
  {
    CityOfPrefix(loc, BeforeFirst(loc, ','));
  }

  lemma CityOfPrefix(loc: string, before: string)
    requires |before| <= |loc| && before == loc[..|before|] && ',' !in before
    ensures ',' !in Trim(before)
    ensures Contains(loc, Trim(before))
  {
    var a := TrimmedSlice(before);
    SliceOfPrefix(loc, before, Trim(before), a);
  }

  /** A slice of a comma-free prefix of `loc` occurs in `loc` and has no
      comma. */
  lemma SliceOfPrefix(loc: string, before: string, r: string, a: nat)
    requires |before| <= |loc| && before == loc[..|before|] && ',' !in before
    requires a + |r| <= |before| && r == before[a..a + |r|]
    ensures ',' !in r
    ensures Contains(loc, r)
  {
    forall k | 0 <= k < |r| ensures r[k] == loc[a + k] {
      assert r[k] == before[a + k] == loc[a + k];
    }
    assert r == loc[a..a + |r|];
    SliceContained(loc, a, a + |r|);
  }

  /** The trimmed text is the slice of `s` that starts at `a`. */
  lemma TrimmedSlice(s: string) returns (a: nat)
    ensures a + |Trim(s)| <= |s| && Trim(s) == s[a..a + |Trim(s)|]
  {
    a := |s| - |TrimStart(s)|;
    assert StrippedFrom(s, Trim(s), a);
  }

  lemma CityExample()
    ensures CityFromLocation("Vienna, Austria") == "Vienna"
  {
    assert "Vienna, Austria" == "Vienna" + ", Austria";
    BeforeFirstOfConcat("Vienna", ", Austria", ',');
    TrimVienna();
  }

  lemma TrimVienna()
    ensures Trim("Vienna") == "Vienna"
  {
    TrimStartNoWs("Vienna");
    TrimEndNoWs("Vienna");
  }

  /** The text before the first separator of `a + b`, when `a` has none
      and `b` starts with one, is `a`. */
  lemma {:induction false} BeforeFirstOfConcat(a: string, b: string, sep: char)
    requires sep !in a && |b| > 0 && b[0] == sep
    ensures BeforeFirst(a + b, sep) == a
  {
    if |a| > 0 {
      assert (a + b)[1..] == a[1..] + b;
      assert sep !in a[1..];
      BeforeFirstOfConcat(a[1..], b, sep);
      assert a == [a[0]] + a[1..];
    }
  }

  /** A location without a comma is only trimmed. */
  lemma CityWithoutComma(loc: string)
    requires ',' !in loc
    ensures CityFromLocation(loc) == Trim(loc)
  {
    BeforeFirstAbsent(loc, ',');
  }

  /** With a comma, the city is the trimmed text before the first one,
      whatever follows it. */
  lemma CityOfComma(a: string, b: string)
    requires ',' !in a
    ensures CityFromLocation(a + "," + b) == Trim(a)
  {
    assert a + "," + b == a + ("," + b);
    BeforeFirstOfConcat(a, "," + b, ',');
  }

  lemma {:induction false} BeforeFirstAbsent(s: string, sep: char)
    requires sep !in s
    ensures BeforeFirst(s, sep) == s
  {
    if |s| > 0 {
      assert sep !in s[1..];
      BeforeFirstAbsent(s[1..], sep);
      assert s == [s[0]] + s[1..];
    }
  }

  // ---- the result row ----

  /** The 17 headers of the Apps Script results sheet. */
  const GasOutputHeaders: seq<string> := [
    "Original Query", "Persona Prompt", "Visibility Status", "Check Status",
    "GPT Rank", "GPT URL", "GPT Rank (Web)", "GPT URL (Web)",
    "Gemini Rank", "Gemini URL", "Gemini Rank (Web)", "Gemini URL (Web)",
    "GPT NoTools (all URLs)", "GPT Web (all URLs)", "Gemini No (all URLs)",
    "Gemini Web (all URLs)", "Error"]

  const RowWidth: nat := 17

  /** Cell `i` of a row, `undefined` past its end. */
  function CellAt(row: seq<Cell>, i: nat): Cell {
    if i < |row| then row[i] else CEmpty
  }

  /** `normalizeOutputRow`: exactly one cell per header, `undefined` and
      `null` written as "", extra cells dropped. */
  function NormalizeOutputRow(row: seq<Cell>): (r: seq<Cell>)
    ensures |r| == |GasOutputHeaders| == RowWidth
    ensures forall i :: 0 <= i < RowWidth ==> r[i] != CEmpty
    ensures forall i :: 0 <= i < RowWidth && i < |row| && row[i] != CEmpty ==> r[i] == row[i]
    ensures forall i :: 0 <= i < RowWidth && (i >= |row| || row[i] == CEmpty) ==> r[i] == CStr("")
  {
    seq(RowWidth, i requires 0 <= i < RowWidth => if CellAt(row, i) == CEmpty then CStr("") else CellAt(row, i))
  }

  /** Normalising a normalised row changes nothing. */
  lemma NormalizeOutputRowIdempotent(row: seq<Cell>)
    ensures NormalizeOutputRow(NormalizeOutputRow(row)) == NormalizeOutputRow(row)
  {
  }

  /** A row with no empty cells among the first 17 keeps exactly those. */
  lemma NormalizeKeepsPrefix(row: seq<Cell>)
    requires |row| >= RowWidth
    requires forall i :: 0 <= i < RowWidth ==> row[i] != CEmpty
    ensures NormalizeOutputRow(row) == row[..RowWidth]
  {
  }

  const Pending: string := "pending"

  /** `buildEmptyRow`: the query, "pending" as check status, "-" for the
      eight rank/URL cells and "" elsewhere. */
  function BuildEmptyRow(query: string): (r: seq<Cell>)
    ensures |r| == RowWidth
    ensures r[0] == CStr(query)
    ensures r[3] == CStr(Pending)
    ensures forall i :: 4 <= i < 12 ==> r[i] == CStr(Dash)
    ensures forall i :: 0 <= i < RowWidth && i != 0 && i != 3 && !(4 <= i < 12) ==> r[i] == CStr("")
  {
    NormalizeOutputRow([CStr(query), CStr(""), CStr(""), CStr(Pending)]
      + seq(8, _ => CStr(Dash)) + seq(5, _ => CStr("")))
  }

  /** A seeded row has an empty status cell, so the batch treats it as
      pending. */
  lemma EmptyRowIsPending(query: string)
    ensures !CellTruthy(BuildEmptyRow(query)[2])
  {
  }

  // ---- query-column detection on a grid ----

  /** `String(v ?? '')`: only `undefined`/`null` become "". */
  function NullishText(c: Cell): (r: string)
    ensures c.CStr? ==> r == c.s
  {
    if c == CEmpty then "" else CellString(c)
  }

  /** The header row as the detector sees it: `String(h || '').toLowerCase()`,
      without trimming. */
  function GridHeaders(data: seq<seq<Cell>>): (hs: seq<string>)
    requires |data| > 0
    ensures |hs| == |data[0]|
    ensures forall i :: 0 <= i < |hs| ==> hs[i] == Lower(OrText(data[0][i]))
  {
    seq(|data[0]|, i requires 0 <= i < |data[0]| => Lower(OrText(data[0][i])))
  }

  /** The header test: containment in either direction with a known header. */
  predicate GridHeaderMatches(h: string) {
    AnyRelated(SheetDetector, h, GscHeaders)
  }

  function GridHeaderFlags(hs: seq<string>): (f: seq<bool>)
    ensures |f| == |hs|
    ensures forall i :: 0 <= i < |hs| ==> f[i] == GridHeaderMatches(hs[i])
  {
    seq(|hs|, i requires 0 <= i < |hs| => GridHeaderMatches(hs[i]))
  }

  /** Whether each sampled row of column `col` holds a query-like cell. */
  function GridPasses(rows: seq<seq<Cell>>, col: nat): (f: seq<bool>)
    ensures |f| == |rows|
    ensures forall r :: 0 <= r < |rows| ==> f[r] == IsQueryLike(NullishText(CellAt(rows[r], col)))
  {
    seq(|rows|, r requires 0 <= r < |rows| => IsQueryLike(NullishText(CellAt(rows[r], col))))
  }

  /** The query-like count of every column over the first `samples` rows. */
  function ColumnCounts(rows: seq<seq<Cell>>, width: nat, samples: nat): (cs: seq<nat>)
    requires samples <= |rows|
    ensures |cs| == width
    ensures forall c :: 0 <= c < width ==> cs[c] == CountTrue(GridPasses(rows, c), samples)
  {
    seq(width, c requires 0 <= c < width => CountTrue(GridPasses(rows, c), samples))
  }

  /** `score >= 0.7` with `score = count / samples` (0 when there are no
      samples), as integers. */
  predicate Qualifies(count: nat, samples: nat) {
    samples > 0 && ThresholdDen * count >= ThresholdNum * samples
  }

  /** The fallback scan over the first `n` columns: the column with the
      highest qualifying count, the leftmost on ties, or -1. */
  function BestColumn(counts: seq<nat>, samples: nat, n: nat): (r: int)
    requires n <= |counts|
    ensures -1 <= r < n
    ensures r == -1 <==> forall j :: 0 <= j < n ==> !Qualifies(counts[j], samples)
    ensures r >= 0 ==> Qualifies(counts[r], samples)
    ensures r >= 0 ==> forall j :: 0 <= j < n && Qualifies(counts[j], samples) ==> counts[j] <= counts[r]
    ensures r >= 0 ==> forall j :: 0 <= j < r ==> counts[j] < counts[r]
  {
    if n == 0 then -1
    else
      var prev := BestColumn(counts, samples, n - 1);
      if Qualifies(counts[n - 1], samples) && (prev == -1 || counts[n - 1] > counts[prev]) then n - 1
      else prev
  }

  /** The header pass: the first column whose header is related to a
      known header. */
  function HeaderColumn(data: seq<seq<Cell>>): (r: Option<nat>)
    requires |data| > 0
    ensures r.Some? ==> r.value < |data[0]| && GridHeaderMatches(GridHeaders(data)[r.value])
                        && forall j :: 0 <= j < r.value ==> !GridHeaderMatches(GridHeaders(data)[j])
    ensures r.None? ==> forall j :: 0 <= j < |data[0]| ==> !GridHeaderMatches(GridHeaders(data)[j])
  {
    FirstTrue(GridHeaderFlags(GridHeaders(data)))
  }

  /** The fallback pass over the first 10 data rows. */
  function FallbackColumn(data: seq<seq<Cell>>): (r: int)
    requires |data| > 0
    ensures -1 <= r < |data[0]|
  {
    var rows := data[1..];
    var samples := Samples(|rows|);
    BestColumn(ColumnCounts(rows, |data[0]|, samples), samples, |data[0]|)
  }

  /** `findQueryColumn` of Apps Script: -1 for an empty grid; else the first
      header related to a known header; else the best-scoring column over
      the first 10 data rows with at least 70% query-like cells. */
  function FindGridQueryColumn(data: seq<seq<Cell>>): (r: int)
    ensures |data| == 0 ==> r == -1
    ensures |data| > 0 ==> -1 <= r < |data[0]|
    ensures |data| > 0 && HeaderColumn(data).Some? ==> r == HeaderColumn(data).value
    ensures |data| > 0 && HeaderColumn(data).None? ==> r == FallbackColumn(data)
  {
    if |data| == 0 then -1
    else
      match HeaderColumn(data)
      case Some(i) => i
      case None => FallbackColumn(data)
  }

  /** An empty header cell is contained in every known header, so it
      matches. */
  lemma EmptyHeaderMatches()
    ensures GridHeaderMatches("")
  {
    ContainsEmpty(Lower(GscHeaders[0]));
  }

  /** Exactly 7 of 10 is enough here (`>=`), unlike the command-line
      detectors (`>`). */
  lemma SevenOfTenQualifies()
    ensures Qualifies(7, 10)
    ensures !(ThresholdDen * 7 > ThresholdNum * 10)
    ensures !Qualifies(6, 10)
  {
  }

  /** Ties go to the leftmost column. */
  lemma TieGoesLeft()
    ensures BestColumn([8, 9, 9], 10, 3) == 1
  {
    assert BestColumn([8, 9, 9], 10, 1) == 0;
    assert BestColumn([8, 9, 9], 10, 2) == 1;
  }

  /** The `>=` test is `count / samples >= 7/10`. */
  lemma QualifiesIsRatio(count: nat, samples: nat)
    requires samples > 0
    ensures Qualifies(count, samples)
            <==> (count as real) / (samples as real) >= (ThresholdNum as real) / (ThresholdDen as real)
  {
    RatioCompare(count, samples);
  }

  // ---- settings-page option lists ----

  const LanguageCodes: seq<string> := [
    "de-AT", "de-DE", "de-CH", "en-US", "en-GB", "en-IE", "en-AU", "en-NZ",
    "en-CA", "fr-FR", "fr-CA", "es-ES", "es-MX", "it-IT", "nl-NL", "pt-PT",
    "pt-BR", "pl-PL", "cs-CZ", "sk-SK", "sv-SE", "no-NO", "da-DK", "fi-FI"]

  const CountryCodes: seq<string> := [
    "AT", "DE", "CH", "GB", "IE", "US", "CA", "AU", "NZ", "FR", "BE", "NL",
    "LU", "ES", "PT", "IT", "PL", "CZ", "SK", "SE", "NO", "DK", "FI"]

  /** An option is selected when it equals `current` ignoring case. */
  predicate Selected(opt: string, current: string) {
    Lower(opt) == Lower(current)
  }

  /** One `<option>` element. */
  function OptionTag(opt: string, current: string): (r: string)
    ensures Selected(opt, current) ==> r == "<option value=\"" + opt + "\" selected>" + opt + "</option>"
    ensures !Selected(opt, current) ==> r == "<option value=\"" + opt + "\" >" + opt + "</option>"
  {
    "<option value=\"" + opt + "\" " + (if Selected(opt, current) then "selected" else "") + ">" + opt + "</option>"
  }

  /** One tag per list entry, in order. */
  function OptionTags(opts: seq<string>, current: string): (tags: seq<string>)
    ensures |tags| == |opts|
    ensures forall i :: 0 <= i < |opts| ==> tags[i] == OptionTag(opts[i], current)
  {
    seq(|opts|, i requires 0 <= i < |opts| => OptionTag(opts[i], current))
  }

  /** `getLanguageOptions`. */
  function LanguageOptions(current: string): string {
    Concat(OptionTags(LanguageCodes, current))
  }

  /** `getCountryOptions`. */
  function CountryOptions(current: string): string {
    Concat(OptionTags(CountryCodes, current))
  }

  lemma LowerUpper(s: string)
    ensures Lower(Upper(s)) == Lower(s)
  {
  }

  /** The selection, and so the whole list, ignores the case of `current`. */
  lemma OptionsIgnoreCase(opts: seq<string>, current: string)
    ensures OptionTags(opts, current) == OptionTags(opts, Lower(current))
    ensures OptionTags(opts, current) == OptionTags(opts, Upper(current))
  {
    LowerUpper(current);
    LowerOfLowerCase(Lower(current)) by { LowerIsLowerCase(current); }
  }

  /** Two tags of the same option differ exactly in their selection. */
  lemma TagsDifferBySelection(opt: string, c1: string, c2: string)
    ensures OptionTag(opt, c1) == OptionTag(opt, c2) <==> (Selected(opt, c1) <==> Selected(opt, c2))
  {
    var p := "<option value=\"" + opt + "\" ";
    if Selected(opt, c1) && !Selected(opt, c2) {
      assert OptionTag(opt, c1)[|p|] == 's';
      assert OptionTag(opt, c2)[|p|] == '>';
    }
    if !Selected(opt, c1) && Selected(opt, c2) {
      assert OptionTag(opt, c2)[|p|] == 's';
      assert OptionTag(opt, c1)[|p|] == '>';
    }
  }
}
