# ai-visibility-tracker core, modelled in Dafny

ai-visibility-tracker checks whether a target website shows up when AI
assistants answer search queries. For each query it asks an OpenAI model
for a persona prompt. It then runs four searches: GPT without tools, GPT
with web search, Gemini without grounding and Gemini with grounding. It
records the rank at which the target domain appears in each answer, and
classifies the query as visible, tool-only, invisible or error.

The program ships three front ends, and this model covers the core logic
of each:

- the command-line tool under `src/`;
- the Google Apps Script pipeline: `src/gas/pipeline.ts`, its compiled
  form `dist/gas/pipeline.js` (which differs in places), and
  `src/gas/sheet-utils.ts`;
- the Cloudflare Workers service under `workers/`.

The modules follow the source files:

| module | source |
|---|---|
| `Text`, `Json`, `Wrappers`, `Types` | JavaScript string primitives, JSON values and `null`/`undefined`, exceptions, and the constants and records of `src/constants.ts` and `src/types.ts` |
| `Domain`, `Prompt`, `QueryUtils` | `src/domain-utils.ts`, `src/prompt-utils.ts`, `src/query-utils.ts` and their copies in `src/utils.ts` |
| `Serp` | `parseSerpJson` in `src/serp-utils.ts`, `src/utils.ts` and `src/gemini-client.ts` |
| `Grounding` | `extractGeminiGroundingUrls` in `src/gemini-utils.ts` and `src/utils.ts`, and the client's private `extractGroundingUrls` |
| `GeminiCalls` | the reply handling of the two query methods of `src/gemini-client.ts` |
| `Ranking` | the `findRank` variants and the two status classifiers |
| `Processor`, `Output` | `src/processor.ts` and `src/output-formatters.ts` |
| `Sheet`, `Upload` | `src/sheet-detector.ts`, `src/excel-reader.ts`, `workers/core/parser.ts` |
| `GasSheet`, `GasText`, `GasPipeline` | `src/gas/sheet-utils.ts`, `src/gas/pipeline.ts` and `dist/gas/pipeline.js` |
| `WorkersApi`, `WorkersConfig`, `WorkersProcessor`, `WorkersStats` | `workers/utils/api-caller.ts`, `workers/core/config.ts`, `workers/core/processor.ts`, `workers/utils/ranking.ts`, `workers/utils/stats.ts` |

Some source functions exist in several textual copies that differ in
small ways. Each such pair is one Dafny definition with a selector, and
lemmas show the inputs on which the copies disagree:

- `Serp.Copy` tells the shared helpers (`Shared`) from the Gemini
  client's private methods (`GeminiClient`).
- `Sheet.Detector` tells `sheet-detector.ts`, `excel-reader.ts` and
  `parser.ts` apart.
- `GasPipeline.Build` tells `src/gas/pipeline.ts` (`Source`) from
  `dist/gas/pipeline.js` (`Compiled`).

The program's dependencies on the outside world become parameters:

- `new URL(u).hostname` is `host: string -> Option<string>`, where `None`
  means the constructor throws.
- `JSON.parse` is `parse: string -> Option<Json>`.
- A provider or HTTP call is the outcome it produced: a reply, an HTTP
  status and body, or a rejection.
- `shouldCancel` is a function from the row position to a boolean.

JavaScript `null` and `undefined` are `Option<Json>` and `JNull`. Reading a
property of `null` is an exception (`Result.Throw`). `x || y` is `Json.Or`.

## Model

| member | source | states |
|---|---|---|
| `Domain.StripWww` | src/domain-utils.ts:16-20 | one leading "www." is removed, case-sensitively, and the input is unchanged exactly when it does not start with "www." |
| `Domain.NormalizeDomain` | src/domain-utils.ts:13-23 | the result is the lower-cased input, with one "www." dropped exactly when the lower-cased input starts with it; the result has no upper-case letter |
| `Domain.NormalizeIsSuffix` | src/domain-utils.ts:14-20 | the normal form is a suffix of the lower-cased input and never longer than the input |
| `Domain.NormalizeIdentity` | src/domain-utils.ts:14-20 | lower-case input that does not start with "www." is returned unchanged |
| `Domain.NormalizeNotIdempotent` | src/domain-utils.ts:16-20 | "WWW.www.a.com" normalises to "www.a.com" and that to "a.com": only one prefix is removed |
| `Domain.NormalizeTwiceIff` | src/utils.ts:72-82 | normalising twice equals normalising once exactly when the normal form does not itself start with "www." |
| `Domain.NormalizeExample` | src/domain-utils.ts:13-23 | "WWW.Example.COM" normalises to "example.com" |
| `Domain.ExtractDomainFromUrl` | src/domain-utils.ts:31-38 | an unparsable URL gives "", a parsable one gives the normalised hostname; no exception escapes |
| `Domain.IsUrlIff` | src/domain-utils.ts:46-48 | `isUrl` holds exactly when the value starts with "http" or "www.", case-sensitively |
| `Domain.IsUrlExamples` | src/utils.ts:105-107 | "httpfoo" is a URL; "HTTP://x" and "WWW.x" are not |
| `Text.ContainsIff` | src/processor.ts:110-112 | the scanning `includes` holds exactly when the pattern occurs at some position |
| `Text.Trim` | src/query-utils.ts:16 | `trim` drops only leading and trailing white space and leaves a result that neither starts nor ends with white space |
| `Text.TrimIdempotent` | src/query-utils.ts:16 | trimming a trimmed value changes nothing |
| `Text.TrimEmptyIff` | src/excel-reader.ts:146-149 | a value trims to "" exactly when it is all white space |
| `Text.BeforeFirst` | src/gas/sheet-utils.ts:345-346 | `split(sep)[0]` is the longest prefix free of the separator, and it ends where the first separator is |
| `Text.IntToStringNotDash` | src/output-formatters.ts:24 | `String(rank)` of any integer differs from the "-" marker |
| `Prompt.ReplaceAllJsLiteral` | src/prompt-utils.ts:21-22 | for a replacement without "$", the global regular-expression replace is a plain replace-all |
| `Prompt.ReplaceAllAbsent` | src/prompt-utils.ts:21-22 | replacing a pattern that does not occur leaves the text unchanged |
| `Prompt.ReplaceAllConsumesToken` | src/prompt-utils.ts:21 | a leading token is replaced and the scan resumes after it |
| `Prompt.LocationTwice` | src/prompt-utils.ts:21 | the replacement is global: "{location}{location}" becomes the location twice |
| `Prompt.NoTokensUnchanged` | src/prompt-utils.ts:20-22 | a template with neither placeholder is returned unchanged |
| `Prompt.AbsentQueryIsEmpty` | src/prompt-utils.ts:22 | an absent query substitutes the empty string |
| `Prompt.LocationBeforeQuery` | src/prompt-utils.ts:21-22 | the location is substituted first, so a "{query}" inside the location value becomes the query |
| `Prompt.DollarAmpersandKeepsToken` | src/prompt-utils.ts:21 | the replacement "$&" is a JavaScript replacement pattern and reinserts the matched token |
| `Prompt.PlaceholdersLiteral` | src/utils.ts:56-64 | for "$"-free values the result is a literal replace-all of location, then of query |
| `QueryUtils.IsQueryLikeIff` | src/query-utils.ts:15-34 | a value is query-like exactly when its trimmed form has a JavaScript length (UTF-16 code units) of 2 to 200, contains a listed letter and does not start with "http" or "www." |
| `QueryUtils.LengthBounds` | src/query-utils.ts:22-24 | a trimmed value whose JavaScript length (UTF-16 code units) is below 2 or above 200 is never query-like |
| `QueryUtils.Utf16Concat` | src/query-utils.ts:22-24 | the JavaScript length of a concatenation is the sum of the lengths |
| `QueryUtils.AllAstralDoubles` | src/query-utils.ts:22-24 | characters outside the Basic Multilingual Plane count two code units each |
| `QueryUtils.WideCharactersTooLong` | src/query-utils.ts:22-24 | 150 emoji and a letter (151 characters, length 301) are too long to be query-like |
| `Text.Utf16Length` | src/query-utils.ts:22-24 | `length` counts code units: between the character count and twice it, and equal to it for Basic Multilingual Plane text |
| `QueryUtils.NeedsLetter` | src/query-utils.ts:26-29 | without a listed letter a value is never query-like |
| `QueryUtils.UrlNotQuery` | src/query-utils.ts:31 | a trimmed value starting with "http" or "www." is never query-like |
| `QueryUtils.UpperCaseUrlIsQuery` | src/utils.ts:229-248 | the URL test is case-sensitive, so "HTTP://x.com" counts as query-like |
| `QueryUtils.QueryLikeOfTrimmed` | src/query-utils.ts:16 | all checks apply to the trimmed value, so trimming first changes nothing |
| `Serp.SkipWs` | src/serp-utils.ts:29 | the regular expression's `\s*`: the position after all white space that follows |
| `Serp.FindClose` | src/serp-utils.ts:29 | the lazy `.*?` stops at the first "}" that is followed by optional white space and "]" |
| `Serp.FindArray` | src/serp-utils.ts:29 | the match starts at the leftmost position where "[", white space and "{" open an array |
| `Serp.ArrayText` | src/serp-utils.ts:29-32 | a matched text starts with "[" and ends with "]" |
| `Serp.MatchOpensObjectArray` | src/serp-utils.ts:29 | a matched text opens an array whose first element is an object |
| `Serp.DomainOf` | src/serp-utils.ts:42-50 | the shared copy normalises the explicit domain, or the URL's extracted domain; the client copy only strips "www." from an explicit domain and lower-cases then strips the hostname; without a URL the domain is "" |
| `Serp.NormalizeItem` | src/serp-utils.ts:40-57 | a `null` element throws; the url is the first truthy of url, link, href, else ""; an explicit truthy domain wins; a truthy numeric rank is kept and a falsy one becomes 0 |
| `Serp.NormalizeItems` | src/serp-utils.ts:40-57 | one entry per element, in order, and an exception exactly when some element throws |
| `Serp.ParseSerpJson` | src/serp-utils.ts:26-62 | `null` when nothing matches, the matched text does not parse, or the parsed value is not an array; for an array, non-`null` exactly when no element throws, and then the normalised elements in order |
| `Serp.NullItemThrows` | src/serp-utils.ts:41 | a `null` element makes the whole list fail |
| `Serp.ParseSerpJsonValue` | src/utils.ts:116-152 | a non-string or falsy reply text gives `null`; a string is parsed as above |
| `Serp.NonNullIsNonEmpty` | src/serp-utils.ts:29-40 | when the parser keeps the first object of an array, a non-null result is never empty |
| `Serp.NestedArrayCutShort` | src/serp-utils.ts:29 | in `[{"a":[{}]}]` the match ends at the inner "}]", so the text handed to the parser is cut short |
| `Serp.NoArrayIsNull` | src/serp-utils.ts:30-32 | a reply without any "[" gives `null` |
| `Serp.ClientUrlDomainIsExtracted` | src/gemini-client.ts:187-196 | without an explicit domain the client copy derives the same domain as `extractDomainFromUrl` |
| `Serp.CopiesDivergeOnUrlDomain` | src/serp-utils.ts:42-50 | for hostname "WWW.www.a.com" the shared copy records "a.com" and the client copy "www.a.com", because the shared copy normalises twice |
| `Serp.CopiesDivergeOnExplicitDomain` | src/gemini-client.ts:184-196 | an explicit "WWW.Example.COM" becomes "example.com" in the shared copy but stays as given in the client copy |
| `Grounding.ChunkUri` | src/gemini-utils.ts:67 | the URI is taken in the order uri, url, web.uri, web.url; a `null` chunk throws |
| `Grounding.UriDomain` | src/gemini-utils.ts:70-73 | the shared copy skips a URI whose extracted domain is empty; the client skips only an unparsable URI and keeps an empty hostname |
| `Grounding.ChunkEntry` | src/gemini-utils.ts:65-81 | a `null` chunk throws; an entry has rank equal to the chunk's position plus one |
| `Grounding.ChunkEntryFacts` | src/gemini-utils.ts:67-78 | an entry carries a non-empty URI without the redirect marker and its domain; a skipped chunk has no URI, a redirect URI or an unusable domain |
| `Grounding.CollectSound` | src/gemini-utils.ts:65-81 | every collected entry is the entry of the chunk its rank names, and ranks strictly increase |
| `Grounding.CollectComplete` | src/gemini-utils.ts:65-81 | when nothing throws, every entry a chunk yields is collected |
| `Grounding.CollectThrowsIff` | src/gemini-utils.ts:65-81 | the loop throws exactly when some chunk throws |
| `Grounding.Chunks` | src/gemini-utils.ts:43-56 | metadata from `groundingMetadata`, else `grounding_metadata`; the list from the first truthy of `groundingChunks`, `grounding_chunks`, `webSearchQueries`, kept only when it is a non-empty array; nothing otherwise |
| `Grounding.Examined` | src/gemini-utils.ts:60-63 | at most five chunks, and all of them when there are fewer |
| `Grounding.ExtractGroundingUrls` | src/gemini-utils.ts:39-87 | `null` without chunks; otherwise one to five entries with strictly increasing ranks in 1..5, each the entry of the chunk its rank names |
| `Grounding.ExtractComplete` | src/gemini-utils.ts:65-83 | when no examined chunk throws, every entry an examined chunk yields is in the non-null result |
| `Grounding.ThrowingChunkIsNull` | src/gemini-utils.ts:83-86 | an examined chunk that throws makes the result `null` |
| `Grounding.EntriesUsable` | src/utils.ts:161-209 | no entry carries the redirect marker, and each carries the domain its URI yields |
| `Grounding.SharedDomainsNonEmpty` | src/gemini-utils.ts:72-73 | every entry of the shared copy has a non-empty domain |
| `Grounding.ClientKeepsEmptyHostname` | src/gemini-client.ts:150-156 | a URI with an empty hostname is kept by the client copy and skipped by the shared copy |
| `Grounding.RankGap` | src/gemini-utils.ts:74-78 | a redirect chunk followed by a usable one gives a single entry of rank 2 |
| `Grounding.FirstFiveDecide` | src/gemini-utils.ts:60-65 | chunks after the fifth never affect the result |
| `GeminiCalls.ClientPlaceholders` | src/gemini-client.ts:22-26 | the configured location and the query are substituted; a template without placeholders is unchanged |
| `GeminiCalls.QueryWithoutGrounding` | src/gemini-client.ts:31-71 | an SDK failure gives `null`; a reply is parsed with the client's `parseSerpJson` |
| `GeminiCalls.QueryWithGrounding` | src/gemini-client.ts:76-128 | an SDK failure gives `null`; grounding entries win when present, otherwise the reply text is parsed |
| `GeminiCalls.GroundingIgnoresText` | src/gemini-client.ts:117-120 | when grounding yields entries the reply text plays no part |
| `GeminiCalls.AnswersNonEmpty` | src/gemini-client.ts:117-123 | neither method returns an empty list |
| `Ranking.FirstMention` | src/processor.ts:107-118 | the first entry, in list order, whose domain or URL contains the target |
| `Ranking.FindRank` | src/processor.ts:103-119 | the rank is found exactly when some entry's domain or URL contains the target, and then it is the first such entry |
| `Ranking.TargetsDiffer` | src/processor.ts:101 | the command-line target is only lower-cased, the other paths normalise it; the two agree exactly when the lower-cased target does not start with "www." |
| `Ranking.WwwTargetExample` | src/gas/pipeline.ts:93 | for target "www.a.com" an entry with domain "a.com" is found with the normalised target but not with the command-line one |
| `Ranking.FirstRelated` | workers/utils/ranking.ts:9-15 | the first URL-derived domain that contains or is contained in the target |
| `Ranking.FindRankWorkers` | workers/utils/ranking.ts:9-15 | the rank is found exactly when some entry's URL-derived domain is related to the target by containment either way |
| `Ranking.UnparsableUrlMatchesAll` | workers/utils/ranking.ts:11-12 | an entry whose URL does not parse has domain "" and matches every target |
| `Ranking.DomainFieldIgnored` | workers/utils/ranking.ts:11 | entries differing only in their domain field rank identically |
| `Ranking.Classify` | src/processor.ts:127-148 | error exactly when all four lists are `null`; visible exactly when a model-only rank was found; tool-only exactly when only web ranks were found; invisible when nothing was found |
| `Ranking.DetermineStatus` | workers/utils/ranking.ts:17-29 | error whenever the error flag is set; otherwise visible exactly when a model-only rank was found and tool-only exactly when only a web rank was |
| `Ranking.StatusAgreement` | workers/utils/ranking.ts:17-29 | `determineStatus`, given the ranks in its parameter order and "all four null" as the error flag, agrees with the inline classifier of `processQuery` |
| `Processor.CreateErrorResult` | src/processor.ts:178-199 | status error, the given reason or "Processing error" as persona text, empty lists and all eight rank and URL fields "-" |
| `Processor.ProcessQuery` | src/processor.ts:82-169 | a missing or empty persona gives the error result "Failed to generate persona"; otherwise each rank is the first mention of the lower-cased target, a `null` list is stored as [], and the status follows the classifier |
| `Processor.RowResult` | src/processor.ts:52-67 | a thrown row gives the default error result for its query |
| `Processor.UpdateStats` | src/processor.ts:206-223 | `processed` and exactly the counter of the result's status grow by one |
| `Processor.StepStats` | src/processor.ts:59-67 | a thrown row increments `errors` but not `processed` |
| `Processor.CountsSum` | src/processor.ts:206-223 | the four status counts of a result list sum to its length |
| `Processor.ProcessQueries` | src/processor.ts:45-74 | one result per row, in order; the progress report before row i carries i+1, the total and the query; `total` is the row count; each counter is the number of results with that status |
| `Processor.CountersBalance` | src/processor.ts:49-67 | the four counters sum to processed plus thrown rows, and processed never exceeds the row count |
| `Processor.ErrorRowIff` | src/processor.ts:86-89 | a row is an error exactly when it threw, its persona failed or all four searches returned `null` |
| `Output.RankCell` | src/output-formatters.ts:24 | a found rank's cell is never "-" and reads back as that rank's decimal value; a missing rank is "-" |
| `Text.IntToString` | src/output-formatters.ts:24 | `String(n)` is a numeral, digits after an optional "-", whose decimal value is `n` |
| `Text.NatToStringValue` | src/output-formatters.ts:24 | reading the rendered digits back gives the number |
| `Output.DataRow` | src/output-formatters.ts:20-32 | eleven cells in header order: query, persona, upper-cased status and the four rank/URL pairs |
| `Output.ConvertResultsToRows` | src/output-formatters.ts:14-36 | the header row followed by one row per result, in order, each as wide as the header |
| `Output.RankCellDashIff` | src/output-formatters.ts:24-30 | a rank cell is "-" exactly when the rank was not found |
| `Output.ToolOnlyCell` | src/output-formatters.ts:23 | "tool-only" is written as "TOOL-ONLY" |
| `Output.StatusCellIsUpper` | src/output-formatters.ts:23 | the status cell is the upper-cased status name, for every status |
| `Output.StatusCellInjective` | src/output-formatters.ts:23 | distinct statuses give distinct status cells |
| `Sheet.Samples` | src/sheet-detector.ts:21-24 | ten samples, or all rows when there are fewer |
| `Sheet.Passes` | src/sheet-detector.ts:24-33 | one flag per row: whether the cell's text is query-like |
| `Types.RatioCompare` | src/sheet-detector.ts:36-38 | for a positive sample count, comparing the share with 0.7 is comparing `10 * count` with `7 * samples`, for both `>` and `>=` |
| `Sheet.ThresholdIsRatio` | src/sheet-detector.ts:36-38 | the integer test equals "the query-like share of the samples exceeds 0.7" |
| `Sheet.ThresholdBoundary` | src/constants.ts:20 | 7 of 10 samples do not qualify, 8 of 10 do |
| `Sheet.FindQueryColumn` | src/sheet-detector.ts:74-101 | no data throws; a chosen column is a header of the first row and matches by name or by content; none is chosen exactly when no header qualifies either way |
| `Sheet.FindQueryColumnPrecedence` | src/sheet-detector.ts:77-98 | a header-name match wins over any data match, and among data matches the first qualifying column wins |
| `Sheet.FindGscSheet` | src/sheet-detector.ts:44-69 | the first sheet with data whose headers relate to a known header or name a metric; none exactly when no sheet qualifies |
| `Sheet.BlankHeaderMatches` | src/sheet-detector.ts:79-88 | a white-space header trims to "" and matches every known header |
| `Sheet.ContainedHeaderOnlyOnCli` | workers/core/parser.ts:31-35 | a header contained in a known header matches in the command-line detector but not in the Workers parser |
| `Sheet.ExcelTestIsQueryLike` | src/excel-reader.ts:26-34 | the inline cell test of the spreadsheet reader is `isQueryLike` on the trimmed cell |
| `Sheet.ColumnTestsAgree` | src/excel-reader.ts:13-39 | the spreadsheet reader's column test agrees with the detector's |
| `Sheet.ExcelAgreesWithDetector` | src/excel-reader.ts:75-103 | the spreadsheet reader's column choice equals the detector's for every sheet |
| `Upload.SelectSheet` | src/excel-reader.ts:110-118 | the first qualifying sheet when its name is non-empty, otherwise the first sheet |
| `Upload.KeepNonEmpty` | src/excel-reader.ts:143-153 | kept rows have non-empty queries, increasing row numbers, and row number = data index + 2 |
| `Upload.ExtractQueries` | src/excel-reader.ts:143-153 | each extracted row holds the trimmed cell of the data row its number names, in sheet order |
| `Upload.ExtractComplete` | src/excel-reader.ts:143-153 | every row with a non-empty trimmed query is extracted |
| `Upload.RowIndexIdentifiesRow` | src/excel-reader.ts:150 | no two extracted rows share a row number |
| `Upload.ExtractedAreTrimmed` | src/excel-reader.ts:145-149 | every extracted query is already trimmed |
| `Upload.ReadExcelFile` | src/excel-reader.ts:105-168 | no sheet, an empty sheet, no query column and no queries each fail with their own message behind "Failed to read Excel file: "; with a detected column and some queries, exactly the extracted rows |
| `Upload.ParseUploadedFile` | workers/core/parser.ts:42-54 | an empty sheet or a missing query column throws; with a detected column, exactly the extracted rows (possibly none) |
| `Upload.BlankColumnDiffers` | workers/core/parser.ts:47-53 | for a blank query column the spreadsheet reader throws "no queries" while the Workers parser returns an empty list |
| `GasSheet.ValidateConfig` | src/gas/sheet-utils.ts:336-341 | succeeds exactly when all four settings are present, and otherwise names the first missing one in the order OpenAI key, Gemini key, target domain, location |
| `GasSheet.EnsureConfigReady` | src/gas/sheet-utils.ts:277-290 | ready exactly when nothing is missing, else a message listing what is |
| `GasSheet.ReadyIffValid` | src/gas/sheet-utils.ts:277-290 | the readiness check and `validateConfig` accept the same configurations |
| `GasSheet.CityFromLocation` | src/gas/sheet-utils.ts:343-347 | "" for "", otherwise a trimmed comma-free part of the location |
| `GasSheet.CityOfComma` | src/gas/sheet-utils.ts:345-346 | with a comma, the trimmed text before the first one, whatever follows |
| `GasSheet.CityExample` | src/gas/sheet-utils.ts:343-347 | "Vienna, Austria" gives "Vienna" |
| `GasSheet.CityWithoutComma` | src/gas/sheet-utils.ts:345-346 | a location without a comma gives its trimmed text |
| `GasSheet.NormalizeOutputRow` | src/gas/sheet-utils.ts:121-126 | exactly 17 cells; empty or missing cells become "" and others are kept; extra cells are dropped |
| `GasSheet.NormalizeOutputRowIdempotent` | src/gas/sheet-utils.ts:121-126 | normalising a normalised row changes nothing |
| `GasSheet.NormalizeKeepsPrefix` | src/gas/sheet-utils.ts:121-126 | a row with 17 filled leading cells is cut to them |
| `GasSheet.BuildEmptyRow` | src/gas/sheet-utils.ts:128-148 | the query at cell 0, "pending" at cell 3, "-" in cells 4 to 11 and "" elsewhere |
| `GasSheet.EmptyRowIsPending` | src/gas/sheet-utils.ts:128-148 | a fresh row has an empty status cell |
| `GasSheet.GridHeaders` | src/gas/sheet-utils.ts:207 | each header is the lower-cased text of its cell, "" for an empty cell |
| `GasSheet.BestColumn` | src/gas/sheet-utils.ts:220-236 | -1 exactly when no column reaches the threshold; otherwise a qualifying column with the highest count, the leftmost among ties |
| `GasSheet.FindGridQueryColumn` | src/gas/sheet-utils.ts:204-239 | -1 for no data; a header match wins; otherwise the fallback by content |
| `GasSheet.EmptyHeaderMatches` | src/gas/sheet-utils.ts:209-218 | an empty header is contained in every known header |
| `GasSheet.SevenOfTenQualifies` | src/gas/sheet-utils.ts:231-233 | the Apps Script test is at least 0.7, so 7 of 10 qualify here where the command-line test rejects them |
| `GasSheet.TieGoesLeft` | src/gas/sheet-utils.ts:231-234 | among equally good columns the leftmost is chosen |
| `GasSheet.QualifiesIsRatio` | src/gas/sheet-utils.ts:231-233 | the integer test equals "the query-like share is at least 0.7" |
| `GasSheet.OptionTags` | src/gas/sheet-utils.ts:292-334 | one option per list entry, in order, marked selected exactly when it equals the current value ignoring case |
| `GasSheet.OptionsIgnoreCase` | src/gas/sheet-utils.ts:292-334 | the options do not depend on the case of the current value |
| `GasSheet.TagsDifferBySelection` | src/gas/sheet-utils.ts:292-334 | two options agree exactly when both or neither are selected |
| `GasText.HttpPostJson` | src/gas/pipeline.ts:283-304 | a status of 300 or more throws "HTTP code: body"; otherwise the body is parsed, and a body that does not parse throws |
| `GasText.HttpFailureDistinct` | src/gas/pipeline.ts:300-303 | an HTTP failure is never reported as a parse failure |
| `GasText.ChatContent` | dist/gas/pipeline.js:231-238 | `null` throws; otherwise the message content when truthy, else "" |
| `GasText.PartsText` | src/gas/pipeline.ts:306-310 | the concatenated part texts; a `null` part throws |
| `GasText.ExtractTextFromGemini` | src/gas/pipeline.ts:306-310 | a `null` reply throws; a reply without parts gives "" |
| `GasText.ResponseTextFirstItem` | src/gas/pipeline.ts:203-207 | a truthy `output_text`, else a truthy `output[0].content[0].text`, else ""; a `null` reply throws |
| `GasText.ItemText` | dist/gas/pipeline.js:270-294 | an item's text, when present, is never blank |
| `GasText.ExtractOpenAIResponseText` | dist/gas/pipeline.js:270-294 | "" for a missing reply; `output_text` when truthy; otherwise the text of the first output item that has non-blank text |
| `GasText.ExtractorsDiffer` | dist/gas/pipeline.js:270-294 | on a reply whose text is in the second item, the source build finds "" and the compiled build finds the text |
| `GasText.SerializeResults` | src/gas/pipeline.ts:319-322 | "" exactly for a `null` or empty list; otherwise the first entry's "rank: url" line, then a newline and the rest serialised the same way |
| `GasPipeline.CallOpenAIChat` | dist/gas/pipeline.js:231-238 | throws exactly when the request throws or returns `null`; otherwise the chat content |
| `GasPipeline.GeneratePersona` | dist/gas/pipeline.js:154-165 | empty content throws; a persona is always truthy content |
| `GasPipeline.QueryOpenAINoTools` | src/gas/pipeline.ts:156-174 | throws exactly when the chat call throws; a string reply is parsed, anything else gives `null` |
| `GasPipeline.QueryOpenAIWithTools` | src/gas/pipeline.ts:176-208 | a request failure is passed on; only the source build also throws on a `null` reply |
| `GasPipeline.QueryGeminiNoGrounding` | src/gas/pipeline.ts:210-228 | a request failure is passed on; otherwise the candidate text is parsed |
| `GasPipeline.QueryGeminiWithGrounding` | src/gas/pipeline.ts:230-251 | grounding entries win when present, otherwise the candidate text is parsed; a `null` reply throws |
| `GasPipeline.RunMatrix` | src/gas/pipeline.ts:148-154 | the four searches succeed exactly when each of them does |
| `GasPipeline.Summarize` | src/gas/pipeline.ts:105-130 | each rank is `findRank` of its own list and each list cell its serialisation; error exactly when all four lists are `null`, otherwise visible, tool-only and invisible as the classifier says |
| `GasPipeline.ProcessRow` | src/gas/pipeline.ts:92-131 | the row throws exactly when the persona or a search throws; a result is the summary of the persona and the four search results against the normalised target domain |
| `GasPipeline.ProcessRowIncremental` | dist/gas/pipeline.js:100-152 | six snapshots on success, the last equal to the result; fewer on failure; every intermediate snapshot is in progress |
| `GasPipeline.IncrementalAgrees` | dist/gas/pipeline.js:141-150 | the incremental row ends in the same state as the one-shot row |
| `GasPipeline.LaterRepliesIrrelevant` | dist/gas/pipeline.js:110-136 | once a call throws, the replies to later calls do not matter and the row throws |
| `GasPipeline.BuildRowValues` | dist/gas/pipeline.js:10-28 | 17 values, none empty after the query |
| `GasPipeline.RowRoundTrip` | dist/gas/pipeline.js:10-28 | the row state can be read back from the values it was written as |
| `GasPipeline.ErrorRowIsPending` | src/gas/pipeline.ts:60-83 | an error row is picked up again by the next batch |
| `GasPipeline.FinishedRowPendingIff` | src/gas/pipeline.ts:25-28 | a finished row is pending again exactly when its status is error |
| `GasPipeline.PendingIndicesComplete` | src/gas/pipeline.ts:25-28 | every row with an empty or "error" status is selected |
| `GasPipeline.SliceFront` | src/gas/pipeline.ts:28 | `slice(0, n)` keeps n rows, and for negative n drops the last -n rows |
| `GasPipeline.PendingRows` | src/gas/pipeline.ts:25-28 | the first `batchSize` pending rows in sheet order (all when fewer; JS `slice` for a negative size) |
| `GasPipeline.LargeBatchSelectsAll` | src/gas/pipeline.ts:25-28 | with a large enough batch every pending row is selected |
| `GasPipeline.FinalWrites` | dist/gas/pipeline.js:48-76 | a 17-cell row and a status whose text is the row's status cell |
| `GasPipeline.PartialWrites` | dist/gas/pipeline.js:48-51 | one normalised row write per snapshot |
| `GasPipeline.RowWrites` | src/gas/pipeline.ts:37-83 | the row is marked processing, then written, and every write goes to the row's own sheet row |
| `GasPipeline.SelectedRowOutcome` | src/gas/pipeline.ts:37-83 | the k-th selected row ends with the writes of its result and counts as a failure exactly when its processing threw |
| `GasPipeline.RunBatch` | src/gas/pipeline.ts:30-89 | cancellation before a row throws "Run cancelled" and leaves the rows before it written; otherwise every row is done and the failures are counted |
| `GasPipeline.ProcessBatch` | src/gas/pipeline.ts:19-90 | the run completes exactly when no check cancels it; then done is the number of selected rows and errors the number that threw, so errors ≤ done ≤ batch size |
| `WorkersApi.SafeApiCall` | workers/utils/api-caller.ts:19-29 | a resolved non-null value is returned unchanged; a rejection or `null` gives the default |
| `WorkersApi.ParallelApiCalls` | workers/utils/api-caller.ts:35-37 | one result per call, in order, each the safe result of its call |
| `WorkersApi.SafeApiCallIsValueOrDefault` | workers/utils/api-caller.ts:23-28 | the result is the call's value or the default |
| `WorkersApi.FailureIsIsolated` | workers/utils/api-caller.ts:35-37 | a failing call changes only its own position |
| `WorkersApi.AllResolvedYieldValues` | workers/utils/api-caller.ts:35-37 | when every call resolves with a value the results are exactly those values |
| `WorkersConfig.LoadConfig` | workers/core/config.ts:17-42 | a missing key throws; otherwise the keys are copied and every other field is its override, or its default when absent or empty |
| `WorkersConfig.ValidateConfig` | workers/core/config.ts:44-46 | throws exactly when a key is empty |
| `WorkersConfig.LoadedConfigValidates` | workers/core/config.ts:17-46 | a loaded configuration passes validation |
| `WorkersConfig.LoadRoundTrip` | workers/core/config.ts:24-31 | loading a loaded configuration's values again gives it back |
| `WorkersConfig.NoOverridesDefaults` | workers/core/config.ts:27-31 | without overrides the domain and location are "", the language "en" and the models "gpt-5-mini" and "gemini-2.5-flash" |
| `WorkersConfig.TargetDomainVerbatim` | workers/core/config.ts:27 | the target domain is kept as given |
| `WorkersProcessor.ProcessQuery` | workers/core/processor.ts:16-73 | a missing persona throws "Persona generation failed" before any search; otherwise the four lists are the safe results of the four calls, and the status is never error: visible exactly when a model-only rank was found, tool-only exactly when only a web rank was |
| `WorkersProcessor.FailedSearchIsEmpty` | workers/core/processor.ts:32-37 | a failed search is recorded as an empty list |
| `WorkersProcessor.AllFailedIsInvisible` | workers/core/processor.ts:52-53 | when all four searches fail the status is invisible, not error |
| `WorkersProcessor.PersonaFailureStopsQuery` | workers/core/processor.ts:26-28 | after a persona failure the search outcomes do not matter |
| `WorkersProcessor.RanksFromLists` | workers/core/processor.ts:47-72 | each rank is looked up in its own list with the normalised target |
| `WorkersStats.CalculateStats` | workers/utils/stats.ts:9-15 | total is the result count, each counter the number of results with that status, and the counters sum to total |
| `WorkersStats.StatsSnoc` | workers/utils/stats.ts:9-15 | one more result raises total and exactly its status's counter |
| `WorkersStats.CreateErrorResult` | workers/utils/stats.ts:17-33 | status error, an empty persona, empty lists and all rank and URL fields "-" |
| `WorkersStats.ErrorResultsAgree` | workers/utils/stats.ts:17-33 | it is the command-line error result with an empty reason |
| `WorkersStats.AllErrors` | workers/utils/stats.ts:11-14 | a list of error results counts only errors |

## Left out

- Provider SDK and HTTP transport (OpenAI, Gemini, fetch, `UrlFetchApp`): a call is the reply or failure it produced. Prompts and request bodies are not modelled, so the query text does not influence the replies.
- `new URL` and `JSON.parse` are foreign library code. They are the parameters `host` and `parse`, and JSON numbers are integers.
- Case mapping is ASCII-only. `trim` and `\s` use the ECMAScript white-space set by code point. String lengths compared against limits are JavaScript lengths in UTF-16 code units (`Text.Utf16Length`).
- Concurrency: `Promise.all` is an ordered sequence of outcomes. Server-sent events, logging, `sleep`, rate-limit delays and the unused queue are left out.
- Spreadsheet, Apps Script, file and console I/O are left out: `readSettings`, `ensureSheets`, `writeLog`, `findDataSheet`, `seedResultsFromQueries`, sheet reads, the CLI handlers and the output writers. Sheet writes are a list of `SheetWrite` records.
- The colours chosen by `setRowStatus` are left out; only the status text of that write is modelled.
- `generateOutputFilename` is left out because it reads the clock.
- Config loading from `.env`/TOML and the LLM-based config detector are left out (I/O and a network call).
- `getStats` returns a copy of the counters, which `ProcessQueries` returns directly.
- Sheet names are assumed unique. A workbook with no sheet is an exception (`Upload.ReadExcelFile`, `Upload.ParseUploadedFile`).
- Serp.NormalizeItem: a truthy `url`/`link`/`href` that is not a string makes the element throw, which makes the whole list `null`; the source would keep the raw value.
- Grounding.ChunkEntry: a truthy chunk URI that is not a string throws likewise; the source would call `includes` on it.
- Sheet.Cell: a spreadsheet cell holds text, an integer, a boolean or nothing. Fractional numbers and Date cells are not modelled. Their `String()` text can contain letters ("1e-7", "Mon Oct 10 …"), so in the source a column of such cells can count as query-like during column detection, while the model cannot express it.
- Serp.RankOrZero: a truthy rank that is not a number becomes 0, where the source keeps the raw value.
- GasPipeline.GeneratePersona: non-string truthy content becomes its `String()` text through `Json.JsString`, which covers only strings, numbers, booleans and `null` exactly.
- GasText.HttpPostJson: the message of a `JSON.parse` failure is the fixed text "SyntaxError" (`GasText.ParseErrorMessage`).
- GasPipeline.BuildRowValues: the state's error field is not modelled, so the last cell is always "". An error row carries its message through `GasPipeline.ErrorRow`.
- GasPipeline.ProcessBatch: `shouldCancel` and the replies depend only on the position of the row in the batch.
