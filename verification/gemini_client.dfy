/** The query methods of the command-line Gemini client. The SDK call is
    an input: either the reply (its JSON response and its text) or a
    failure standing for any exception the SDK, or `response.text()`,
    raises. */
module GeminiCalls {
  import opened Wrappers
  import opened Text
  import opened Json
  import opened Types
  import opened Prompt
  import opened Serp
  import opened Grounding

  datatype SdkOutcome = Reply(response: Json, text: string) | SdkFailure

  /** The client's private `replacePromptPlaceholders(prompt, query)`: the
      configured location first, then the query. */
  function ClientPlaceholders(cfg: Config, prompt: string, query: Option<string>): (r: string)
    ensures !Contains(prompt, LocationToken) && !Contains(prompt, QueryToken) ==> r == prompt
    ensures '$' !in cfg.userLocation && (query.Some? ==> '$' !in query.value)
            ==> r == ReplaceAll(ReplaceAll(prompt, LocationToken, cfg.userLocation), QueryToken,
                                if query.Some? then query.value else "")
  {
    PlaceholderFacts(prompt, cfg.userLocation, query);
    ReplacePromptPlaceholders(prompt, cfg.userLocation, query)
  }

  lemma PlaceholderFacts(prompt: string, location: string, query: Option<string>)
    ensures !Contains(prompt, LocationToken) && !Contains(prompt, QueryToken)
            ==> ReplacePromptPlaceholders(prompt, location, query) == prompt
    ensures '$' !in location && (query.Some? ==> '$' !in query.value)
            ==> ReplacePromptPlaceholders(prompt, location, query)
                == ReplaceAll(ReplaceAll(prompt, LocationToken, location), QueryToken,
                              if query.Some? then query.value else "")
  {
    if !Contains(prompt, LocationToken) && !Contains(prompt, QueryToken) {
      NoTokensUnchanged(prompt, location, query);
    }
    if '$' !in location {
      if query.None? {
        PlaceholdersLiteral(prompt, location, "");
        AbsentQueryIsEmpty(prompt, location);
      } else if '$' !in query.value {
        PlaceholdersLiteral(prompt, location, query.value);
      }
    }
  }

  /** The prompt sent for a search without grounding. */
  function NoGroundingPrompt(cfg: Config, persona: string): string {
    ClientPlaceholders(cfg, cfg.prompts.geminiNoGrounding, Some(persona))
  }

  /** The prompt sent for a grounded search. */
  function GroundingPrompt(cfg: Config, persona: string): string {
    ClientPlaceholders(cfg, cfg.prompts.geminiWithGrounding, Some(persona))
  }

  /** `queryWithoutGrounding`: the reply text through the client's own
      parser; `null` on any failure. */
  function QueryWithoutGrounding(outcome: SdkOutcome, parse: string -> Option<Json>, host: string -> Option<string>)
    : (r: Option<seq<SerpResult>>)
    ensures outcome.SdkFailure? ==> r.None?
    ensures outcome.Reply? ==> r == ParseSerpJson(GeminiClient, outcome.text, parse, host)
  {
    match outcome
    case SdkFailure => None
    case Reply(_, text) => ParseSerpJson(GeminiClient, text, parse, host)
  }

  /** `queryWithGrounding`: grounding metadata first, the reply text as a
      fallback; `null` on any failure. */
  function QueryWithGrounding(outcome: SdkOutcome, parse: string -> Option<Json>, host: string -> Option<string>)
    : (r: Option<seq<SerpResult>>)
    ensures outcome.SdkFailure? ==> r.None?
    ensures outcome.Reply? && ExtractGroundingUrls(GeminiClient, host, outcome.response).Some?
            ==> r == ExtractGroundingUrls(GeminiClient, host, outcome.response)
    ensures outcome.Reply? && ExtractGroundingUrls(GeminiClient, host, outcome.response).None?
            ==> r == ParseSerpJson(GeminiClient, outcome.text, parse, host)
  {
    match outcome
    case SdkFailure => None
    case Reply(response, text) =>
      var g := ExtractGroundingUrls(GeminiClient, host, response);
      if g.Some? && |g.value| > 0 then g else ParseSerpJson(GeminiClient, text, parse, host)
  }

  // ---- properties ----

  /** When grounding yields results the reply text is never read. */
  lemma GroundingIgnoresText(response: Json, t1: string, t2: string,
                             parse: string -> Option<Json>, host: string -> Option<string>)
    requires ExtractGroundingUrls(GeminiClient, host, response).Some?
    ensures QueryWithGrounding(Reply(response, t1), parse, host) == QueryWithGrounding(Reply(response, t2), parse, host)
  {
  }

  /** A non-null answer of either method is a non-empty list, given a JSON
      parser that keeps the first object of an array. */
  lemma AnswersNonEmpty(outcome: SdkOutcome, parse: string -> Option<Json>, host: string -> Option<string>)
    requires ParserKeepsFirstObject(parse)
    ensures QueryWithoutGrounding(outcome, parse, host).Some? ==> |QueryWithoutGrounding(outcome, parse, host).value| > 0
    ensures QueryWithGrounding(outcome, parse, host).Some? ==> |QueryWithGrounding(outcome, parse, host).value| > 0
  {
    if outcome.Reply? {
      if ParseSerpJson(GeminiClient, outcome.text, parse, host).Some? {
        NonNullIsNonEmpty(GeminiClient, outcome.text, parse, host);
      }
    }
  }
}
