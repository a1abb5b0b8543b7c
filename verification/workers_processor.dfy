/** `processQuery` of the Workers path (`workers/core/processor.ts`): the
    persona, then the four searches through `parallelApiCalls` with `[]` as
    every default, then Workers ranking and `determineStatus`. Streaming
    events are left out; each provider call is an input saying how its
    promise settled. */
module WorkersProcessor {
  import opened Wrappers
  import opened Types
  import opened Domain
  import opened Ranking
  import opened WorkersApi

  /** How the five provider calls of one query settled. */
  datatype QueryReplies = QueryReplies(
    persona: Option<string>,
    gptNo: CallOutcome<seq<SerpResult>>, gptWeb: CallOutcome<seq<SerpResult>>,
    gemNo: CallOutcome<seq<SerpResult>>, gemWeb: CallOutcome<seq<SerpResult>>)

  const PersonaFailedMessage: string := "Persona generation failed"

  /** The four calls of the matrix, each defaulting to `[]`. */
  function Calls(rep: QueryReplies): (cs: seq<ApiCall<seq<SerpResult>>>)
    ensures |cs| == 4
    ensures forall i :: 0 <= i < 4 ==> cs[i].defaultValue == []
  {
    [ApiCall("GPT_NoTools", rep.gptNo, []), ApiCall("GPT_WithTools", rep.gptWeb, []),
     ApiCall("Gemini_NoGrounding", rep.gemNo, []), ApiCall("Gemini_WithGrounding", rep.gemWeb, [])]
  }

  /** `processQuery`: a missing or empty persona throws before any search;
      otherwise the four settled lists are ranked against the normalised
      target. A JavaScript array is truthy even when empty, so the error
      flag `!a && !b && !c && !d` is always false. */
  function ProcessQuery(query: QueryRow, cfg: Config, rep: QueryReplies, host: string -> Option<string>)
    : (r: Result<ProcessedResult>)
    ensures r.Throw? <==> rep.persona.None? || rep.persona.value == ""
    ensures r.Throw? ==> r.message == PersonaFailedMessage
    ensures r.Ok? ==> r.value.originalQuery == query.query && r.value.personaPrompt == rep.persona.value
    ensures r.Ok? ==> var lists := ParallelApiCalls(Calls(rep));
                      r.value.gptNoToolResults == lists[0] && r.value.gptWithToolResults == lists[1]
                      && r.value.gemNoGroundingResults == lists[2] && r.value.gemWithGroundingResults == lists[3]
    ensures r.Ok? ==> r.value.status != Error
    ensures r.Ok? ==> (r.value.status == Visible <==> r.value.gpt.Found? || r.value.gem.Found?)
    ensures r.Ok? ==> (r.value.status == ToolOnly <==>
                         r.value.gpt.NotFound? && r.value.gem.NotFound? && (r.value.gptWeb.Found? || r.value.gemWeb.Found?))
  {
    if rep.persona.None? || rep.persona.value == "" then Throw(PersonaFailedMessage)
    else
      var lists := ParallelApiCalls(Calls(rep));
      var target := NormalizeDomain(cfg.targetDomain);
      var gpt := FindRankWorkers(host, lists[0], target);
      var gptWeb := FindRankWorkers(host, lists[1], target);
      var gem := FindRankWorkers(host, lists[2], target);
      var gemWeb := FindRankWorkers(host, lists[3], target);
      var hasError := false;
      var status := DetermineStatus(gpt, gem, gptWeb, gemWeb, hasError);
      Ok(ProcessedResult(query.query, rep.persona.value, status, lists[0], lists[1], lists[2], lists[3],
                         gpt, gptWeb, gem, gemWeb))
  }

  // ---- properties ----

  /** A failed search contributes an empty list and no rank. */
  lemma FailedSearchIsEmpty(query: QueryRow, cfg: Config, rep: QueryReplies, host: string -> Option<string>,
                            error: string)
    requires rep.persona.Some? && rep.persona.value != ""
    ensures var r := ProcessQuery(query, cfg, rep.(gptNo := Rejected(error)), host);
            r.Ok? && r.value.gptNoToolResults == [] && r.value.gpt == NotFound
  {
    var rep' := rep.(gptNo := Rejected(error));
    assert ParallelApiCalls(Calls(rep'))[0] == [];
  }

  /** Even when all four searches fail the query is not an error: it is
      invisible. */
  lemma AllFailedIsInvisible(query: QueryRow, cfg: Config, persona: string, host: string -> Option<string>,
                             e1: string, e2: string, e3: string, e4: string)
    requires persona != ""
    ensures ProcessQuery(query, cfg, QueryReplies(Some(persona), Rejected(e1), Rejected(e2), Rejected(e3), Rejected(e4)), host)
              .value.status == Invisible
  {
    var rep := QueryReplies(Some(persona), Rejected(e1), Rejected(e2), Rejected(e3), Rejected(e4));
    var lists := ParallelApiCalls(Calls(rep));
    assert lists[0] == [] && lists[1] == [] && lists[2] == [] && lists[3] == [];
  }

  /** A failed persona decides the query whatever the searches did. */
  lemma PersonaFailureStopsQuery(query: QueryRow, cfg: Config, a: QueryReplies, b: QueryReplies,
                                 host: string -> Option<string>)
    requires a.persona == b.persona && (a.persona.None? || a.persona.value == "")
    ensures ProcessQuery(query, cfg, a, host) == ProcessQuery(query, cfg, b, host)
  {
  }

  /** The ranks are those of the Workers `findRank` against the
      normalised target, each for its own list. */
  lemma RanksFromLists(query: QueryRow, cfg: Config, rep: QueryReplies, host: string -> Option<string>)
    requires rep.persona.Some? && rep.persona.value != ""
    ensures var r := ProcessQuery(query, cfg, rep, host).value;
            var target := NormalizeDomain(cfg.targetDomain);
            r.gpt == FindRankWorkers(host, r.gptNoToolResults, target)
            && r.gptWeb == FindRankWorkers(host, r.gptWithToolResults, target)
            && r.gem == FindRankWorkers(host, r.gemNoGroundingResults, target)
            && r.gemWeb == FindRankWorkers(host, r.gemWithGroundingResults, target)
  {
  }
}
