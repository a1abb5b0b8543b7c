/** Statistics and the error placeholder of the Workers path
    (`workers/utils/stats.ts`). */
module WorkersStats {
  import opened Types
  import Processor
  import opened Wrappers

  /** The counters `calculateStats` returns. */
  datatype Stats = Stats(total: nat, visible: nat, invisible: nat, toolOnly: nat, errors: nat)

  /** `calculateStats`: the number of results and, per status, how many
      results carry it. */
  function CalculateStats(results: seq<ProcessedResult>): (s: Stats)
    ensures s.total == |results|
    ensures s.visible == Processor.CountStatus(results, Visible)
    ensures s.invisible == Processor.CountStatus(results, Invisible)
    ensures s.toolOnly == Processor.CountStatus(results, ToolOnly)
    ensures s.errors == Processor.CountStatus(results, Error)
    ensures s.visible + s.invisible + s.toolOnly + s.errors == s.total
  {
    Processor.CountsSum(results);
    Stats(|results|, Processor.CountStatus(results, Visible), Processor.CountStatus(results, Invisible),
          Processor.CountStatus(results, ToolOnly), Processor.CountStatus(results, Error))
  }

  /** Adding one result raises the total and exactly the counter of its
      status by one. */
  lemma StatsSnoc(results: seq<ProcessedResult>, r: ProcessedResult)
    ensures var before := CalculateStats(results);
            var after := CalculateStats(results + [r]);
            after.total == before.total + 1
            && after.visible == before.visible + (if r.status == Visible then 1 else 0)
            && after.invisible == before.invisible + (if r.status == Invisible then 1 else 0)
            && after.toolOnly == before.toolOnly + (if r.status == ToolOnly then 1 else 0)
            && after.errors == before.errors + (if r.status == Error then 1 else 0)
  {
    Processor.CountStatusSnoc(results, r, Visible);
    Processor.CountStatusSnoc(results, r, Invisible);
    Processor.CountStatusSnoc(results, r, ToolOnly);
    Processor.CountStatusSnoc(results, r, Error);
  }

  /** `createErrorResult(query)`: status ERROR, an empty persona, empty
      lists and every rank and URL absent. */
  function CreateErrorResult(query: string): (r: ProcessedResult)
    ensures r.originalQuery == query && r.personaPrompt == "" && r.status == Error
    ensures Processor.Blank(r)
  {
    ProcessedResult(query, "", Error, [], [], [], [], NotFound, NotFound, NotFound, NotFound)
  }

  /** It is the command-line placeholder with an empty reason. */
  lemma ErrorResultsAgree(query: string)
    ensures CreateErrorResult(query) == Processor.CreateErrorResult(query, Some(""))
  {
  }

  /** Error placeholders count as errors and nothing else. */
  lemma ErrorResultsCounted(queries: seq<string>)
    ensures var rs := seq(|queries|, i requires 0 <= i < |queries| => CreateErrorResult(queries[i]));
            CalculateStats(rs) == Stats(|queries|, 0, 0, 0, |queries|)
  {
    var rs := seq(|queries|, i requires 0 <= i < |queries| => CreateErrorResult(queries[i]));
    AllErrors(rs);
  }

  lemma {:induction false} AllErrors(rs: seq<ProcessedResult>)
    requires forall i :: 0 <= i < |rs| ==> rs[i].status == Error
    ensures Processor.CountStatus(rs, Error) == |rs|
    ensures Processor.CountStatus(rs, Visible) == 0
    ensures Processor.CountStatus(rs, Invisible) == 0
    ensures Processor.CountStatus(rs, ToolOnly) == 0
  {
    if |rs| > 0 {
      AllErrors(rs[..|rs| - 1]);
    }
  }
}
