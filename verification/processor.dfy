/** `VisibilityProcessor` of the command line: one query through persona
    generation, the four searches, ranking and classification; the loop
    over all queries with its statistics. Provider calls are inputs: the
    persona (`None` for `null`), the four adapter results (`None` for
    `null`; the adapters catch their own errors), or a crash standing for an
    exception out of `processQuery`. */
module Processor {
  import opened Wrappers
  import opened Text
  import opened Types
  import opened Ranking

  /** What the providers did for one row. */
  datatype RowOutcome =
    | Replies(persona: Option<string>,
              gptNo: Option<seq<SerpResult>>, gptWeb: Option<seq<SerpResult>>,
              gemNo: Option<seq<SerpResult>>, gemWeb: Option<seq<SerpResult>>)
    | Crash

  /** One call of the progress callback. */
  datatype Progress = Progress(current: nat, total: nat, query: string)

  const PersonaFailure: string := "Failed to generate persona"
  const DefaultErrorReason: string := "Processing error"

  /** The result carries no data: every list empty and every rank absent. */
  predicate Blank(r: ProcessedResult) {
    r.gptNoToolResults == [] && r.gptWithToolResults == []
    && r.gemNoGroundingResults == [] && r.gemWithGroundingResults == []
    && r.gpt.NotFound? && r.gptWeb.NotFound? && r.gem.NotFound? && r.gemWeb.NotFound?
  }

  /** `createErrorResult(query, reason = 'Processing error')`. */
  function CreateErrorResult(query: string, reason: Option<string>): (r: ProcessedResult)
    ensures r.status == Error && Blank(r) && r.originalQuery == query
    ensures r.personaPrompt == (if reason.Some? then reason.value else DefaultErrorReason)
  {
    ProcessedResult(query, reason.GetOr(DefaultErrorReason), Error, [], [], [], [],
                    NotFound, NotFound, NotFound, NotFound)
  }

  /** `processQuery` for a row whose provider calls did not crash. */
  function ProcessQuery(query: string, targetDomain: string, persona: Option<string>,
                        gptNo: Option<seq<SerpResult>>, gptWeb: Option<seq<SerpResult>>,
                        gemNo: Option<seq<SerpResult>>, gemWeb: Option<seq<SerpResult>>): (r: ProcessedResult)
    ensures r.originalQuery == query
    // a missing or empty persona stops the row before any search
    ensures persona.None? || persona.value == "" ==>
              r.status == Error && r.personaPrompt == PersonaFailure && Blank(r)
    ensures persona.Some? && persona.value != "" ==>
              var target := CliTarget(targetDomain);
              r.personaPrompt == persona.value
              && r.gpt == FindRank(gptNo, target) && r.gptWeb == FindRank(gptWeb, target)
              && r.gem == FindRank(gemNo, target) && r.gemWeb == FindRank(gemWeb, target)
              && r.gptNoToolResults == gptNo.GetOr([]) && r.gptWithToolResults == gptWeb.GetOr([])
              && r.gemNoGroundingResults == gemNo.GetOr([]) && r.gemWithGroundingResults == gemWeb.GetOr([])
              && (r.status == Error <==> gptNo.None? && gptWeb.None? && gemNo.None? && gemWeb.None?)
              && r.status == Classify(gptNo.None? && gptWeb.None? && gemNo.None? && gemWeb.None?,
                                      r.gpt, r.gptWeb, r.gem, r.gemWeb)
  {
    if persona.None? || persona.value == "" then CreateErrorResult(query, Some(PersonaFailure))
    else
      var target := CliTarget(targetDomain);
      var r1, r2, r3, r4 := FindRank(gptNo, target), FindRank(gptWeb, target),
                            FindRank(gemNo, target), FindRank(gemWeb, target);
      var allNull := gptNo.None? && gptWeb.None? && gemNo.None? && gemWeb.None?;
      ProcessedResult(query, persona.value, Classify(allNull, r1, r2, r3, r4),
                      gptNo.GetOr([]), gptWeb.GetOr([]), gemNo.GetOr([]), gemWeb.GetOr([]),
                      r1, r2, r3, r4)
  }

  /** The result recorded for one row, whatever happened. */
  function RowResult(row: QueryRow, targetDomain: string, outcome: RowOutcome): (r: ProcessedResult)
    ensures r.originalQuery == row.query
    ensures outcome.Crash? ==> r == CreateErrorResult(row.query, None)
  {
    match outcome
    case Crash => CreateErrorResult(row.query, None)
    case Replies(p, a, b, c, d) => ProcessQuery(row.query, targetDomain, p, a, b, c, d)
  }

  /** The counter of a statistics record that a status feeds. */
  function Counter(s: ProcessingStats, st: Status): nat {
    match st
    case Visible => s.visible
    case Invisible => s.invisible
    case ToolOnly => s.toolOnly
    case Error => s.errors
  }

  /** `updateStats`: one more processed result, and one more in exactly the
      counter of its status. */
  function UpdateStats(s: ProcessingStats, result: ProcessedResult): (r: ProcessingStats)
    ensures r.total == s.total && r.processed == s.processed + 1
    ensures Counter(r, result.status) == Counter(s, result.status) + 1
    ensures forall st :: st != result.status ==> Counter(r, st) == Counter(s, st)
  {
    var s' := s.(processed := s.processed + 1);
    match result.status
    case Visible => s'.(visible := s.visible + 1)
    case Invisible => s'.(invisible := s.invisible + 1)
    case ToolOnly => s'.(toolOnly := s.toolOnly + 1)
    case Error => s'.(errors := s.errors + 1)
  }

  /** The statistics after a crashed row: one more error, nothing processed. */
  function CountCrash(s: ProcessingStats): (r: ProcessingStats)
    ensures r.processed == s.processed && Counter(r, Error) == Counter(s, Error) + 1
    ensures forall st :: st != Error ==> Counter(r, st) == Counter(s, st)
  {
    s.(errors := s.errors + 1)
  }

  /** The statistics after one row of the loop. */
  function StepStats(s: ProcessingStats, outcome: RowOutcome, result: ProcessedResult): (r: ProcessingStats)
    requires outcome.Crash? ==> result.status == Error
    ensures r.total == s.total
    ensures r.processed == s.processed + (if outcome.Crash? then 0 else 1)
    ensures forall st :: Counter(r, st) == Counter(s, st) + (if result.status == st then 1 else 0)
  {
    if outcome.Crash? then CountCrash(s) else UpdateStats(s, result)
  }

  /** How many results have status `st`. */
  function CountStatus(rs: seq<ProcessedResult>, st: Status): (n: nat)
    ensures n <= |rs|
  {
    if |rs| == 0 then 0
    else CountStatus(rs[..|rs| - 1], st) + (if rs[|rs| - 1].status == st then 1 else 0)
  }

  /** How many outcomes are crashes. */
  function CountCrashes(os: seq<RowOutcome>): (n: nat)
    ensures n <= |os|
  {
    if |os| == 0 then 0
    else CountCrashes(os[..|os| - 1]) + (if os[|os| - 1].Crash? then 1 else 0)
  }

  lemma CountStatusSnoc(rs: seq<ProcessedResult>, r: ProcessedResult, st: Status)
    ensures CountStatus(rs + [r], st) == CountStatus(rs, st) + (if r.status == st then 1 else 0)
  {
    assert (rs + [r])[..|rs|] == rs;
  }

  lemma CountCrashesSnoc(os: seq<RowOutcome>, i: nat)
    requires i < |os|
    ensures CountCrashes(os[..i + 1]) == CountCrashes(os[..i]) + (if os[i].Crash? then 1 else 0)
  {
    assert os[..i + 1][..i] == os[..i];
  }

  /** Counting one more result keeps every counter equal to its start
      value plus the results of that status. */
  lemma StepKeepsCounts(stats0: ProcessingStats, stats: ProcessingStats, results: seq<ProcessedResult>,
                        outcome: RowOutcome, result: ProcessedResult)
    requires outcome.Crash? ==> result.status == Error
    requires forall st :: Counter(stats, st) == Counter(stats0, st) + CountStatus(results, st)
    ensures forall st :: Counter(StepStats(stats, outcome, result), st) == Counter(stats0, st) + CountStatus(results + [result], st)
  {
    forall st ensures Counter(StepStats(stats, outcome, result), st) == Counter(stats0, st) + CountStatus(results + [result], st) {
      CountStatusSnoc(results, result, st);
    }
  }

  /** The four status counters add up to the number of results. */
  lemma {:induction false} CountsSum(rs: seq<ProcessedResult>)
    ensures CountStatus(rs, Visible) + CountStatus(rs, Invisible) + CountStatus(rs, ToolOnly)
            + CountStatus(rs, Error) == |rs|
  {
    if |rs| > 0 {
      CountsSum(rs[..|rs| - 1]);
    }
  }

  /** `processQueries`, starting from the processor's current statistics
      `stats0`. One result per row, in order; progress is reported before
      each row; a crashed row counts as an error but not as processed. */
  method ProcessQueries(stats0: ProcessingStats, rows: seq<QueryRow>, targetDomain: string, outcomes: seq<RowOutcome>)
    returns (results: seq<ProcessedResult>, stats: ProcessingStats, progress: seq<Progress>)
    requires |outcomes| == |rows|
    ensures |results| == |rows|
    ensures forall i :: 0 <= i < |rows| ==> results[i] == RowResult(rows[i], targetDomain, outcomes[i])
    ensures |progress| == |rows|
    ensures forall i :: 0 <= i < |rows| ==> progress[i] == Progress(i + 1, |rows|, rows[i].query)
    ensures stats.total == |rows|
    ensures stats.processed == stats0.processed + |rows| - CountCrashes(outcomes)
    ensures forall st :: Counter(stats, st) == Counter(stats0, st) + CountStatus(results, st)
  {
    results := seq(|rows|, k requires 0 <= k < |rows| => RowResult(rows[k], targetDomain, outcomes[k]));
    progress := seq(|rows|, k requires 0 <= k < |rows| => Progress(k + 1, |rows|, rows[k].query));
    stats := stats0.(total := |rows|);
    var i := 0;
    while i < |rows|
      invariant 0 <= i <= |rows|
      invariant stats.total == |rows|
      invariant stats.processed == stats0.processed + i - CountCrashes(outcomes[..i])
      invariant forall st :: Counter(stats, st) == Counter(stats0, st) + CountStatus(results[..i], st)
    {
      StepKeepsCounts(stats0, stats, results[..i], outcomes[i], results[i]);
      assert results[..i + 1] == results[..i] + [results[i]];
      stats := StepStats(stats, outcomes[i], results[i]);
      CountCrashesSnoc(outcomes, i);
      i := i + 1;
    }
    assert outcomes[..|rows|] == outcomes;
    assert results[..|rows|] == results;
  }

  /** Every row is counted once among the four counters, so they add up to
      the processed rows plus the crashed ones. */
  lemma CountersBalance(stats0: ProcessingStats, rows: seq<QueryRow>, targetDomain: string,
                        outcomes: seq<RowOutcome>, results: seq<ProcessedResult>, stats: ProcessingStats)
    requires |outcomes| == |rows| == |results|
    requires stats.processed == stats0.processed + |rows| - CountCrashes(outcomes)
    requires forall st :: Counter(stats, st) == Counter(stats0, st) + CountStatus(results, st)
    ensures stats.visible + stats.invisible + stats.toolOnly + stats.errors
            == stats0.visible + stats0.invisible + stats0.toolOnly + stats0.errors + |rows|
    ensures stats.processed <= stats0.processed + |rows|
  {
    CountsSum(results);
    assert Counter(stats, Visible) == stats.visible && Counter(stats, Error) == stats.errors;
    assert Counter(stats, Invisible) == stats.invisible && Counter(stats, ToolOnly) == stats.toolOnly;
  }

  /** A row ends as an error exactly when it crashed, its persona failed,
      or all four searches returned `null`. */
  lemma ErrorRowIff(row: QueryRow, targetDomain: string, outcome: RowOutcome)
    ensures RowResult(row, targetDomain, outcome).status == Error <==>
              outcome.Crash?
              || outcome.persona.None? || outcome.persona.value == ""
              || (outcome.gptNo.None? && outcome.gptWeb.None? && outcome.gemNo.None? && outcome.gemWeb.None?)
  {
  }
}
