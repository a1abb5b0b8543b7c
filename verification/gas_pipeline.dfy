/** The Apps Script batch (`src/gas/pipeline.ts` and its compiled form
    `dist/gas/pipeline.js`): one row runs persona generation and the four
    searches in order, ranks the target in each list, classifies the row and
    writes it back; a batch walks the pending rows of the results sheet.
    The sheet is a grid of cells, each reply is an input, `shouldCancel` is
    the answer sequence `cancel`, and the sheet writes are returned as a
    list of `SheetWrite`s in the order they happen. */
module GasPipeline {
  import opened Wrappers
  import opened Json
  import opened Types
  import opened Domain
  import opened Serp
  import opened Grounding
  import opened Ranking
  import opened GasText
  import opened Sheet
  import opened GasSheet

  /** `Source` is `src/gas/pipeline.ts`; `Compiled` is `dist/gas/pipeline.js`,
      which differs in the Responses-API text extractor and in writing a
      partial row after every step. */
  datatype Build = Source | Compiled

  /** The replies of the five requests one row makes, in request order. */
  datatype Replies = Replies(persona: HttpReply, gptNo: HttpReply, gptWeb: HttpReply,
                             gemNo: HttpReply, gemWeb: HttpReply)

  const PersonaFailedMessage: string := "Persona generation failed"
  const RunCancelledMessage: string := "Run cancelled"
  const Processing: string := "processing"
  const Done: string := "done"

  /** `callOpenAIChat`: the HTTP call and the content selection. */
  function CallOpenAIChat(reply: HttpReply, parse: string -> Option<Json>): (r: Result<Json>)
    ensures r.Throw? <==> HttpPostJson(reply, parse).Throw? || HttpPostJson(reply, parse).value == JNull
    ensures r.Ok? ==> r == ChatContent(HttpPostJson(reply, parse).value)
  {
    var resp :- HttpPostJson(reply, parse);
    ChatContent(resp)
  }

  /** `generatePersona`: a falsy chat content throws "Persona generation
      failed"; otherwise the content is the persona. */
  function GeneratePersona(reply: HttpReply, parse: string -> Option<Json>): (r: Result<string>)
    ensures CallOpenAIChat(reply, parse).Throw? ==> r == Throw(CallOpenAIChat(reply, parse).message)
    ensures CallOpenAIChat(reply, parse).Ok? && !Truthy(Some(CallOpenAIChat(reply, parse).value))
            ==> r == Throw(PersonaFailedMessage)
    ensures r.Ok? ==> CallOpenAIChat(reply, parse).Ok? && Truthy(Some(CallOpenAIChat(reply, parse).value))
    ensures r.Ok? && CallOpenAIChat(reply, parse).value.JStr? ==> r.value == CallOpenAIChat(reply, parse).value.s
  {
    var content :- CallOpenAIChat(reply, parse);
    if !Truthy(Some(content)) then Throw(PersonaFailedMessage) else Ok(JsString(content))
  }

  /** `queryOpenAINoTools`: the chat content parsed as a result list. */
  function QueryOpenAINoTools(reply: HttpReply, parse: string -> Option<Json>, host: string -> Option<string>)
    : (r: Result<Option<seq<SerpResult>>>)
    ensures r.Throw? <==> CallOpenAIChat(reply, parse).Throw?
    ensures r.Ok? && CallOpenAIChat(reply, parse).value.JStr?
            ==> r.value == ParseSerpJson(Shared, CallOpenAIChat(reply, parse).value.s, parse, host)
    ensures r.Ok? && !CallOpenAIChat(reply, parse).value.JStr? ==> r.value.None?
  {
    var content :- CallOpenAIChat(reply, parse);
    Ok(ParseSerpJsonValue(Some(content), parse, host))
  }

  /** The Responses-API text of either build. */
  function ResponsesText(build: Build, resp: Json): (r: Result<Json>)
    ensures r.Throw? <==> build == Source && resp == JNull
  {
    match build
    case Source => ResponseTextFirstItem(resp)
    case Compiled => Ok(ExtractOpenAIResponseText(resp))
  }

  /** `queryOpenAIWithTools`: the Responses-API text parsed as a result
      list. The compiled build throws only on HTTP and parse failures. */
  function QueryOpenAIWithTools(build: Build, reply: HttpReply, parse: string -> Option<Json>,
                                host: string -> Option<string>): (r: Result<Option<seq<SerpResult>>>)
    ensures HttpPostJson(reply, parse).Throw? ==> r == Throw(HttpPostJson(reply, parse).message)
    ensures build == Compiled ==> (r.Throw? <==> HttpPostJson(reply, parse).Throw?)
    ensures build == Source ==> (r.Throw? <==> HttpPostJson(reply, parse).Throw? || HttpPostJson(reply, parse).value == JNull)
    ensures r.Ok? && ResponsesText(build, HttpPostJson(reply, parse).value).value.JStr?
            ==> r.value == ParseSerpJson(Shared, ResponsesText(build, HttpPostJson(reply, parse).value).value.s, parse, host)
  {
    var resp :- HttpPostJson(reply, parse);
    var text :- ResponsesText(build, resp);
    Ok(ParseSerpJsonValue(Some(text), parse, host))
  }

  /** `queryGeminiNoGrounding`: the candidate text parsed as a result list. */
  function QueryGeminiNoGrounding(reply: HttpReply, parse: string -> Option<Json>, host: string -> Option<string>)
    : (r: Result<Option<seq<SerpResult>>>)
    ensures HttpPostJson(reply, parse).Throw? ==> r == Throw(HttpPostJson(reply, parse).message)
    ensures HttpPostJson(reply, parse).Ok? ==>
              (r.Throw? <==> ExtractTextFromGemini(HttpPostJson(reply, parse).value).Throw?)
    ensures r.Ok? ==> r.value == ParseSerpJson(Shared, ExtractTextFromGemini(HttpPostJson(reply, parse).value).value, parse, host)
  {
    var resp :- HttpPostJson(reply, parse);
    var text :- ExtractTextFromGemini(resp);
    Ok(ParseSerpJson(Shared, text, parse, host))
  }

  /** `queryGeminiWithGrounding`: the grounding sources when there are any,
      otherwise the candidate text parsed as a result list. */
  function QueryGeminiWithGrounding(reply: HttpReply, parse: string -> Option<Json>, host: string -> Option<string>)
    : (r: Result<Option<seq<SerpResult>>>)
    ensures HttpPostJson(reply, parse).Throw? ==> r == Throw(HttpPostJson(reply, parse).message)
    ensures HttpPostJson(reply, parse).Ok? && ExtractGroundingUrls(Shared, host, HttpPostJson(reply, parse).value).Some?
            ==> r == Ok(ExtractGroundingUrls(Shared, host, HttpPostJson(reply, parse).value))
    ensures HttpPostJson(reply, parse).Ok? && ExtractGroundingUrls(Shared, host, HttpPostJson(reply, parse).value).None?
            ==> (r.Throw? <==> ExtractTextFromGemini(HttpPostJson(reply, parse).value).Throw?)
    ensures HttpPostJson(reply, parse) == Ok(JNull) ==> r.Throw?
  {
    var resp :- HttpPostJson(reply, parse);
    match ExtractGroundingUrls(Shared, host, resp)
    case Some(g) => Ok(Some(g))
    case None =>
      var text :- ExtractTextFromGemini(resp);
      Ok(ParseSerpJson(Shared, text, parse, host))
  }

  // ---- one row ----

  /** The four result lists of `runMatrix`. */
  datatype Matrix = Matrix(gptNo: Option<seq<SerpResult>>, gptWeb: Option<seq<SerpResult>>,
                           gemNo: Option<seq<SerpResult>>, gemWeb: Option<seq<SerpResult>>)
  {
    predicate AllNull() {
      gptNo.None? && gptWeb.None? && gemNo.None? && gemWeb.None?
    }
  }

  /** `runMatrix`: the four searches in order; the first that throws ends
      the row. */
  function RunMatrix(build: Build, rep: Replies, parse: string -> Option<Json>, host: string -> Option<string>)
    : (r: Result<Matrix>)
    ensures r.Ok? <==> QueryOpenAINoTools(rep.gptNo, parse, host).Ok?
                       && QueryOpenAIWithTools(build, rep.gptWeb, parse, host).Ok?
                       && QueryGeminiNoGrounding(rep.gemNo, parse, host).Ok?
                       && QueryGeminiWithGrounding(rep.gemWeb, parse, host).Ok?
    ensures r.Ok? ==> r.value == Matrix(QueryOpenAINoTools(rep.gptNo, parse, host).value,
                                        QueryOpenAIWithTools(build, rep.gptWeb, parse, host).value,
                                        QueryGeminiNoGrounding(rep.gemNo, parse, host).value,
                                        QueryGeminiWithGrounding(rep.gemWeb, parse, host).value)
  {
    var a :- QueryOpenAINoTools(rep.gptNo, parse, host);
    var b :- QueryOpenAIWithTools(build, rep.gptWeb, parse, host);
    var c :- QueryGeminiNoGrounding(rep.gemNo, parse, host);
    var d :- QueryGeminiWithGrounding(rep.gemWeb, parse, host);
    Ok(Matrix(a, b, c, d))
  }

  /** The row state (`ProcessedRow`): ranks as `RankMatch`, "-" appearing
      only when the state is written to cells. */
  datatype RowState = RowState(persona: string, status: Status, checkStatus: string,
                               gpt: RankMatch, gptWeb: RankMatch, gem: RankMatch, gemWeb: RankMatch,
                               gptNoAll: string, gptWebAll: string, gemNoAll: string, gemWebAll: string)

  /** `blankState`. */
  function BlankState(): RowState {
    RowState("", Invisible, Pending, NotFound, NotFound, NotFound, NotFound, "", "", "", "")
  }

  /** The completed state of a row whose searches returned `m`. */
  function Summarize(persona: string, m: Matrix, target: string): (s: RowState)
    ensures s.persona == persona && s.checkStatus == Done
    ensures s.status == Error <==> m.AllNull()
    ensures !m.AllNull() ==> (s.status == Visible <==> s.gpt.Found? || s.gem.Found?)
    ensures !m.AllNull() ==> (s.status == Invisible <==> s.gpt.NotFound? && s.gptWeb.NotFound? && s.gem.NotFound? && s.gemWeb.NotFound?)
    ensures s.gpt.Found? <==> m.gptNo.Some? && exists i :: 0 <= i < |m.gptNo.value| && Mentions(m.gptNo.value[i], target)
    ensures s.gem.Found? <==> m.gemNo.Some? && exists i :: 0 <= i < |m.gemNo.value| && Mentions(m.gemNo.value[i], target)
    ensures s.gptNoAll == "" <==> m.gptNo.None? || |m.gptNo.value| == 0
    ensures s.gemWebAll == "" <==> m.gemWeb.None? || |m.gemWeb.value| == 0
    ensures !m.AllNull() ==> (s.status == ToolOnly <==> s.gpt.NotFound? && s.gem.NotFound? && (s.gptWeb.Found? || s.gemWeb.Found?))
    ensures s.gpt == FindRank(m.gptNo, target) && s.gptWeb == FindRank(m.gptWeb, target)
            && s.gem == FindRank(m.gemNo, target) && s.gemWeb == FindRank(m.gemWeb, target)
    ensures s.gptNoAll == SerializeResults(m.gptNo) && s.gptWebAll == SerializeResults(m.gptWeb)
            && s.gemNoAll == SerializeResults(m.gemNo) && s.gemWebAll == SerializeResults(m.gemWeb)
  {
    var r1 := FindRank(m.gptNo, target);
    var r2 := FindRank(m.gptWeb, target);
    var r3 := FindRank(m.gemNo, target);
    var r4 := FindRank(m.gemWeb, target);
    RowState(persona, Classify(m.AllNull(), r1, r2, r3, r4), Done, r1, r2, r3, r4,
             SerializeResults(m.gptNo), SerializeResults(m.gptWeb),
             SerializeResults(m.gemNo), SerializeResults(m.gemWeb))
  }

  /** `processRow` as one computation: persona, the four searches, then the
      summary against the normalised target domain. */
  function ProcessRow(build: Build, targetDomain: string, rep: Replies, parse: string -> Option<Json>,
                      host: string -> Option<string>): (r: Result<RowState>)
    ensures GeneratePersona(rep.persona, parse).Throw? ==> r == Throw(GeneratePersona(rep.persona, parse).message)
    ensures r.Throw? <==> GeneratePersona(rep.persona, parse).Throw? || RunMatrix(build, rep, parse, host).Throw?
    ensures r.Ok? ==> r.value.checkStatus == Done && r.value.persona == GeneratePersona(rep.persona, parse).value
    ensures r.Ok? ==> (r.value.status == Error <==> RunMatrix(build, rep, parse, host).value.AllNull())
    ensures r.Ok? ==> r.value == Summarize(GeneratePersona(rep.persona, parse).value,
                                           RunMatrix(build, rep, parse, host).value, NormalizeDomain(targetDomain))
  {
    var persona :- GeneratePersona(rep.persona, parse);
    var m :- RunMatrix(build, rep, parse, host);
    Ok(Summarize(persona, m, NormalizeDomain(targetDomain)))
  }

  /** The outcome of the compiled `processRow`: the snapshots passed to
      `onPartial`, and the returned state or the exception. */
  datatype RowRun = RowRun(partials: seq<RowState>, result: Result<RowState>)

  /** The result lists of the searches that returned before the first
      one that threw, and that exception's message if there was one. */
  datatype Searches = Searches(outs: seq<Option<seq<SerpResult>>>, failure: Option<string>)

  /** The four searches run in order, stopping at the first that throws. */
  function RunSearches(build: Build, rep: Replies, parse: string -> Option<Json>, host: string -> Option<string>)
    : (r: Searches)
    ensures |r.outs| <= 4
    ensures r.failure.None? ==> |r.outs| == 4
  {
    var a := QueryOpenAINoTools(rep.gptNo, parse, host);
    if a.Throw? then Searches([], Some(a.message))
    else
      var b := QueryOpenAIWithTools(build, rep.gptWeb, parse, host);
      if b.Throw? then Searches([a.value], Some(b.message))
      else
        var c := QueryGeminiNoGrounding(rep.gemNo, parse, host);
        if c.Throw? then Searches([a.value, b.value], Some(c.message))
        else
          var d := QueryGeminiWithGrounding(rep.gemWeb, parse, host);
          if d.Throw? then Searches([a.value, b.value, c.value], Some(d.message))
          else Searches([a.value, b.value, c.value, d.value], None)
  }

  /** The update after search `k`: its serialised list and its rank. */
  function Apply(s: RowState, k: nat, res: Option<seq<SerpResult>>, target: string): (t: RowState)
    ensures t.persona == s.persona && t.status == s.status && t.checkStatus == s.checkStatus
  {
    var all := SerializeResults(res);
    var rank := FindRank(res, target);
    if k == 0 then s.(gptNoAll := all, gpt := rank)
    else if k == 1 then s.(gptWebAll := all, gptWeb := rank)
    else if k == 2 then s.(gemNoAll := all, gem := rank)
    else s.(gemWebAll := all, gemWeb := rank)
  }

  /** The snapshots after each search in `outs`, starting from `start`. */
  function Snapshots(start: RowState, outs: seq<Option<seq<SerpResult>>>, target: string): (ps: seq<RowState>)
    ensures |ps| == |outs|
    ensures forall i :: 0 <= i < |ps| ==> (ps[i].persona == start.persona && ps[i].status == start.status
                                          && ps[i].checkStatus == start.checkStatus)
    decreases |outs|
  {
    if |outs| == 0 then []
    else
      var front := Snapshots(start, outs[..|outs| - 1], target);
      var last := if |front| == 0 then start else front[|front| - 1];
      front + [Apply(last, |outs| - 1, outs[|outs| - 1], target)]
  }

  /** The first snapshot followed by one per completed search; none of
      them is finished yet. */
  function Progressing(s1: RowState, outs: seq<Option<seq<SerpResult>>>, target: string): (ps: seq<RowState>)
    requires s1.checkStatus == Processing && s1.status == Invisible
    ensures |ps| == |outs| + 1 && ps[0] == s1
    ensures InProgress(ps, s1.persona)
  {
    [s1] + Snapshots(s1, outs, target)
  }

  /** The compiled `processRow`, which updates a blank state after every
      step and reports each snapshot. */
  function ProcessRowIncremental(rep: Replies, target: string, parse: string -> Option<Json>,
                                 host: string -> Option<string>): (r: RowRun)
    ensures r.result.Ok? ==> |r.partials| == 6 && r.partials[5] == r.result.value
    ensures r.result.Throw? ==> |r.partials| <= 5
    ensures |r.partials| > 0 ==> InProgress(r.partials[..if r.result.Ok? then 5 else |r.partials|], r.partials[0].persona)
  {
    var p := GeneratePersona(rep.persona, parse);
    if p.Throw? then RowRun([], Throw(p.message))
    else RunWithPersona(p.value, RunSearches(Compiled, rep, parse, host), target)
  }

  /** The snapshots and result of a row once its persona is known, given
      the outcome of its searches. */
  function RunWithPersona(persona: string, searches: Searches, target: string): (r: RowRun)
    requires |searches.outs| <= 4 && (searches.failure.None? ==> |searches.outs| == 4)
    ensures r.result.Ok? ==> |r.partials| == 6 && r.partials[5] == r.result.value
    ensures r.result.Throw? ==> |r.partials| <= 5
    ensures |r.partials| > 0 ==> InProgress(r.partials[..if r.result.Ok? then 5 else |r.partials|], r.partials[0].persona)
  {
    var s1 := BlankState().(persona := persona, checkStatus := Processing);
    var ps := Progressing(s1, searches.outs, target);
    match searches.failure
    case Some(m) =>
      assert ps[..|ps|] == ps;
      RowRun(ps, Throw(m))
    case None => Complete(ps, searches.outs)
  }

  /** The run of a row whose four searches all returned: the five
      in-progress snapshots, then the finished state, which is the result. */
  function Complete(ps: seq<RowState>, outs: seq<Option<seq<SerpResult>>>): (r: RowRun)
    requires |ps| == 5 && |outs| == 4
    ensures r.result.Ok? && |r.partials| == 6 && r.partials[5] == r.result.value
    ensures r.partials[..5] == ps && r.result.value == Finish(ps[4], outs)
  {
    var s6 := Finish(ps[4], outs);
    assert (ps + [s6])[..5] == ps;
    RowRun(ps + [s6], Ok(s6))
  }

  /** The last update: the status classified from the four searches, and
      the row marked done. */
  function Finish(s: RowState, outs: seq<Option<seq<SerpResult>>>): (t: RowState)
    requires |outs| == 4
    ensures t.checkStatus == Done && t.persona == s.persona
    ensures t.status == Error <==> outs[0].None? && outs[1].None? && outs[2].None? && outs[3].None?
  {
    var allNull := outs[0].None? && outs[1].None? && outs[2].None? && outs[3].None?;
    s.(status := Classify(allNull, s.gpt, s.gptWeb, s.gem, s.gemWeb), checkStatus := Done)
  }

  /** Finishing the snapshot after all four searches of a matrix gives
      that matrix's summary. */
  lemma FinishIsSummarize(persona: string, m: Matrix, target: string)
    ensures var s1 := BlankState().(persona := persona, checkStatus := Processing);
            var outs := [m.gptNo, m.gptWeb, m.gemNo, m.gemWeb];
            Finish(Snapshots(s1, outs, target)[3], outs) == Summarize(persona, m, target)
  {
    var s1 := BlankState().(persona := persona, checkStatus := Processing);
    var outs := [m.gptNo, m.gptWeb, m.gemNo, m.gemWeb];
    SnapshotsOfFour(s1, outs, target);
  }

  /** Snapshots taken while the row is still being processed: the persona
      is set, the check status is "processing", the status still blank. */
  predicate InProgress(ps: seq<RowState>, persona: string) {
    forall i :: 0 <= i < |ps| ==> ps[i].persona == persona && ps[i].checkStatus == Processing && ps[i].status == Invisible
  }

  /** Stopping at the first throwing search agrees with `runMatrix`. */
  lemma SearchesAgree(build: Build, rep: Replies, parse: string -> Option<Json>, host: string -> Option<string>)
    ensures var r := RunSearches(build, rep, parse, host);
            var m := RunMatrix(build, rep, parse, host);
            (r.failure.None? <==> m.Ok?)
            && (r.failure.Some? ==> m == Throw(r.failure.value))
            && (m.Ok? ==> r.outs == [m.value.gptNo, m.value.gptWeb, m.value.gemNo, m.value.gemWeb])
  {
  }

  /** After four searches every search column has been filled in. */
  lemma SnapshotsOfFour(start: RowState, outs: seq<Option<seq<SerpResult>>>, target: string)
    requires |outs| == 4
    ensures Snapshots(start, outs, target)[3]
            == start.(gptNoAll := SerializeResults(outs[0]), gpt := FindRank(outs[0], target),
                      gptWebAll := SerializeResults(outs[1]), gptWeb := FindRank(outs[1], target),
                      gemNoAll := SerializeResults(outs[2]), gem := FindRank(outs[2], target),
                      gemWebAll := SerializeResults(outs[3]), gemWeb := FindRank(outs[3], target))
  {
    var t0 := Apply(start, 0, outs[0], target);
    var t1 := Apply(t0, 1, outs[1], target);
    var t2 := Apply(t1, 2, outs[2], target);
    assert outs[..1][..0] == [];
    assert Snapshots(start, outs[..1], target) == [t0];
    assert outs[..2][..1] == outs[..1];
    assert Snapshots(start, outs[..2], target) == [t0, t1];
    assert outs[..3][..2] == outs[..2];
    assert Snapshots(start, outs[..3], target) == [t0, t1, t2];
  }

  /** The step-by-step version returns exactly what the one-shot version
      computes. */
  lemma IncrementalAgrees(targetDomain: string, rep: Replies, parse: string -> Option<Json>,
                          host: string -> Option<string>)
    ensures ProcessRowIncremental(rep, NormalizeDomain(targetDomain), parse, host).result
            == ProcessRow(Compiled, targetDomain, rep, parse, host)
  {
    var p := GeneratePersona(rep.persona, parse);
    if p.Ok? {
      var target := NormalizeDomain(targetDomain);
      var searches := RunSearches(Compiled, rep, parse, host);
      SearchesAgree(Compiled, rep, parse, host);
      if searches.failure.None? {
        FinishIsSummarize(p.value, RunMatrix(Compiled, rep, parse, host).value, target);
      }
    }
  }

  /** The request at position `k` of a row (0 is the persona). */
  function ReplyAt(rep: Replies, k: nat): HttpReply
    requires k < 5
  {
    if k == 0 then rep.persona else if k == 1 then rep.gptNo else if k == 2 then rep.gptWeb
    else if k == 3 then rep.gemNo else rep.gemWeb
  }

  /** The step at position `k` throws. */
  predicate StepThrows(build: Build, rep: Replies, k: nat, parse: string -> Option<Json>, host: string -> Option<string>)
    requires k < 5
  {
    if k == 0 then GeneratePersona(rep.persona, parse).Throw?
    else if k == 1 then QueryOpenAINoTools(rep.gptNo, parse, host).Throw?
    else if k == 2 then QueryOpenAIWithTools(build, rep.gptWeb, parse, host).Throw?
    else if k == 3 then QueryGeminiNoGrounding(rep.gemNo, parse, host).Throw?
    else QueryGeminiWithGrounding(rep.gemWeb, parse, host).Throw?
  }

  /** Once a step throws, the replies after it have no effect on the row. */
  lemma LaterRepliesIrrelevant(build: Build, targetDomain: string, a: Replies, b: Replies, k: nat,
                               parse: string -> Option<Json>, host: string -> Option<string>)
    requires k < 5
    requires forall j :: 0 <= j <= k ==> ReplyAt(a, j) == ReplyAt(b, j)
    requires StepThrows(build, a, k, parse, host)
    ensures ProcessRow(build, targetDomain, a, parse, host) == ProcessRow(build, targetDomain, b, parse, host)
    ensures ProcessRow(build, targetDomain, a, parse, host).Throw?
  {
    assert ReplyAt(a, 0) == ReplyAt(b, 0);
    if k >= 1 { assert ReplyAt(a, 1) == ReplyAt(b, 1); }
    if k >= 2 { assert ReplyAt(a, 2) == ReplyAt(b, 2); }
    if k >= 3 { assert ReplyAt(a, 3) == ReplyAt(b, 3); }
    if k >= 4 { assert ReplyAt(a, 4) == ReplyAt(b, 4); }
  }

  // ---- cells ----

  function RankCell(m: RankMatch): Cell {
    match m
    case Found(rank, _) => CNum(rank)
    case NotFound => CStr(Dash)
  }

  function UrlCell(m: RankMatch): Cell {
    match m
    case Found(_, url) => CStr(url)
    case NotFound => CStr(Dash)
  }

  /** `buildRowValues` (and the literal row of the source build): the
      query cell as read, then the state's seventeen columns. The state
      never carries an error, so the last cell is "". */
  function BuildRowValues(query: Cell, s: RowState): (r: seq<Cell>)
    ensures |r| == RowWidth
    ensures forall i :: 1 <= i < RowWidth ==> r[i] != CEmpty
  {
    [query, CStr(s.persona), CStr(StatusName(s.status)), CStr(s.checkStatus),
     RankCell(s.gpt), UrlCell(s.gpt), RankCell(s.gptWeb), UrlCell(s.gptWeb),
     RankCell(s.gem), UrlCell(s.gem), RankCell(s.gemWeb), UrlCell(s.gemWeb),
     CStr(s.gptNoAll), CStr(s.gptWebAll), CStr(s.gemNoAll), CStr(s.gemWebAll), CStr("")]
  }

  /** The row written when processing a row throws. */
  function ErrorRow(query: Cell, message: string): (r: seq<Cell>)
    ensures |r| == RowWidth
    ensures forall i :: 1 <= i < RowWidth ==> r[i] != CEmpty
  {
    [query, CStr(""), CStr(StatusName(Error)), CStr("error")]
    + seq(8, _ => CStr(Dash)) + seq(4, _ => CStr("")) + [CStr(message)]
  }

  function StatusFromName(name: string): (r: Option<Status>)
    ensures r.Some? ==> StatusName(r.value) == name
  {
    if name == "visible" then Some(Visible)
    else if name == "invisible" then Some(Invisible)
    else if name == "tool-only" then Some(ToolOnly)
    else if name == "error" then Some(Error)
    else None
  }

  /** Reading a rank/URL pair back from its two cells. */
  function RankFromCells(rank: Cell, url: Cell): Option<RankMatch> {
    match (rank, url)
    case (CNum(n), CStr(u)) => Some(Found(n, u))
    case (CStr(a), CStr(b)) => if a == Dash && b == Dash then Some(NotFound) else None
    case _ => None
  }

  function TextCell(c: Cell): Option<string> {
    match c
    case CStr(s) => Some(s)
    case _ => None
  }

  /** Reading a row state back from a written row. */
  function DecodeRow(r: seq<Cell>): Option<RowState>
    requires |r| == RowWidth
  {
    var persona :- TextCell(r[1]);
    var statusName :- TextCell(r[2]);
    var status :- StatusFromName(statusName);
    var check :- TextCell(r[3]);
    var gpt :- RankFromCells(r[4], r[5]);
    var gptWeb :- RankFromCells(r[6], r[7]);
    var gem :- RankFromCells(r[8], r[9]);
    var gemWeb :- RankFromCells(r[10], r[11]);
    var a :- TextCell(r[12]);
    var b :- TextCell(r[13]);
    var c :- TextCell(r[14]);
    var d :- TextCell(r[15]);
    Some(RowState(persona, status, check, gpt, gptWeb, gem, gemWeb, a, b, c, d))
  }

  /** A written row holds the whole state: it reads back unchanged. */
  lemma RowRoundTrip(query: Cell, s: RowState)
    ensures DecodeRow(BuildRowValues(query, s)) == Some(s)
  {
    var r := BuildRowValues(query, s);
    assert r[1] == CStr(s.persona) && r[2] == CStr(StatusName(s.status)) && r[3] == CStr(s.checkStatus);
    assert r[4] == RankCell(s.gpt) && r[5] == UrlCell(s.gpt) && r[6] == RankCell(s.gptWeb) && r[7] == UrlCell(s.gptWeb);
    assert r[8] == RankCell(s.gem) && r[9] == UrlCell(s.gem) && r[10] == RankCell(s.gemWeb) && r[11] == UrlCell(s.gemWeb);
    assert r[12] == CStr(s.gptNoAll) && r[13] == CStr(s.gptWebAll) && r[14] == CStr(s.gemNoAll) && r[15] == CStr(s.gemWebAll);
    DecodeCells(r, s);
  }

  /** A row whose cells carry a state's fields reads back as that state. */
  lemma DecodeCells(r: seq<Cell>, s: RowState)
    requires |r| == RowWidth
    requires r[1] == CStr(s.persona) && r[2] == CStr(StatusName(s.status)) && r[3] == CStr(s.checkStatus)
    requires r[4] == RankCell(s.gpt) && r[5] == UrlCell(s.gpt) && r[6] == RankCell(s.gptWeb) && r[7] == UrlCell(s.gptWeb)
    requires r[8] == RankCell(s.gem) && r[9] == UrlCell(s.gem) && r[10] == RankCell(s.gemWeb) && r[11] == UrlCell(s.gemWeb)
    requires r[12] == CStr(s.gptNoAll) && r[13] == CStr(s.gptWebAll) && r[14] == CStr(s.gemNoAll) && r[15] == CStr(s.gemWebAll)
    ensures DecodeRow(r) == Some(s)
  {
    StatusRoundTrip(s.status);
    RankRoundTrip(s.gpt);
    RankRoundTrip(s.gptWeb);
    RankRoundTrip(s.gem);
    RankRoundTrip(s.gemWeb);
  }

  /** A status name reads back as its status. */
  lemma StatusRoundTrip(st: Status)
    ensures StatusFromName(StatusName(st)) == Some(st)
  {
    match st {
      case Visible =>
      case Invisible =>
      case ToolOnly =>
      case Error =>
    }
  }

  /** A rank/URL pair reads back from its two cells. */
  lemma RankRoundTrip(m: RankMatch)
    ensures RankFromCells(RankCell(m), UrlCell(m)) == Some(m)
  {
  }

  // ---- which rows a batch picks up ----

  /** `!row[2] || row[2] === 'error'`: an empty status or a failed row. */
  predicate IsPendingRow(row: seq<Cell>) {
    !CellTruthy(CellAt(row, 2)) || CellAt(row, 2) == CStr(StatusName(Error))
  }

  /** A failed row is picked up again by the next batch. */
  lemma ErrorRowIsPending(query: Cell, message: string)
    ensures IsPendingRow(NormalizeOutputRow(ErrorRow(query, message)))
  {
  }

  /** A finished row is picked up again exactly when all four searches
      returned nothing. */
  lemma FinishedRowPendingIff(query: Cell, s: RowState)
    ensures IsPendingRow(NormalizeOutputRow(BuildRowValues(query, s))) <==> s.status == Error
  {
    var r := NormalizeOutputRow(BuildRowValues(query, s));
    assert r[2] == CStr(StatusName(s.status));
  }

  /** A freshly seeded row is pending. */
  lemma EmptyRowPending(query: string)
    ensures IsPendingRow(BuildEmptyRow(query))
  {
    EmptyRowIsPending(query);
  }

  /** The indices of pending rows, in sheet order. */
  function PendingIndices(data: seq<seq<Cell>>): (r: seq<nat>)
    ensures forall k :: 0 <= k < |r| ==> r[k] < |data| && IsPendingRow(data[r[k]])
    ensures forall k :: 0 < k < |r| ==> r[k - 1] < r[k]
    decreases |data|
  {
    if |data| == 0 then []
    else
      var front := PendingIndices(data[..|data| - 1]);
      assert forall k :: 0 <= k < |front| ==> data[..|data| - 1][front[k]] == data[front[k]];
      if IsPendingRow(data[|data| - 1]) then front + [|data| - 1] else front
  }

  /** Every pending row is listed. */
  lemma {:induction false} PendingIndicesComplete(data: seq<seq<Cell>>, i: nat)
    requires i < |data| && IsPendingRow(data[i])
    ensures i in PendingIndices(data)
    decreases |data|
  {
    if i < |data| - 1 {
      assert data[..|data| - 1][i] == data[i];
      PendingIndicesComplete(data[..|data| - 1], i);
    }
  }

  /** JavaScript's `xs.slice(0, n)`: a negative `n` counts from the end. */
  function SliceFront<T>(xs: seq<T>, n: int): (r: seq<T>)
    ensures |r| <= |xs| && r == xs[..|r|]
    ensures 0 <= n ==> |r| == if n < |xs| then n else |xs|
    ensures n < 0 ==> |r| == if |xs| + n > 0 then |xs| + n else 0
  {
    if n >= 0 then (if n < |xs| then xs[..n] else xs)
    else if |xs| + n > 0 then xs[..|xs| + n] else []
  }

  /** A batch size of zero or less than minus the pending count selects
      nothing; a size at least the pending count selects all. */
  lemma SliceExtremes<T>(xs: seq<T>, n: int)
    ensures n == 0 || n <= -|xs| ==> SliceFront(xs, n) == []
    ensures n >= |xs| ==> SliceFront(xs, n) == xs
  {
  }

  /** The rows a batch of size `batchSize` picks up. */
  function PendingRows(data: seq<seq<Cell>>, batchSize: int): (r: seq<nat>)
    ensures forall k :: 0 <= k < |r| ==> r[k] < |data| && IsPendingRow(data[r[k]])
    ensures forall k :: 0 < k < |r| ==> r[k - 1] < r[k]
    ensures batchSize >= 0 ==> |r| <= batchSize
    ensures |r| <= |PendingIndices(data)| && r == PendingIndices(data)[..|r|]
    ensures batchSize >= 0 ==>
              |r| == if batchSize < |PendingIndices(data)| then batchSize else |PendingIndices(data)|
    ensures batchSize < 0 ==>
              |r| == if |PendingIndices(data)| + batchSize > 0 then |PendingIndices(data)| + batchSize else 0
  {
    SliceFront(PendingIndices(data), batchSize)
  }

  // ---- a batch ----

  /** One write to the results sheet: a whole row (`writeRow`, which
      normalises it) or the status cell (`setRowStatus`; the colour is not
      modelled). Rows are numbered as in the sheet: data index + 2. */
  datatype SheetWrite = WriteRow(row: int, values: seq<Cell>) | SetStatus(row: int, status: string)

  /** The result of processing one row in either build: the one-shot
      computation for the source, the step-by-step one for the compiled
      build. */
  function RowResult(build: Build, targetDomain: string, rep: Replies, parse: string -> Option<Json>,
                     host: string -> Option<string>): Result<RowState>
  {
    match build
    case Source => ProcessRow(Source, targetDomain, rep, parse, host)
    case Compiled => ProcessRowIncremental(rep, NormalizeDomain(targetDomain), parse, host).result
  }

  /** Both builds compute the row as `ProcessRow` does. */
  lemma RowResultIsProcessRow(build: Build, targetDomain: string, rep: Replies, parse: string -> Option<Json>,
                              host: string -> Option<string>)
    ensures RowResult(build, targetDomain, rep, parse, host) == ProcessRow(build, targetDomain, rep, parse, host)
  {
    if build == Compiled {
      IncrementalAgrees(targetDomain, rep, parse, host);
    }
  }

  /** The final two writes of a row: its values (or the error row) and its
      status. */
  function FinalWrites(rowNumber: int, query: Cell, result: Result<RowState>): (ws: seq<SheetWrite>)
    ensures |ws| == 2 && ws[0].WriteRow? && ws[1].SetStatus? && |ws[0].values| == RowWidth
    ensures ws[1].status == CellString(ws[0].values[2])
    ensures ws[0].row == rowNumber && ws[1].row == rowNumber
  {
    match result
    case Ok(s) => [WriteRow(rowNumber, NormalizeOutputRow(BuildRowValues(query, s))), SetStatus(rowNumber, StatusName(s.status))]
    case Throw(m) => [WriteRow(rowNumber, NormalizeOutputRow(ErrorRow(query, m))), SetStatus(rowNumber, StatusName(Error))]
  }

  /** The partial rows the compiled build writes while a row runs. */
  function PartialWrites(rowNumber: int, query: Cell, ps: seq<RowState>): (ws: seq<SheetWrite>)
    ensures |ws| == |ps|
    ensures forall i :: 0 <= i < |ps| ==> ws[i] == WriteRow(rowNumber, NormalizeOutputRow(BuildRowValues(query, ps[i])))
  {
    seq(|ps|, i requires 0 <= i < |ps| => WriteRow(rowNumber, NormalizeOutputRow(BuildRowValues(query, ps[i]))))
  }

  /** Every write one row causes, in order: the "processing" status, the
      partial rows of the compiled build, then the final writes. */
  function RowWrites(build: Build, rowNumber: int, query: Cell, targetDomain: string, rep: Replies,
                     parse: string -> Option<Json>, host: string -> Option<string>): (ws: seq<SheetWrite>)
    ensures |ws| >= 3 && ws[0] == SetStatus(rowNumber, Processing)
    ensures ws[|ws| - 2..] == FinalWrites(rowNumber, query, RowResult(build, targetDomain, rep, parse, host))
    ensures forall i :: 0 <= i < |ws| ==> ws[i].row == rowNumber
  {
    Frame(rowNumber, BuildPartials(build, rowNumber, query, targetDomain, rep, parse, host),
          FinalWrites(rowNumber, query, RowResult(build, targetDomain, rep, parse, host)))
  }

  /** The partial rows a build writes while the row runs: none for the
      source build, one per snapshot for the compiled build. */
  function BuildPartials(build: Build, rowNumber: int, query: Cell, targetDomain: string, rep: Replies,
                         parse: string -> Option<Json>, host: string -> Option<string>): (ws: seq<SheetWrite>)
    ensures build == Source ==> ws == []
    ensures forall i :: 0 <= i < |ws| ==> ws[i].WriteRow? && ws[i].row == rowNumber && |ws[i].values| == RowWidth
  {
    match build
    case Source => []
    case Compiled =>
      PartialWrites(rowNumber, query, ProcessRowIncremental(rep, NormalizeDomain(targetDomain), parse, host).partials)
  }

  /** The "processing" status, then `middle`, then `last`, all for one row. */
  function Frame(rowNumber: int, middle: seq<SheetWrite>, last: seq<SheetWrite>): (ws: seq<SheetWrite>)
    requires |last| == 2
    requires forall i :: 0 <= i < |middle| ==> middle[i].row == rowNumber
    requires forall i :: 0 <= i < |last| ==> last[i].row == rowNumber
    ensures |ws| >= 3 && ws[0] == SetStatus(rowNumber, Processing)
    ensures ws[|ws| - 2..] == last
    ensures forall i :: 0 <= i < |ws| ==> ws[i].row == rowNumber
  {
    var ws := [SetStatus(rowNumber, Processing)] + middle + last;
    assert ws[|ws| - 2..] == last;
    ws
  }

  /** The writes of each selected row, in selection order; row `k` of the
      selection is answered by `replies(k)`. */
  function BatchRows(build: Build, data: seq<seq<Cell>>, pending: seq<nat>, targetDomain: string,
                     replies: nat -> Replies, parse: string -> Option<Json>, host: string -> Option<string>)
    : (rows: seq<seq<SheetWrite>>)
    requires forall k :: 0 <= k < |pending| ==> pending[k] < |data|
    ensures |rows| == |pending|
    ensures forall k :: 0 <= k < |pending| ==>
              rows[k] == DataRowWrites(build, data, pending[k], targetDomain, replies(k), parse, host)
  {
    seq(|pending|, k requires 0 <= k < |pending| =>
      DataRowWrites(build, data, pending[k], targetDomain, replies(k), parse, host))
  }

  /** The writes of data row `i`, which sits on sheet row `i + 2` and holds
      its query in the first column. */
  function DataRowWrites(build: Build, data: seq<seq<Cell>>, i: nat, targetDomain: string, rep: Replies,
                         parse: string -> Option<Json>, host: string -> Option<string>): (ws: seq<SheetWrite>)
    requires i < |data|
    ensures |ws| >= 3 && ws[0] == SetStatus(i + 2, Processing)
    ensures ws[|ws| - 2..] == FinalWrites(i + 2, CellAt(data[i], 0), RowResult(build, targetDomain, rep, parse, host))
  {
    RowWrites(build, i + 2, CellAt(data[i], 0), targetDomain, rep, parse, host)
  }

  /** Whether each selected row fails. */
  function BatchFailures(build: Build, pending: seq<nat>, targetDomain: string,
                         replies: nat -> Replies, parse: string -> Option<Json>, host: string -> Option<string>)
    : (fs: seq<bool>)
    ensures |fs| == |pending|
    ensures forall k :: 0 <= k < |pending| ==> fs[k] == RowResult(build, targetDomain, replies(k), parse, host).Throw?
  {
    seq(|pending|, k requires 0 <= k < |pending| => RowResult(build, targetDomain, replies(k), parse, host).Throw?)
  }

  /** The writes of the first `n` rows, one row after another. */
  function Flatten(rows: seq<seq<SheetWrite>>, n: nat): seq<SheetWrite>
    requires n <= |rows|
  {
    if n == 0 then [] else Flatten(rows, n - 1) + rows[n - 1]
  }

  /** Row `k` of the selection ends with the final writes of its
      `processRow` outcome, and it counts as a failure exactly when that
      outcome is an exception. */
  lemma SelectedRowOutcome(build: Build, data: seq<seq<Cell>>, batchSize: int, targetDomain: string,
                           replies: nat -> Replies, parse: string -> Option<Json>, host: string -> Option<string>, k: nat)
    requires k < |PendingRows(data, batchSize)|
    ensures var pending := PendingRows(data, batchSize);
            var ws := BatchRows(build, data, pending, targetDomain, replies, parse, host)[k];
            var result := ProcessRow(build, targetDomain, replies(k), parse, host);
            |ws| >= 3
            && ws[|ws| - 2..] == FinalWrites(pending[k] + 2, CellAt(data[pending[k]], 0), result)
            && BatchFailures(build, pending, targetDomain, replies, parse, host)[k] == result.Throw?
  {
    BatchRowOutcome(build, data, PendingRows(data, batchSize), targetDomain, replies, parse, host, k);
  }

  /** `SelectedRowOutcome` for any selection of in-range rows. */
  lemma BatchRowOutcome(build: Build, data: seq<seq<Cell>>, pending: seq<nat>, targetDomain: string,
                        replies: nat -> Replies, parse: string -> Option<Json>, host: string -> Option<string>, k: nat)
    requires forall j :: 0 <= j < |pending| ==> pending[j] < |data|
    requires k < |pending|
    ensures var ws := BatchRows(build, data, pending, targetDomain, replies, parse, host)[k];
            var result := ProcessRow(build, targetDomain, replies(k), parse, host);
            |ws| >= 3
            && ws[|ws| - 2..] == FinalWrites(pending[k] + 2, CellAt(data[pending[k]], 0), result)
            && BatchFailures(build, pending, targetDomain, replies, parse, host)[k] == result.Throw?
  {
    RowResultIsProcessRow(build, targetDomain, replies(k), parse, host);
  }

  /** With a batch size at least the number of pending rows, every pending
      row is selected. */
  lemma LargeBatchSelectsAll(data: seq<seq<Cell>>, batchSize: int, i: nat)
    requires batchSize >= |data|
    requires i < |data| && IsPendingRow(data[i])
    ensures i in PendingRows(data, batchSize)
  {
    PendingIndicesComplete(data, i);
    assert |PendingIndices(data)| <= |data| by {
      PendingIndicesBound(data);
    }
  }

  lemma {:induction false} PendingIndicesBound(data: seq<seq<Cell>>)
    ensures |PendingIndices(data)| <= |data|
    decreases |data|
  {
    if |data| > 0 {
      PendingIndicesBound(data[..|data| - 1]);
    }
  }

  /** `k` is the first of `n` positions where `shouldCancel` answers yes. */
  predicate FirstCancel(cancel: nat -> bool, n: nat, k: nat) {
    k < n && cancel(k) && forall j :: 0 <= j < k ==> !cancel(j)
  }

  /** The loop of `processBatch` over rows whose writes and failures are
      already known: before row `k`, `cancel(k)` may abort the batch with
      "Run cancelled"; otherwise the row's writes happen and a failure is
      counted. The result is `{ done, errors }`. */
  method RunBatch(rows: seq<seq<SheetWrite>>, fails: seq<bool>, cancel: nat -> bool)
    returns (writes: seq<SheetWrite>, outcome: Result<(nat, nat)>)
    requires |rows| == |fails|
    ensures outcome.Ok? <==> forall k :: 0 <= k < |rows| ==> !cancel(k)
    ensures outcome.Ok? ==> outcome.value == (|rows|, CountTrue(fails, |rows|)) && writes == Flatten(rows, |rows|)
    ensures outcome.Throw? ==> outcome.message == RunCancelledMessage
                               && exists k :: FirstCancel(cancel, |rows|, k) && writes == Flatten(rows, k)
  {
    var done: nat := 0;
    var errors: nat := 0;
    writes := [];
    while done < |rows|
      invariant done <= |rows|
      invariant forall j :: 0 <= j < done ==> !cancel(j)
      invariant errors == CountTrue(fails, done)
      invariant writes == Flatten(rows, done)
    {
      if cancel(done) {
        assert FirstCancel(cancel, |rows|, done);
        outcome := Throw(RunCancelledMessage);
        return;
      }
      if fails[done] {
        errors := errors + 1;
      }
      writes := writes + rows[done];
      done := done + 1;
    }
    outcome := Ok((done, errors));
  }

  /** `processBatch`: select the pending rows, then run the loop over
      them; `cancel(k)` is the answer of `shouldCancel` before the `k`-th
      selected row and `replies(k)` the replies that row receives. */
  method ProcessBatch(build: Build, batchSize: int, targetDomain: string, data: seq<seq<Cell>>,
                      cancel: nat -> bool, replies: nat -> Replies,
                      parse: string -> Option<Json>, host: string -> Option<string>)
    returns (writes: seq<SheetWrite>, outcome: Result<(nat, nat)>)
    ensures var pending := PendingRows(data, batchSize);
            outcome.Ok? <==> forall k :: 0 <= k < |pending| ==> !cancel(k)
    ensures var pending := PendingRows(data, batchSize);
            var rows := BatchRows(build, data, pending, targetDomain, replies, parse, host);
            outcome.Ok? ==> outcome.value.0 == |pending|
                            && outcome.value.1 == CountTrue(BatchFailures(build, pending, targetDomain, replies, parse, host), |pending|)
                            && writes == Flatten(rows, |pending|)
    ensures var pending := PendingRows(data, batchSize);
            var rows := BatchRows(build, data, pending, targetDomain, replies, parse, host);
            outcome.Throw? ==> outcome.message == RunCancelledMessage
                               && exists k :: FirstCancel(cancel, |pending|, k) && writes == Flatten(rows, k)
    ensures outcome.Ok? ==> outcome.value.1 <= outcome.value.0
    ensures outcome.Ok? && batchSize >= 0 ==> outcome.value.0 <= batchSize
  {
    var pending := PendingRows(data, batchSize);
    var rows := BatchRows(build, data, pending, targetDomain, replies, parse, host);
    var fails := BatchFailures(build, pending, targetDomain, replies, parse, host);
    writes, outcome := RunBatch(rows, fails, cancel);
  }
}
