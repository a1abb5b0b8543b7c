/** Reading provider replies on the Apps Script path (`src/gas/pipeline.ts`
    and its compiled form `dist/gas/pipeline.js`): the HTTP status check of
    `httpPostJson`, the chat-completion content, the Gemini candidate text,
    the two versions of the Responses-API text, and `serializeResults`.
    The fetch itself is a reply value; `JSON.parse` is the `parse` oracle. */
module GasText {
  import opened Wrappers
  import opened Text
  import opened Json
  import opened Types
  import Sheet

  /** An HTTP reply as `UrlFetchApp` reports it. */
  datatype HttpReply = HttpReply(code: int, body: string)

  /** The message of the `SyntaxError` that `JSON.parse` throws; its exact
      text belongs to the JavaScript engine. */
  const ParseErrorMessage: string := "SyntaxError"

  /** `httpPostJson` after the fetch: a status of 300 or more throws
      "HTTP <code>: <body>", otherwise the body is parsed. */
  function HttpPostJson(reply: HttpReply, parse: string -> Option<Json>): (r: Result<Json>)
    ensures reply.code >= 300 ==> r == Throw("HTTP " + IntToString(reply.code) + ": " + reply.body)
    ensures reply.code < 300 ==> (r.Ok? <==> parse(reply.body).Some?)
    ensures reply.code < 300 && r.Ok? ==> r.value == parse(reply.body).value
    ensures reply.code < 300 && r.Throw? ==> r.message == ParseErrorMessage
  {
    if reply.code >= 300 then Throw("HTTP " + IntToString(reply.code) + ": " + reply.body)
    else match parse(reply.body)
      case None => Throw(ParseErrorMessage)
      case Some(j) => Ok(j)
  }

  /** An HTTP failure message never looks like a parse failure. */
  lemma HttpFailureDistinct(reply: HttpReply, parse: string -> Option<Json>)
    requires reply.code >= 300
    ensures HttpPostJson(reply, parse).message != ParseErrorMessage
  {
    var m := HttpPostJson(reply, parse).message;
    assert m[0] == 'H';
  }

  /** `a && a.b`-chains over truthy values never reach `null`, so they read
      like `?.` chains: the value, or `None` where the chain stops. */
  function Path(v: Option<Json>, keys: seq<string>): (r: Option<Json>)
    decreases |keys|
  {
    if |keys| == 0 then v
    else if !Truthy(v) then None
    else if keys[0] == "0" then Path(OptFirst(v), keys[1..])
    else Path(OptGet(v, keys[0]), keys[1..])
  }

  /** `callOpenAIChat` after the fetch:
      `choice && choice.message && choice.message.content ? content : ''`
      with `choice = resp.choices && resp.choices[0]`. Reading `choices`
      from a `null` reply throws. */
  function ChatContent(resp: Json): (r: Result<Json>)
    ensures r.Throw? <==> resp == JNull
    ensures r.Ok? ==> Truthy(Some(r.value)) || r.value == JStr("")
    ensures r.Ok? && Truthy(Path(Some(resp), ["choices", "0", "message", "content"]))
            ==> r.value == Path(Some(resp), ["choices", "0", "message", "content"]).value
    ensures r.Ok? && !Truthy(Path(Some(resp), ["choices", "0", "message", "content"]))
            ==> r.value == JStr("")
  {
    if resp == JNull then Throw(TypeErrorMessage)
    else
      var content := Path(Some(resp), ["choices", "0", "message", "content"]);
      Ok(if Truthy(content) then content.value else JStr(""))
  }

  /** A chat reply in the usual shape yields its content. */
  lemma ChatContentExample(text: string)
    requires text != ""
    ensures ChatContent(JObj(map["choices" := JArr([JObj(map["message" := JObj(map["content" := JStr(text)])])])]))
            == Ok(JStr(text))
  {
    var resp := JObj(map["choices" := JArr([JObj(map["message" := JObj(map["content" := JStr(text)])])])]);
    var choice := JObj(map["message" := JObj(map["content" := JStr(text)])]);
    assert OptGet(Some(resp), "choices") == Some(JArr([choice]));
    assert OptFirst(Some(JArr([choice]))) == Some(choice);
    assert Path(Some(resp), ["choices", "0", "message", "content"])
        == Path(Some(JArr([choice])), ["0", "message", "content"]);
    assert Path(Some(JArr([choice])), ["0", "message", "content"])
        == Path(Some(choice), ["message", "content"]);
  }

  // ---- Gemini candidate text ----

  /** `p.text || ''` as `join` renders it; reading from a `null` part throws. */
  function PartText(p: Json): (r: Result<string>)
    ensures r.Throw? <==> p == JNull
  {
    if p == JNull then Throw(TypeErrorMessage)
    else
      var t := OptGet(Some(p), "text");
      Ok(if Truthy(t) then JsString(t.value) else "")
  }

  /** `parts.map(p => p.text || '').join('')`. */
  function PartsText(parts: seq<Json>): (r: Result<string>)
    ensures r.Throw? <==> JNull in parts
    ensures r.Ok? && |parts| > 0 ==> StartsWith(r.value, PartText(parts[0]).value)
  {
    if |parts| == 0 then Ok("")
    else
      var first := PartText(parts[0]);
      var rest := PartsText(parts[1..]);
      assert JNull in parts <==> parts[0] == JNull || JNull in parts[1..];
      if first.Throw? then Throw(first.message)
      else if rest.Throw? then Throw(rest.message)
      else
        var r := first.value + rest.value;
        assert r[..|first.value|] == first.value;
        Ok(r)
  }

  /** `extractTextFromGemini`: the concatenated text of the first
      candidate's parts, "" when there are none. It throws on a `null`
      reply, on a parts value that is not an array, and on a `null` part. */
  function ExtractTextFromGemini(resp: Json): (r: Result<string>)
    ensures resp == JNull ==> r.Throw?
    ensures resp != JNull && !Truthy(Path(Some(resp), ["candidates", "0", "content", "parts"])) ==> r == Ok("")
    ensures resp != JNull && Truthy(Path(Some(resp), ["candidates", "0", "content", "parts"]))
            ==> var parts := Path(Some(resp), ["candidates", "0", "content", "parts"]).value;
                (r.Ok? <==> parts.JArr? && JNull !in parts.items)
                && (r.Ok? ==> r == PartsText(parts.items))
  {
    if resp == JNull then Throw(TypeErrorMessage)
    else
      var parts := Path(Some(resp), ["candidates", "0", "content", "parts"]);
      if !Truthy(parts) then Ok("")
      else match parts.value
        case JArr(items) => PartsText(items)
        case _ => Throw(TypeErrorMessage)
  }

  // ---- Responses-API text ----

  /** The source version: `resp.output_text || (resp.output &&
      resp.output[0] && resp.output[0].content && resp.output[0].content[0]
      && resp.output[0].content[0].text) || ''`. Only the first content
      piece of the first output item is consulted. */
  function ResponseTextFirstItem(resp: Json): (r: Result<Json>)
    ensures r.Throw? <==> resp == JNull
    ensures r.Ok? && Truthy(OptGet(Some(resp), "output_text")) ==> r.value == OptGet(Some(resp), "output_text").value
    ensures r.Ok? ==> Truthy(Some(r.value)) || r.value == JStr("")
    ensures (resp != JNull && !Truthy(OptGet(Some(resp), "output_text"))
             && Truthy(Path(Some(resp), ["output", "0", "content", "0", "text"])))
            ==> r == Ok(Path(Some(resp), ["output", "0", "content", "0", "text"]).value)
    ensures (resp != JNull && !Truthy(OptGet(Some(resp), "output_text"))
             && !Truthy(Path(Some(resp), ["output", "0", "content", "0", "text"])))
            ==> r == Ok(JStr(""))
  {
    if resp == JNull then Throw(TypeErrorMessage)
    else
      var ot := OptGet(Some(resp), "output_text");
      if Truthy(ot) then Ok(ot.value)
      else
        var t := Path(Some(resp), ["output", "0", "content", "0", "text"]);
        Ok(if Truthy(t) then t.value else JStr(""))
  }

  /** `c?.text || ''` of one content piece. */
  function PieceText(c: Json): string {
    var t := OptGet(Some(c), "text");
    if Truthy(t) then JsString(t.value) else ""
  }

  /** The joined text of an array of content pieces, when non-blank. */
  function NonBlankJoin(v: Option<Json>): (r: Option<string>)
    ensures r.Some? ==> Trim(r.value) != ""
  {
    match v
    case Some(JArr(cs)) =>
      var text := Concat(seq(|cs|, i requires 0 <= i < |cs| => PieceText(cs[i])));
      if Trim(text) != "" then Some(text) else None
    case _ => None
  }

  /** The text one output item contributes: its joined `content`, else its
      joined `message.content`, else its own non-blank `text` string. */
  function ItemText(item: Json): (r: Option<string>)
    ensures r.Some? ==> Trim(r.value) != ""
  {
    var fromContent := NonBlankJoin(OptGet(Some(item), "content"));
    if fromContent.Some? then fromContent
    else
      var fromMessage := NonBlankJoin(OptGet(OptGet(Some(item), "message"), "content"));
      if fromMessage.Some? then fromMessage
      else match OptGet(Some(item), "text")
        case Some(JStr(s)) => if Trim(s) != "" then Some(s) else None
        case _ => None
  }

  function ItemFlags(items: seq<Json>): (f: seq<bool>)
    ensures |f| == |items|
    ensures forall i :: 0 <= i < |items| ==> f[i] == ItemText(items[i]).Some?
  {
    seq(|items|, i requires 0 <= i < |items| => ItemText(items[i]).Some?)
  }

  /** `extractOpenAIResponseText` of the compiled pipeline: "" for a falsy
      reply, then a truthy `output_text`, then the first output item with
      non-blank text, else "". It never throws. */
  function ExtractOpenAIResponseText(resp: Json): (r: Json)
    ensures !Truthy(Some(resp)) ==> r == JStr("")
    ensures Truthy(Some(resp)) && Truthy(OptGet(Some(resp), "output_text")) ==> r == OptGet(Some(resp), "output_text").value
    ensures Truthy(Some(resp)) && !Truthy(OptGet(Some(resp), "output_text")) ==>
              match OptGet(Some(resp), "output")
              case Some(JArr(items)) => FirstItemTextIs(items, r)
              case _ => r == JStr("")
  {
    if !Truthy(Some(resp)) then JStr("")
    else
      var ot := OptGet(Some(resp), "output_text");
      if Truthy(ot) then ot.value
      else match OptGet(Some(resp), "output")
        case Some(JArr(items)) => FirstItemText(items)
        case _ => JStr("")
  }

  /** `r` is the text of the first item that has any, or "" when none has. */
  predicate FirstItemTextIs(items: seq<Json>, r: Json) {
    (r == JStr("") && forall i :: 0 <= i < |items| ==> ItemText(items[i]).None?)
    || exists i :: 0 <= i < |items| && ItemText(items[i]).Some? && r == JStr(ItemText(items[i]).value)
                   && forall j :: 0 <= j < i ==> ItemText(items[j]).None?
  }

  /** The loop over `output`: the first item with non-blank text wins. */
  function FirstItemText(items: seq<Json>): (r: Json)
    ensures FirstItemTextIs(items, r)
  {
    match Sheet.FirstTrue(ItemFlags(items))
    case Some(i) => JStr(ItemText(items[i]).value)
    case None => JStr("")
  }

  /** The reply used to show that the two versions differ: the first
      output item is empty, the second carries text. */
  function TwoItemReply(): Json {
    JObj(map["output" := JArr([JObj(map[]), JObj(map["text" := JStr("x")])])])
  }

  lemma FirstItemMissesSecond()
    ensures ResponseTextFirstItem(TwoItemReply()) == Ok(JStr(""))
  {
    var items := [JObj(map[]), JObj(map["text" := JStr("x")])];
    var resp := TwoItemReply();
    assert OptGet(Some(resp), "output_text").None?;
    assert OptGet(Some(resp), "output") == Some(JArr(items));
    assert OptFirst(Some(JArr(items))) == Some(JObj(map[]));
    assert Path(Some(resp), ["output", "0", "content", "0", "text"])
        == Path(Some(JArr(items)), ["0", "content", "0", "text"]);
    assert Path(Some(JArr(items)), ["0", "content", "0", "text"])
        == Path(Some(JObj(map[])), ["content", "0", "text"]);
  }

  lemma EmptyItemHasNoText()
    ensures ItemText(JObj(map[])).None?
  {
  }

  lemma TextItemHasText()
    ensures ItemText(JObj(map["text" := JStr("x")])) == Some("x")
  {
    var second := JObj(map["text" := JStr("x")]);
    assert OptGet(Some(second), "content").None?;
    assert OptGet(Some(second), "message").None?;
    assert OptGet(Some(second), "text") == Some(JStr("x"));
    TrimStartNoWs("x");
    TrimEndNoWs("x");
  }

  lemma CompiledFindsSecond()
    ensures ExtractOpenAIResponseText(TwoItemReply()) == JStr("x")
  {
    var items := [JObj(map[]), JObj(map["text" := JStr("x")])];
    var resp := TwoItemReply();
    assert OptGet(Some(resp), "output_text").None?;
    assert OptGet(Some(resp), "output") == Some(JArr(items));
    SecondItemWins(items);
  }

  lemma SecondItemWins(items: seq<Json>)
    requires items == [JObj(map[]), JObj(map["text" := JStr("x")])]
    ensures FirstItemText(items) == JStr("x")
  {
    EmptyItemHasNoText();
    TextItemHasText();
    var flags := ItemFlags(items);
    assert !flags[0] && flags[1];
    assert Sheet.FirstTrue(flags) == Some(1);
  }

  /** The two versions differ: text in the second output item is found only
      by the compiled extractor. */
  lemma ExtractorsDiffer()
    ensures ResponseTextFirstItem(TwoItemReply()) == Ok(JStr(""))
    ensures ExtractOpenAIResponseText(TwoItemReply()) == JStr("x")
  {
    FirstItemMissesSecond();
    CompiledFindsSecond();
  }

  // ---- serializeResults ----

  /** One line: "<rank>: <url>". */
  function ResultLine(e: SerpResult): (l: string)
    ensures |l| > 0
  {
    IntToString(e.rank) + ": " + e.url
  }

  function ResultLines(rs: seq<SerpResult>): (ls: seq<string>)
    ensures |ls| == |rs|
    ensures forall i :: 0 <= i < |rs| ==> ls[i] == ResultLine(rs[i])
  {
    seq(|rs|, i requires 0 <= i < |rs| => ResultLine(rs[i]))
  }

  /** `serializeResults`: "" for a null or empty list, else one
      "rank: url" line per entry joined by newlines. */
  function SerializeResults(results: Option<seq<SerpResult>>): (r: string)
    ensures r == "" <==> results.None? || |results.value| == 0
    ensures results.Some? && |results.value| > 0 ==> StartsWith(r, ResultLine(results.value[0]))
    ensures results.Some? && |results.value| == 1 ==> r == ResultLine(results.value[0])
    ensures results.Some? && |results.value| > 1 ==>
              r == ResultLine(results.value[0]) + "\n" + SerializeResults(Some(results.value[1..]))
    decreases if results.Some? then |results.value| else 0
  {
    if results.None? || |results.value| == 0 then ""
    else
      var ls := ResultLines(results.value);
      JoinStartsWith(ls, "\n");
      if |results.value| > 1 then
        assert ls[1..] == ResultLines(results.value[1..]);
        Join(ls, "\n")
      else
        Join(ls, "\n")
  }

  lemma JoinStartsWith(parts: seq<string>, sep: string)
    requires |parts| > 0
    ensures StartsWith(Join(parts, sep), parts[0])
    ensures |Join(parts, sep)| >= |parts[0]|
  {
    if |parts| > 1 {
      var j := Join(parts, sep);
      assert j == parts[0] + sep + Join(parts[1..], sep);
      assert j[..|parts[0]|] == parts[0];
    }
  }
}
