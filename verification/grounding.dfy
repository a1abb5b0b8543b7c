/** `extractGeminiGroundingUrls` and the Gemini client's private
    `extractGroundingUrls`: read the search results that a grounded Gemini
    reply carries in its metadata. Both walk the same fields; they differ in
    how a chunk's URI becomes a domain. */
module Grounding {
  import opened Wrappers
  import opened Text
  import opened Json
  import opened Types
  import opened Domain
  import opened Serp

  /** `chunk.uri || chunk.url || chunk.web?.uri || chunk.web?.url`;
      throws when the chunk is `null`. */
  function ChunkUri(chunk: Json): (r: Result<Option<Json>>)
    ensures r.Throw? <==> chunk == JNull
    ensures r.Ok? && Truthy(Field(chunk, "uri")) ==> r.value == Field(chunk, "uri")
    ensures r.Ok? && !Truthy(Field(chunk, "uri")) && Truthy(Field(chunk, "url")) ==> r.value == Field(chunk, "url")
    ensures r.Ok? && !Truthy(Field(chunk, "uri")) && !Truthy(Field(chunk, "url"))
            && Truthy(OptGet(Field(chunk, "web"), "uri"))
            ==> r.value == OptGet(Field(chunk, "web"), "uri")
    ensures r.Ok? && !Truthy(Field(chunk, "uri")) && !Truthy(Field(chunk, "url"))
            && !Truthy(OptGet(Field(chunk, "web"), "uri"))
            ==> r.value == OptGet(Field(chunk, "web"), "url")
  {
    if chunk == JNull then Throw(TypeErrorMessage)
    else
      var web := Field(chunk, "web");
      Ok(Or(Or(Or(Field(chunk, "uri"), Field(chunk, "url")), OptGet(web, "uri")), OptGet(web, "url")))
  }

  /** The domain recorded for a usable URI, or `None` when the chunk is
      skipped. The shared copy skips an empty extracted domain; the client
      skips only a URI that does not parse and keeps an empty hostname. */
  function UriDomain(copy: Copy, host: string -> Option<string>, uri: string): (r: Option<string>)
    ensures copy == Shared ==> (r.Some? <==> ExtractDomainFromUrl(host, uri) != "")
    ensures copy == Shared && r.Some? ==> r.value == ExtractDomainFromUrl(host, uri)
    ensures copy == GeminiClient ==> (r.Some? <==> host(uri).Some?)
    ensures copy == GeminiClient && r.Some? ==> r.value == Lower(StripWww(host(uri).value))
  {
    if copy == Shared then
      var d := ExtractDomainFromUrl(host, uri);
      if d == "" then None else Some(d)
    else
      match host(uri)
      case None => None
      case Some(h) => Some(Lower(StripWww(h)))
  }

  /** What chunk `i` contributes: nothing, one entry of rank `i + 1`, or an
      exception. */
  function ChunkEntry(copy: Copy, host: string -> Option<string>, chunk: Json, i: nat): (r: Result<Option<SerpResult>>)
    ensures chunk == JNull ==> r.Throw?
    ensures r.Ok? && r.value.Some? ==> r.value.value.rank == i + 1
  {
    var uri :- ChunkUri(chunk);
    if !Truthy(uri) then Ok(None)
    else if !uri.value.JStr? then Throw(NonStringUrl)
    else
      var u := uri.value.s;
      if Contains(u, RedirectMarker) then Ok(None)
      else match UriDomain(copy, host, u)
        case None => Ok(None)
        case Some(d) => Ok(Some(SerpResult(i + 1, d, u)))
  }

  /** An entry carries the chunk's URI, which is a non-empty string free of
      the redirect marker, and the domain derived from it; a chunk is
      skipped only when it has no URI, a redirect URI, or an unusable
      domain. */
  lemma ChunkEntryFacts(copy: Copy, host: string -> Option<string>, chunk: Json, i: nat)
    ensures var r := ChunkEntry(copy, host, chunk, i);
            r.Ok? && r.value.Some? ==>
              var e := r.value.value;
              ChunkUri(chunk) == Ok(Some(JStr(e.url)))
              && e.url != ""
              && !Contains(e.url, RedirectMarker)
              && UriDomain(copy, host, e.url) == Some(e.domain)
    ensures var r := ChunkEntry(copy, host, chunk, i);
            r.Ok? && r.value.None? ==>
              ChunkUri(chunk).Ok?
              && (!Truthy(ChunkUri(chunk).value)
                  || (ChunkUri(chunk).value.value.JStr?
                      && (Contains(ChunkUri(chunk).value.value.s, RedirectMarker)
                          || UriDomain(copy, host, ChunkUri(chunk).value.value.s).None?)))
  {
  }

  /** What each of the first `n` chunks contributes, in order. */
  function Outcomes(copy: Copy, host: string -> Option<string>, chunks: seq<Json>, n: nat)
    : (r: seq<Result<Option<SerpResult>>>)
    requires n <= |chunks|
    ensures |r| == n
    ensures forall j :: 0 <= j < n ==> r[j] == ChunkEntry(copy, host, chunks[j], j)
    ensures RankedByPosition(r)
  {
    seq(n, j requires 0 <= j < n => ChunkEntry(copy, host, chunks[j], j))
  }

  /** Outcome `j`, when it is an entry, has rank `j + 1`. */
  predicate RankedByPosition(outs: seq<Result<Option<SerpResult>>>) {
    forall j :: 0 <= j < |outs| && outs[j].Ok? && outs[j].value.Some? ==> outs[j].value.value.rank == j + 1
  }

  /** The loop body applied to outcomes `i ..`: entries are collected in
      order; the first exception aborts. */
  function Collect(outs: seq<Result<Option<SerpResult>>>, i: nat): (r: Result<seq<SerpResult>>)
    requires i <= |outs|
    ensures r.Ok? ==> |r.value| <= |outs| - i
    decreases |outs| - i
  {
    if i == |outs| then Ok([])
    else
      var rest := Collect(outs, i + 1);
      if outs[i].Throw? then Throw(outs[i].message)
      else if rest.Throw? then Throw(rest.message)
      else if outs[i].value.Some? then Ok([outs[i].value.value] + rest.value)
      else Ok(rest.value)
  }

  /** Outcome `j` is the entry `e`. */
  predicate Yields(outs: seq<Result<Option<SerpResult>>>, j: int, e: SerpResult) {
    0 <= j < |outs| && outs[j] == Ok(Some(e))
  }

  /** Every collected entry is the outcome its rank names, and ranks
      strictly increase. */
  lemma {:induction false} CollectSound(outs: seq<Result<Option<SerpResult>>>, i: nat)
    requires i <= |outs| && RankedByPosition(outs)
    requires Collect(outs, i).Ok?
    ensures var rs := Collect(outs, i).value;
            (forall k :: 0 <= k < |rs| ==> i + 1 <= rs[k].rank <= |outs| && Yields(outs, rs[k].rank - 1, rs[k]))
            && (forall k, l :: 0 <= k < l < |rs| ==> rs[k].rank < rs[l].rank)
    decreases |outs| - i
  {
    if i < |outs| {
      var rest := Collect(outs, i + 1);
      CollectSound(outs, i + 1);
      if outs[i].value.Some? {
        var rs := [outs[i].value.value] + rest.value;
        assert Collect(outs, i).value == rs;
        assert forall k :: 1 <= k < |rs| ==> rs[k] == rest.value[k - 1];
      }
    }
  }

  /** Every entry among the outcomes is collected when nothing throws. */
  lemma {:induction false} CollectComplete(outs: seq<Result<Option<SerpResult>>>, i: nat, j: nat, e: SerpResult)
    requires i <= j < |outs|
    requires Collect(outs, i).Ok? && Yields(outs, j, e)
    ensures e in Collect(outs, i).value
    decreases |outs| - i
  {
    if j > i {
      CollectComplete(outs, i + 1, j, e);
    }
  }

  /** Collecting throws exactly when some outcome is an exception. */
  lemma {:induction false} CollectThrowsIff(outs: seq<Result<Option<SerpResult>>>, i: nat)
    requires i <= |outs|
    ensures Collect(outs, i).Throw? <==> exists j :: i <= j < |outs| && outs[j].Throw?
    decreases |outs| - i
  {
    if i < |outs| {
      CollectThrowsIff(outs, i + 1);
      if outs[i].Throw? {
        assert exists j :: i <= j < |outs| && outs[j].Throw?;
      }
    }
  }

  /** `Some(v.items)` for a non-empty array `v`, `None` (the source's
      early `null`) for anything else. */
  function NonEmptyItems(v: Json): Option<seq<Json>> {
    if v.JArr? && |v.items| > 0 then Some(v.items) else None
  }

  /** `r` is the chunk list chosen from the metadata object `m`: the first
      truthy field of `groundingChunks`, `grounding_chunks` and
      `webSearchQueries`, kept only when it is a non-empty array; `None`
      when none of them is truthy. */
  predicate ChunksChosenFrom(m: Json, r: Option<seq<Json>>) {
    (Truthy(Field(m, "groundingChunks")) ==> r == NonEmptyItems(Field(m, "groundingChunks").value))
    && (!Truthy(Field(m, "groundingChunks")) && Truthy(Field(m, "grounding_chunks"))
        ==> r == NonEmptyItems(Field(m, "grounding_chunks").value))
    && ((!Truthy(Field(m, "groundingChunks")) && !Truthy(Field(m, "grounding_chunks"))
         && Truthy(Field(m, "webSearchQueries")))
        ==> r == NonEmptyItems(Field(m, "webSearchQueries").value))
    && ((!Truthy(Field(m, "groundingChunks")) && !Truthy(Field(m, "grounding_chunks"))
         && !Truthy(Field(m, "webSearchQueries"))) ==> r.None?)
  }

  /** The chunk list of a reply: `None` where the source returns `null`
      before scanning (no metadata, or a chosen value that is not a
      non-empty array). Reading from a `null` reply throws, and the
      exception becomes `null` too. */
  function Chunks(response: Json): (r: Option<seq<Json>>)
    ensures r.Some? ==> |r.value| > 0
    ensures response == JNull ==> r.None?
    ensures (response != JNull
             && !Truthy(Field(response, "groundingMetadata")) && !Truthy(Field(response, "grounding_metadata")))
            ==> r.None?
    ensures (response != JNull && Truthy(Field(response, "groundingMetadata")))
            ==> ChunksChosenFrom(Field(response, "groundingMetadata").value, r)
    ensures (response != JNull && !Truthy(Field(response, "groundingMetadata"))
             && Truthy(Field(response, "grounding_metadata")))
            ==> ChunksChosenFrom(Field(response, "grounding_metadata").value, r)
  {
    if response == JNull then None
    else
      var metadata := Or(Field(response, "groundingMetadata"), Field(response, "grounding_metadata"));
      if !Truthy(metadata) then None
      else
        var m := metadata.value;
        var chosen := Or(Or(Or(Field(m, "groundingChunks"), Field(m, "grounding_chunks")),
                            Field(m, "webSearchQueries")), Some(JArr([])));
        if chosen.value.JArr? && |chosen.value.items| > 0 then Some(chosen.value.items) else None
  }

  /** `Math.min(MAX_SERP_RESULTS, chunks.length)`. */
  function Examined(chunks: seq<Json>): (n: nat)
    ensures n <= MaxSerpResults && n <= |chunks|
    ensures n == MaxSerpResults || n == |chunks|
  {
    if |chunks| < MaxSerpResults then |chunks| else MaxSerpResults
  }

  /** `extractGeminiGroundingUrls` (`copy == Shared`) and the client's
      `extractGroundingUrls` (`copy == GeminiClient`). `None` stands for
      `null`; an empty list is never returned and nothing escapes. */
  function ExtractGroundingUrls(copy: Copy, host: string -> Option<string>, response: Json)
    : (r: Option<seq<SerpResult>>)
    ensures Chunks(response).None? ==> r.None?
    ensures r.Some? ==> 1 <= |r.value| <= MaxSerpResults
    ensures r.Some? ==> forall k :: 0 <= k < |r.value| ==> 1 <= r.value[k].rank <= MaxSerpResults
    ensures r.Some? ==> forall k, l :: 0 <= k < l < |r.value| ==> r.value[k].rank < r.value[l].rank
    ensures r.Some? ==> forall k :: 0 <= k < |r.value| ==>
              r.value[k].rank <= Examined(Chunks(response).value)
              && ChunkEntry(copy, host, Chunks(response).value[r.value[k].rank - 1], r.value[k].rank - 1)
                 == Ok(Some(r.value[k]))
  {
    match Chunks(response)
    case None => None
    case Some(chunks) =>
      var outs := Outcomes(copy, host, chunks, Examined(chunks));
      match Collect(outs, 0)
      case Throw(_) => None
      case Ok(rs) =>
        CollectedEntries(copy, host, chunks, Examined(chunks), rs);
        if |rs| > 0 then Some(rs) else None
  }

  /** What the loop collects from the first `n` chunks: at most `n`
      entries, ranks strictly increasing within 1..n, each the entry of
      the chunk its rank names. */
  lemma CollectedEntries(copy: Copy, host: string -> Option<string>, chunks: seq<Json>, n: nat, rs: seq<SerpResult>)
    requires n <= |chunks|
    requires Collect(Outcomes(copy, host, chunks, n), 0) == Ok(rs)
    ensures |rs| <= n
    ensures forall k :: 0 <= k < |rs| ==>
              1 <= rs[k].rank <= n && ChunkEntry(copy, host, chunks[rs[k].rank - 1], rs[k].rank - 1) == Ok(Some(rs[k]))
    ensures forall k, l :: 0 <= k < l < |rs| ==> rs[k].rank < rs[l].rank
  {
    var outs := Outcomes(copy, host, chunks, n);
    CollectSound(outs, 0);
    forall k | 0 <= k < |rs|
      ensures 1 <= rs[k].rank <= n && ChunkEntry(copy, host, chunks[rs[k].rank - 1], rs[k].rank - 1) == Ok(Some(rs[k]))
    {
      assert Yields(outs, rs[k].rank - 1, rs[k]);
    }
  }

  /** When no examined chunk throws, every entry an examined chunk yields
      is in the (then non-null) result. */
  lemma ExtractComplete(copy: Copy, host: string -> Option<string>, response: Json, j: nat, e: SerpResult)
    requires Chunks(response).Some? && j < Examined(Chunks(response).value)
    requires ChunkEntry(copy, host, Chunks(response).value[j], j) == Ok(Some(e))
    requires forall i :: 0 <= i < Examined(Chunks(response).value)
               ==> ChunkEntry(copy, host, Chunks(response).value[i], i).Ok?
    ensures ExtractGroundingUrls(copy, host, response).Some?
    ensures e in ExtractGroundingUrls(copy, host, response).value
  {
    var chunks := Chunks(response).value;
    var outs := Outcomes(copy, host, chunks, Examined(chunks));
    CollectThrowsIff(outs, 0);
    CollectComplete(outs, 0, j, e);
  }

  /** A chunk that throws among the examined ones makes the result null. */
  lemma ThrowingChunkIsNull(copy: Copy, host: string -> Option<string>, response: Json, j: nat)
    requires Chunks(response).Some? && j < Examined(Chunks(response).value)
    requires ChunkEntry(copy, host, Chunks(response).value[j], j).Throw?
    ensures ExtractGroundingUrls(copy, host, response).None?
  {
    var chunks := Chunks(response).value;
    var outs := Outcomes(copy, host, chunks, Examined(chunks));
    CollectThrowsIff(outs, 0);
  }

  // ---- properties ----

  /** Every entry is free of the redirect marker and carries the domain its
      URI yields. */
  lemma EntriesUsable(copy: Copy, host: string -> Option<string>, response: Json)
    requires ExtractGroundingUrls(copy, host, response).Some?
    ensures var rs := ExtractGroundingUrls(copy, host, response).value;
            forall k :: 0 <= k < |rs| ==>
              !Contains(rs[k].url, RedirectMarker) && UriDomain(copy, host, rs[k].url) == Some(rs[k].domain)
  {
    var rs := ExtractGroundingUrls(copy, host, response).value;
    var chunks := Chunks(response).value;
    forall k | 0 <= k < |rs|
      ensures !Contains(rs[k].url, RedirectMarker) && UriDomain(copy, host, rs[k].url) == Some(rs[k].domain)
    {
      ChunkEntryFacts(copy, host, chunks[rs[k].rank - 1], rs[k].rank - 1);
    }
  }

  /** A shared-copy entry always has a non-empty domain. */
  lemma SharedDomainsNonEmpty(host: string -> Option<string>, response: Json)
    requires ExtractGroundingUrls(Shared, host, response).Some?
    ensures forall e :: e in ExtractGroundingUrls(Shared, host, response).value ==> e.domain != ""
  {
    var rs := ExtractGroundingUrls(Shared, host, response).value;
    EntriesUsable(Shared, host, response);
    forall e | e in rs ensures e.domain != "" {
      var k :| 0 <= k < |rs| && rs[k] == e;
      assert UriDomain(Shared, host, rs[k].url) == Some(rs[k].domain);
    }
  }

  /** A URI whose hostname is empty: the client keeps it with an empty
      domain, the shared copy skips it. */
  lemma ClientKeepsEmptyHostname(host: string -> Option<string>, u: string)
    requires host(u) == Some("")
    ensures UriDomain(GeminiClient, host, u) == Some("")
    ensures UriDomain(Shared, host, u).None?
  {
  }

  /** Ranks follow chunk positions, so a skipped first chunk leaves a gap:
      a redirect chunk followed by a usable one gives one entry of rank 2. */
  lemma RankGap(copy: Copy, host: string -> Option<string>, redirect: string, u: string)
    requires Contains(redirect, RedirectMarker)
    requires u != "" && !Contains(u, RedirectMarker) && UriDomain(copy, host, u).Some?
    ensures var response := JObj(map["groundingMetadata" := JObj(map["groundingChunks" :=
              JArr([JObj(map["uri" := JStr(redirect)]), JObj(map["uri" := JStr(u)])])])]);
            ExtractGroundingUrls(copy, host, response)
            == Some([SerpResult(2, UriDomain(copy, host, u).value, u)])
  {
    var c0 := JObj(map["uri" := JStr(redirect)]);
    var c1 := JObj(map["uri" := JStr(u)]);
    var response := JObj(map["groundingMetadata" := JObj(map["groundingChunks" := JArr([c0, c1])])]);
    GapChunks(response, c0, c1);
    var e := SerpResult(2, UriDomain(copy, host, u).value, u);
    GapEntries(copy, host, redirect, u, c0, c1);
    var outs := Outcomes(copy, host, [c0, c1], 2);
    assert outs == [Ok(None), Ok(Some(e))];
    GapCollect(outs, e);
  }

  lemma GapChunks(response: Json, c0: Json, c1: Json)
    requires response == JObj(map["groundingMetadata" := JObj(map["groundingChunks" := JArr([c0, c1])])])
    ensures Chunks(response) == Some([c0, c1])
  {
  }

  lemma GapEntries(copy: Copy, host: string -> Option<string>, redirect: string, u: string, c0: Json, c1: Json)
    requires Contains(redirect, RedirectMarker)
    requires u != "" && !Contains(u, RedirectMarker) && UriDomain(copy, host, u).Some?
    requires c0 == JObj(map["uri" := JStr(redirect)]) && c1 == JObj(map["uri" := JStr(u)])
    ensures ChunkEntry(copy, host, c0, 0) == Ok(None)
    ensures ChunkEntry(copy, host, c1, 1) == Ok(Some(SerpResult(2, UriDomain(copy, host, u).value, u)))
  {
    assert redirect != "" by { ContainsNonEmpty(redirect, RedirectMarker); }
    assert Field(c0, "uri") == Some(JStr(redirect));
    assert Field(c1, "uri") == Some(JStr(u));
  }

  lemma GapCollect(outs: seq<Result<Option<SerpResult>>>, e: SerpResult)
    requires outs == [Ok(None), Ok(Some(e))]
    ensures Collect(outs, 0) == Ok([e])
  {
    assert Collect(outs, 2) == Ok([]);
    assert [e] + [] == [e];
    assert Collect(outs, 1) == Ok([e]);
  }

  /** A non-empty pattern only occurs in non-empty text. */
  lemma ContainsNonEmpty(s: string, p: string)
    requires |p| > 0 && Contains(s, p)
    ensures |s| > 0
  {
  }

  /** Only the first five chunks are read: two replies whose chunk lists
      agree on the first five give the same result, whatever follows. */
  lemma FirstFiveDecide(copy: Copy, host: string -> Option<string>, r1: Json, r2: Json)
    requires Chunks(r1).Some? && Chunks(r2).Some?
    requires |Chunks(r1).value| >= MaxSerpResults && |Chunks(r2).value| >= MaxSerpResults
    requires Chunks(r1).value[..MaxSerpResults] == Chunks(r2).value[..MaxSerpResults]
    ensures ExtractGroundingUrls(copy, host, r1) == ExtractGroundingUrls(copy, host, r2)
  {
    var a, b := Chunks(r1).value, Chunks(r2).value;
    forall j | 0 <= j < MaxSerpResults ensures a[j] == b[j] {
      assert a[j] == a[..MaxSerpResults][j];
    }
    assert Outcomes(copy, host, a, MaxSerpResults) == Outcomes(copy, host, b, MaxSerpResults);
  }
}
