/** `parseSerpJson`: locate a JSON array of objects inside a model reply,
    parse it and normalise every element into a `SerpResult`. `JSON.parse`
    is the parameter `parse` (`None` where it throws) and the URL parser is
    the parameter `host`. */
module Serp {
  import opened Wrappers
  import opened Text
  import opened Json
  import opened Types
  import opened Domain

  // ---- locating /\[\s*\{[\s\S]*?\}\s*\]/ ----

  /** The first index at or after `p` that is not white space (`\s*`). */
  function SkipWs(s: string, p: nat): (r: nat)
    requires p <= |s|
    ensures p <= r <= |s|
    ensures forall k :: p <= k < r ==> IsWs(s[k])
    ensures r < |s| ==> !IsWs(s[r])
    decreases |s| - p
  {
    if p < |s| && IsWs(s[p]) then SkipWs(s, p + 1) else p
  }

  /** `\}\s*\]` matches at index `k`. */
  predicate CloseAt(s: string, k: int) {
    0 <= k < |s| && s[k] == '}' && SkipWs(s, k + 1) < |s| && s[SkipWs(s, k + 1)] == ']'
  }

  /** The lazy `[\s\S]*?`: the first index at or after `k` where the
      closing part matches. */
  function FindClose(s: string, k: nat): (r: Option<nat>)
    requires k <= |s|
    ensures r.Some? ==> k <= r.value < |s| && CloseAt(s, r.value)
                        && forall c :: k <= c < r.value ==> !CloseAt(s, c)
    ensures r.None? ==> forall c :: k <= c < |s| ==> !CloseAt(s, c)
    decreases |s| - k
  {
    if k == |s| then None
    else if CloseAt(s, k) then Some(k)
    else FindClose(s, k + 1)
  }

  /** The end (exclusive) of the match that starts at `i`, if any. */
  function MatchAt(s: string, i: nat): (r: Option<nat>)
    requires i <= |s|
    ensures r.Some? ==> i < r.value <= |s|
  {
    if i < |s| && s[i] == '[' && SkipWs(s, i + 1) < |s| && s[SkipWs(s, i + 1)] == '{' then
      match FindClose(s, SkipWs(s, i + 1) + 1)
      case None => None
      case Some(c) => Some(SkipWs(s, c + 1) + 1)
    else None
  }

  /** No match starts at any index from `a` up to, not including, `b`. */
  predicate NoMatchIn(s: string, a: nat, b: nat) {
    forall j :: a <= j < b && j <= |s| ==> MatchAt(s, j).None?
  }

  /** The leftmost match at or after `i`, as (start, end). */
  function FindArray(s: string, i: nat): (r: Option<(nat, nat)>)
    requires i <= |s|
    ensures r.Some? ==> i <= r.value.0 < r.value.1 <= |s| && MatchAt(s, r.value.0) == Some(r.value.1)
    ensures r.Some? ==> NoMatchIn(s, i, r.value.0)
    ensures r.None? ==> NoMatchIn(s, i, |s| + 1)
    decreases |s| - i
  {
    match MatchAt(s, i)
    case Some(e) => Some((i, e))
    case None =>
      if i == |s| then None
      else
        var r := FindArray(s, i + 1);
        NoMatchExtend(s, i, if r.Some? then r.value.0 else |s| + 1);
        r
  }

  /** No match at `i` extends a match-free stretch from `i + 1` down to `i`. */
  lemma NoMatchExtend(s: string, i: nat, b: nat)
    requires i < |s| && MatchAt(s, i).None? && NoMatchIn(s, i + 1, b)
    ensures NoMatchIn(s, i, b)
  {
    forall j | i <= j < b && j <= |s| ensures MatchAt(s, j).None? {
      if j > i {
        assert i + 1 <= j;
      }
    }
  }

  /** `text.match(/\[\s*\{[\s\S]*?\}\s*\]/)?.[0]`. */
  function ArrayText(s: string): (r: Option<string>)
    ensures r.Some? ==> |r.value| >= 4 && r.value[0] == '[' && r.value[|r.value| - 1] == ']'
                        && Contains(s, r.value)
  {
    var m := FindArray(s, 0);
    if m.None? then None
    else
      MatchSlice(s, m.value.0, m.value.1);
      Some(s[m.value.0..m.value.1])
  }

  /** The text of a match is bracketed and occurs in `s`. */
  lemma MatchSlice(s: string, a: nat, b: nat)
    requires a <= |s| && MatchAt(s, a) == Some(b)
    ensures a < b <= |s| && |s[a..b]| >= 4 && s[a..b][0] == '[' && s[a..b][|s[a..b]| - 1] == ']'
    ensures Contains(s, s[a..b])
  {
    ArrayTextShape(s, a, b);
    SliceContained(s, a, b);
  }

  lemma ArrayTextShape(s: string, a: nat, b: nat)
    requires a <= |s| && MatchAt(s, a) == Some(b)
    ensures a < b <= |s| && b - a >= 4 && s[a] == '[' && s[b - 1] == ']'
  {
    var j := SkipWs(s, a + 1);
    var c := FindClose(s, j + 1).value;
    assert CloseAt(s, c);
  }

  // ---- normalising elements ----

  /** Which copy of the parser: the shared utility, or the private method
      of the Gemini client, which treats the domain differently. */
  datatype Copy = Shared | GeminiClient

  /** The domain stored for an element: from its explicit `domain` field
      when `explicit` is true, else from its URL. The shared copy
      normalises either way (a URL-derived domain is normalised twice);
      the client strips a case-sensitive "www." from an explicit domain and
      lowercases, then strips, a hostname. */
  function DomainOf(copy: Copy, explicit: bool, d: string, host: string -> Option<string>, url: string): (r: string)
    ensures copy == Shared && explicit ==> r == NormalizeDomain(d)
    ensures copy == Shared && !explicit && url != "" ==> r == NormalizeDomain(ExtractDomainFromUrl(host, url))
    ensures copy == GeminiClient && explicit ==> r == StripWww(d)
    ensures copy == GeminiClient && !explicit && url != "" ==>
              (host(url).None? ==> r == "") && (host(url).Some? ==> r == StripWww(Lower(host(url).value)))
    ensures !explicit && url == "" ==> r == ""
  {
    NormalizeEmpty();
    var raw := if explicit then d
               else if url == "" then ""
               else if copy == Shared then ExtractDomainFromUrl(host, url)
               else match host(url) case None => "" case Some(h) => Lower(h);
    if copy == Shared then NormalizeDomain(raw) else StripWww(raw)
  }

  /** `item[key]` for an element that is not `null`. */
  function Field(item: Json, key: string): Option<Json> {
    OptGet(Some(item), key)
  }

  /** Message of the exception the model raises where the source would
      keep a truthy non-string URL value (see the README). */
  const NonStringUrl: string := "non-string url"

  /** A truthy value used as a string: strings pass, anything else makes
      the string method called on it throw. */
  function AsText(v: Option<Json>, msg: string): Result<string>
    requires Truthy(v)
  {
    if v.value.JStr? then Ok(v.value.s) else Throw(msg)
  }

  /** `item.rank || 0`. */
  function RankOrZero(v: Option<Json>): int {
    if v.Some? && v.value.JNum? then v.value.n else 0
  }

  /** A JSON value whose truthy `url`, `link`, `href` and `domain` fields
      are strings. */
  predicate StringFields(item: Json) {
    forall k :: k in ["url", "link", "href", "domain"] && Truthy(Field(item, k)) ==> Field(item, k).value.JStr?
  }

  /** The `arr.map(item => …)` callback of `parseSerpJson`. */
  function NormalizeItem(copy: Copy, item: Json, host: string -> Option<string>): (r: Result<SerpResult>)
    ensures item == JNull ==> r.Throw?
    ensures item != JNull && StringFields(item) ==> r.Ok?
    // url: the first truthy of url, link, href, else ""
    ensures r.Ok? && Truthy(Field(item, "url")) ==> Field(item, "url") == Some(JStr(r.value.url))
    ensures r.Ok? && !Truthy(Field(item, "url")) && Truthy(Field(item, "link"))
            ==> Field(item, "link") == Some(JStr(r.value.url))
    ensures r.Ok? && !Truthy(Field(item, "url")) && !Truthy(Field(item, "link")) && Truthy(Field(item, "href"))
            ==> Field(item, "href") == Some(JStr(r.value.url))
    ensures r.Ok? && !Truthy(Field(item, "url")) && !Truthy(Field(item, "link")) && !Truthy(Field(item, "href"))
            ==> r.value.url == ""
    // domain: the explicit domain, else the URL's host
    ensures r.Ok? && Truthy(Field(item, "domain"))
            ==> exists d :: Field(item, "domain") == Some(JStr(d)) && r.value.domain == DomainOf(copy, true, d, host, r.value.url)
    ensures r.Ok? && !Truthy(Field(item, "domain"))
            ==> r.value.domain == DomainOf(copy, false, "", host, r.value.url)
    // rank: item.rank when truthy, else 0
    ensures r.Ok? && Truthy(Field(item, "rank")) && Field(item, "rank").value.JNum?
            ==> r.value.rank == Field(item, "rank").value.n
    ensures r.Ok? && !Truthy(Field(item, "rank")) ==> r.value.rank == 0
  {
    // reading a property of null throws before anything else happens
    if item == JNull then Throw(TypeErrorMessage) else
    var u, l, h := Field(item, "url"), Field(item, "link"), Field(item, "href");
    var urlV := Or(Or(u, l), h);
    var d, rk := Field(item, "domain"), Field(item, "rank");
    assert item != JNull && StringFields(item) ==> Truthy(urlV) ==> urlV.value.JStr? by {
      if item != JNull && StringFields(item) && Truthy(urlV) {
        if Truthy(u) { assert "url" in ["url", "link", "href", "domain"]; }
        else if Truthy(l) { assert "link" in ["url", "link", "href", "domain"]; }
        else { assert "href" in ["url", "link", "href", "domain"]; }
      }
    }
    assert item != JNull && StringFields(item) ==> Truthy(d) ==> d.value.JStr? by {
      if item != JNull && StringFields(item) && Truthy(d) {
        assert "domain" in ["url", "link", "href", "domain"];
      }
    }
    var url :- if Truthy(urlV) then AsText(urlV, NonStringUrl) else Ok("");
    var explicit :- if Truthy(d) then AsText(d, TypeErrorMessage) else Ok("");
    Ok(SerpResult(RankOrZero(rk), DomainOf(copy, Truthy(d), explicit, host, url), url))
  }

  /** All elements normalised, or the exception of the first that throws. */
  function NormalizeItems(copy: Copy, items: seq<Json>, host: string -> Option<string>): (r: Result<seq<SerpResult>>)
    ensures r.Ok? ==> NormalizedAll(copy, items, host, r.value)
    ensures r.Throw? <==> SomeItemThrows(copy, items, host)
  {
    if |items| == 0 then Ok([])
    else
      var first := NormalizeItem(copy, items[0], host);
      var rest := NormalizeItems(copy, items[1..], host);
      if first.Throw? then
        assert SomeItemThrows(copy, items, host) by { assert NormalizeItem(copy, items[0], host).Throw?; }
        Throw(first.message)
      else if rest.Throw? then
        LaterItemThrows(copy, items, host);
        Throw(rest.message)
      else
        ConsNormalized(copy, items, host, first.value, rest.value);
        Ok([first.value] + rest.value)
  }

  /** `rs` holds the normalisation of every element, in order. */
  predicate NormalizedAll(copy: Copy, items: seq<Json>, host: string -> Option<string>, rs: seq<SerpResult>) {
    |rs| == |items| && forall i :: 0 <= i < |items| ==> NormalizeItem(copy, items[i], host) == Ok(rs[i])
  }

  /** Some element's normalisation throws. */
  predicate SomeItemThrows(copy: Copy, items: seq<Json>, host: string -> Option<string>) {
    exists i :: 0 <= i < |items| && NormalizeItem(copy, items[i], host).Throw?
  }

  lemma LaterItemThrows(copy: Copy, items: seq<Json>, host: string -> Option<string>)
    requires |items| > 0 && SomeItemThrows(copy, items[1..], host)
    ensures SomeItemThrows(copy, items, host)
  {
    var i :| 0 <= i < |items[1..]| && NormalizeItem(copy, items[1..][i], host).Throw?;
    assert NormalizeItem(copy, items[i + 1], host).Throw?;
  }

  lemma ConsNormalized(copy: Copy, items: seq<Json>, host: string -> Option<string>, first: SerpResult, rest: seq<SerpResult>)
    requires |items| > 0 && NormalizeItem(copy, items[0], host) == Ok(first)
    requires NormalizedAll(copy, items[1..], host, rest) && !SomeItemThrows(copy, items[1..], host)
    ensures NormalizedAll(copy, items, host, [first] + rest) && !SomeItemThrows(copy, items, host)
  {
    forall i | 1 <= i < |items| ensures NormalizeItem(copy, items[i], host) == Ok(([first] + rest)[i]) {
      assert items[i] == items[1..][i - 1];
    }
  }

  /** `parseSerpJson(text)`: `None` stands for `null`. Every failure (no
      match, a parse error, a non-array, an element whose normalisation
      throws) is caught and becomes `None`. */
  function ParseSerpJson(copy: Copy, text: string, parse: string -> Option<Json>, host: string -> Option<string>)
    : (r: Option<seq<SerpResult>>)
    ensures ArrayText(text).None? ==> r.None?
    ensures ArrayText(text).Some? && parse(ArrayText(text).value).None? ==> r.None?
    ensures r.Some? ==> ArrayText(text).Some?
                        && parse(ArrayText(text).value).Some?
                        && parse(ArrayText(text).value).value.JArr?
                        && var items := parse(ArrayText(text).value).value.items;
                           |r.value| == |items|
                           && forall i :: 0 <= i < |items| ==> NormalizeItem(copy, items[i], host) == Ok(r.value[i])
    ensures (ArrayText(text).Some? && parse(ArrayText(text).value).Some?
             && parse(ArrayText(text).value).value.JArr?
             && JNull in parse(ArrayText(text).value).value.items) ==> r.None?
    ensures (ArrayText(text).Some? && parse(ArrayText(text).value).Some?
             && !parse(ArrayText(text).value).value.JArr?) ==> r.None?
    ensures (ArrayText(text).Some? && parse(ArrayText(text).value).Some?
             && parse(ArrayText(text).value).value.JArr?) ==>
              (r.Some? <==> !SomeItemThrows(copy, parse(ArrayText(text).value).value.items, host))
  {
    match ArrayText(text)
    case None => None
    case Some(t) =>
      match parse(t)
      case None => None
      case Some(JArr(items)) =>
        NullItemThrows(copy, items, host);
        NormalizeItems(copy, items, host).Caught()
      case Some(_) => None
  }

  lemma NullItemThrows(copy: Copy, items: seq<Json>, host: string -> Option<string>)
    ensures JNull in items ==> NormalizeItems(copy, items, host).Throw?
  {
    if JNull in items {
      var i :| 0 <= i < |items| && items[i] == JNull;
      assert NormalizeItem(copy, items[i], host).Throw?;
    }
  }

  /** `parseSerpJson(v || '')` where `v` may be any JSON value: a non-string
      has no `match` method, the resulting exception is caught, and the
      result is `null`. */
  function ParseSerpJsonValue(v: Option<Json>, parse: string -> Option<Json>, host: string -> Option<string>)
    : (r: Option<seq<SerpResult>>)
    ensures v.Some? && v.value.JStr? ==> r == ParseSerpJson(Shared, v.value.s, parse, host)
    ensures Truthy(v) && !v.value.JStr? ==> r.None?
    ensures !Truthy(v) ==> r.None?
  {
    if !Truthy(v) then
      assert ArrayText("").None?;
      ParseSerpJson(Shared, "", parse, host)
    else if v.value.JStr? then ParseSerpJson(Shared, v.value.s, parse, host)
    else None
  }

  // ---- properties ----

  /** A JSON parser that returns an array for text opening with "[" and
      an object returns a non-empty one. */
  ghost predicate ParserKeepsFirstObject(parse: string -> Option<Json>) {
    forall t :: OpensObjectArray(t) && parse(t).Some? && parse(t).value.JArr?
                ==> |parse(t).value.items| > 0
  }

  /** The text opens with "[", optional white space and "{". */
  predicate OpensObjectArray(t: string) {
    |t| > 0 && t[0] == '[' && SkipWs(t, 1) < |t| && t[SkipWs(t, 1)] == '{'
  }

  lemma MatchOpensObjectArray(s: string)
    requires ArrayText(s).Some?
    ensures OpensObjectArray(ArrayText(s).value)
  {
    var m := FindArray(s, 0).value;
    var a, b := m.0, m.1;
    var t := s[a..b];
    var j := SkipWs(s, a + 1);
    SkipWsShift(s, a, b, a + 1);
    assert SkipWs(t, 1) == j - a;
  }

  /** Skipping white space commutes with taking the slice `s[a..b]`. */
  lemma {:induction false} SkipWsShift(s: string, a: nat, b: nat, p: nat)
    requires a < p <= b <= |s| && SkipWs(s, p) < b
    ensures SkipWs(s[a..b], p - a) == SkipWs(s, p) - a
    decreases b - p
  {
    if IsWs(s[p]) {
      SkipWsShift(s, a, b, p + 1);
    }
  }

  /** With a parser that keeps the first object, a non-null result is
      never empty. */
  lemma NonNullIsNonEmpty(copy: Copy, text: string, parse: string -> Option<Json>, host: string -> Option<string>)
    requires ParserKeepsFirstObject(parse)
    requires ParseSerpJson(copy, text, parse, host).Some?
    ensures |ParseSerpJson(copy, text, parse, host).value| > 0
  {
    MatchOpensObjectArray(text);
  }

  /** The match is lazy: it ends at the first "}" followed by optional
      white space and "]", so an array nested inside the first object cuts
      the match short. */
  lemma NestedArrayCutShort()
    ensures ArrayText("[{\"a\":[{}]}]") == Some("[{\"a\":[{}]")
  {
    var s := "[{\"a\":[{}]}]";
    assert SkipWs(s, 1) == 1;
    assert !CloseAt(s, 2) && !CloseAt(s, 3) && !CloseAt(s, 4) && !CloseAt(s, 5)
        && !CloseAt(s, 6) && !CloseAt(s, 7);
    assert SkipWs(s, 9) == 9;
    assert CloseAt(s, 8);
    assert FindClose(s, 2) == Some(8);
    assert MatchAt(s, 0) == Some(10);
    assert s[0..10] == "[{\"a\":[{}]";
  }

  /** Text without a matching array gives `null`. */
  lemma NoArrayIsNull(copy: Copy, text: string, parse: string -> Option<Json>, host: string -> Option<string>)
    requires forall i :: 0 <= i < |text| ==> text[i] != '['
    ensures ParseSerpJson(copy, text, parse, host).None?
  {
    assert FindArray(text, 0).None?;
  }

  /** A URL-derived domain in the client copy is exactly what
      `extractDomainFromUrl` returns. */
  lemma ClientUrlDomainIsExtracted(host: string -> Option<string>, url: string)
    requires url != ""
    ensures DomainOf(GeminiClient, false, "", host, url) == ExtractDomainFromUrl(host, url)
  {
  }

  /** The shared copy normalises a URL-derived domain twice, so a host
      "WWW.www.a.com" becomes "a.com"; the client keeps "www.a.com". */
  lemma CopiesDivergeOnUrlDomain(host: string -> Option<string>, url: string)
    requires url != "" && host(url) == Some("WWW.www.a.com")
    ensures DomainOf(Shared, false, "", host, url) == "a.com"
    ensures DomainOf(GeminiClient, false, "", host, url) == "www.a.com"
  {
    NormalizeNotIdempotent();
  }

  /** The client copy does not lowercase an explicit domain. */
  lemma CopiesDivergeOnExplicitDomain(host: string -> Option<string>, url: string)
    ensures DomainOf(Shared, true, "WWW.Example.COM", host, url) == "example.com"
    ensures DomainOf(GeminiClient, true, "WWW.Example.COM", host, url) == "WWW.Example.COM"
  {
    NormalizeExample();
    KeepsUpperWww();
  }

  lemma KeepsUpperWww()
    ensures StripWww("WWW.Example.COM") == "WWW.Example.COM"
  {
    assert "WWW.Example.COM"[..4][0] != WwwPrefix[0];
  }
}
