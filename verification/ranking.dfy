/** Locating the target domain in a result list, and the visibility
    verdict built from the four lists. There are three `findRank` variants:
    the command line and Apps Script test each entry's domain and URL for
    the target as a substring (with differently prepared targets), while
    the Workers variant compares the target with the domain re-derived from
    each entry's URL, in both directions. */
module Ranking {
  import opened Wrappers
  import opened Text
  import opened Types
  import opened Domain

  /** The command-line / Apps Script match test. */
  predicate Mentions(e: SerpResult, target: string) {
    Contains(e.domain, target) || Contains(e.url, target)
  }

  /** The index of the first entry that mentions the target. */
  function FirstMention(rs: seq<SerpResult>, target: string): (r: Option<nat>)
    ensures r.Some? ==> r.value < |rs| && Mentions(rs[r.value], target)
                        && forall j :: 0 <= j < r.value ==> !Mentions(rs[j], target)
    ensures r.None? ==> forall j :: 0 <= j < |rs| ==> !Mentions(rs[j], target)
  {
    if |rs| == 0 then None
    else if Mentions(rs[0], target) then Some(0)
    else match FirstMention(rs[1..], target)
      case None => None
      case Some(i) => Some(i + 1)
  }

  /** `findRank` of the command line (inline in `processQuery`) and of Apps
      Script: the first entry, in list order, that mentions the target;
      `NotFound` for a null or empty list or when no entry mentions it. */
  function FindRank(results: Option<seq<SerpResult>>, target: string): (r: RankMatch)
    ensures r.Found? <==> results.Some? && exists i :: 0 <= i < |results.value| && Mentions(results.value[i], target)
    ensures r.Found? ==> exists i :: 0 <= i < |results.value| && Mentions(results.value[i], target)
                                     && (forall j :: 0 <= j < i ==> !Mentions(results.value[j], target))
                                     && r == Found(results.value[i].rank, results.value[i].url)
  {
    if results.None? then NotFound
    else match FirstMention(results.value, target)
      case None => NotFound
      case Some(i) => Found(results.value[i].rank, results.value[i].url)
  }

  /** The command-line target: lowercased, not stripped of "www.". */
  function CliTarget(targetDomain: string): string {
    Lower(targetDomain)
  }

  /** The Apps Script and Workers target: `normalizeDomain`. */
  function NormalizedTarget(targetDomain: string): string {
    NormalizeDomain(targetDomain)
  }

  /** The two targets differ exactly by a leading "www.": a command-line
      target "www.x" still requires "www.x" in the entry. */
  lemma TargetsDiffer(targetDomain: string)
    ensures CliTarget(targetDomain) == NormalizedTarget(targetDomain)
            <==> !StartsWith(Lower(targetDomain), WwwPrefix)
  {
  }

  /** A list that mentions the Apps Script target may miss the command-line
      one: the entry "a.com" contains "a.com" but not "www.a.com". */
  lemma WwwTargetExample(u: string)
    requires !Contains(u, "www.a.com")
    ensures FindRank(Some([SerpResult(1, "a.com", u)]), NormalizedTarget("www.a.com")).Found?
    ensures FindRank(Some([SerpResult(1, "a.com", u)]), CliTarget("www.a.com")).NotFound?
  {
    NormalizeWwwA();
    LowerWwwA();
    assert NormalizedTarget("www.a.com") == "a.com";
    assert CliTarget("www.a.com") == "www.a.com";
    FoundAt(SerpResult(1, "a.com", u));
    MissedAt(SerpResult(1, "a.com", u));
  }

  lemma FoundAt(e: SerpResult)
    requires e.domain == "a.com"
    ensures FindRank(Some([e]), "a.com").Found?
  {
    MentionedFirst(e, "a.com");
  }

  lemma MissedAt(e: SerpResult)
    requires e.domain == "a.com" && !Contains(e.url, "www.a.com")
    ensures FindRank(Some([e]), "www.a.com").NotFound?
  {
    NotMentioned(e, "www.a.com");
  }

  lemma MentionedFirst(e: SerpResult, d: string)
    requires e.domain == d
    ensures FirstMention([e], d) == Some(0)
  {
    ContainsSelf(d);
    assert Mentions(e, d);
  }

  lemma NotMentioned(e: SerpResult, d: string)
    requires e.domain == "a.com" && d == "www.a.com" && !Contains(e.url, d)
    ensures FirstMention([e], d) == None
  {
    TooLongNotContained("a.com", d);
    assert !Mentions(e, d);
    assert FirstMention([e][1..], d) == None;
  }

  // ---- the Workers variant ----

  /** The domain the Workers variant compares: re-derived from the URL
      (`normalizeDomain(extractDomainFromUrl(url))`). */
  function UrlDomain(host: string -> Option<string>, e: SerpResult): string {
    NormalizeDomain(ExtractDomainFromUrl(host, e.url))
  }

  /** `d.includes(target) || target.includes(d)`. */
  predicate Related(d: string, target: string) {
    Contains(d, target) || Contains(target, d)
  }

  /** The index of the first domain related to the target. */
  function FirstRelated(ds: seq<string>, target: string): (r: Option<nat>)
    ensures r.Some? ==> r.value < |ds| && Related(ds[r.value], target)
                        && forall j :: 0 <= j < r.value ==> !Related(ds[j], target)
    ensures r.None? ==> forall j :: 0 <= j < |ds| ==> !Related(ds[j], target)
  {
    if |ds| == 0 then None
    else if Related(ds[0], target) then Some(0)
    else match FirstRelated(ds[1..], target)
      case None => None
      case Some(i) => Some(i + 1)
  }

  /** The URL-derived domains of a result list, in order. */
  function UrlDomains(host: string -> Option<string>, results: seq<SerpResult>): (ds: seq<string>)
    ensures |ds| == |results|
    ensures forall i :: 0 <= i < |results| ==> ds[i] == UrlDomain(host, results[i])
  {
    seq(|results|, i requires 0 <= i < |results| => UrlDomain(host, results[i]))
  }

  /** `findRank` of the Workers path. */
  function FindRankWorkers(host: string -> Option<string>, results: seq<SerpResult>, target: string): (r: RankMatch)
    ensures r.Found? <==> exists i :: 0 <= i < |results| && UrlRelated(host, results[i], target)
    ensures r.Found? ==> exists i :: 0 <= i < |results| && UrlRelated(host, results[i], target)
                                     && (forall j :: 0 <= j < i ==> !UrlRelated(host, results[j], target))
                                     && r == Found(results[i].rank, results[i].url)
  {
    match FirstRelated(UrlDomains(host, results), target)
    case None =>
      NoResultRelated(host, results, target);
      NotFound
    case Some(i) =>
      FirstResultRelated(host, results, target, i);
      Found(results[i].rank, results[i].url)
  }

  lemma NoResultRelated(host: string -> Option<string>, results: seq<SerpResult>, target: string)
    requires FirstRelated(UrlDomains(host, results), target).None?
    ensures forall i :: 0 <= i < |results| ==> !UrlRelated(host, results[i], target)
  {
  }

  lemma FirstResultRelated(host: string -> Option<string>, results: seq<SerpResult>, target: string, i: nat)
    requires FirstRelated(UrlDomains(host, results), target) == Some(i)
    ensures i < |results| && UrlRelated(host, results[i], target)
    ensures forall j :: 0 <= j < i ==> !UrlRelated(host, results[j], target)
  {
  }

  /** The domain of an entry's URL is related to the target. */
  predicate UrlRelated(host: string -> Option<string>, e: SerpResult, target: string) {
    Related(UrlDomain(host, e), target)
  }

  /** An entry whose URL does not parse has domain "" and matches every
      target. */
  lemma UnparsableUrlMatchesAll(host: string -> Option<string>, e: SerpResult, rest: seq<SerpResult>, target: string)
    requires host(e.url).None?
    ensures FindRankWorkers(host, [e] + rest, target) == Found(e.rank, e.url)
  {
    NormalizeEmpty();
    ContainsEmpty(target);
    assert UrlRelated(host, ([e] + rest)[0], target);
  }

  /** The entry's own `domain` field plays no part in the Workers match. */
  lemma DomainFieldIgnored(host: string -> Option<string>, a: seq<SerpResult>, b: seq<SerpResult>, target: string)
    requires |a| == |b|
    requires forall i :: 0 <= i < |a| ==> a[i].rank == b[i].rank && a[i].url == b[i].url
    ensures FindRankWorkers(host, a, target) == FindRankWorkers(host, b, target)
  {
    assert UrlDomains(host, a) == UrlDomains(host, b);
  }

  // ---- status ----

  /** The inline classification of the command line and Apps Script. The
      arguments follow the source's `r1 .. r4`: GPT without tools, GPT
      with tools, Gemini without grounding, Gemini with grounding. */
  function Classify(allNull: bool, r1: RankMatch, r2: RankMatch, r3: RankMatch, r4: RankMatch): (s: Status)
    ensures s == Error <==> allNull
    ensures !allNull ==> (s == Visible <==> r1.Found? || r3.Found?)
    ensures !allNull ==> (s == ToolOnly <==> r1.NotFound? && r3.NotFound? && (r2.Found? || r4.Found?))
    ensures !allNull ==> (s == Invisible <==> r1.NotFound? && r2.NotFound? && r3.NotFound? && r4.NotFound?)
  {
    if allNull then Error
    else if r1.Found? || r2.Found? || r3.Found? || r4.Found? then
      if r1.NotFound? && r3.NotFound? && (r2.Found? || r4.Found?) then ToolOnly else Visible
    else Invisible
  }

  /** `determineStatus` of the Workers path: model-only ranks first. */
  function DetermineStatus(gpt: RankMatch, gem: RankMatch, gptWeb: RankMatch, gemWeb: RankMatch, hasError: bool)
    : (s: Status)
    ensures hasError ==> s == Error
    ensures !hasError ==> (s == Visible <==> gpt.Found? || gem.Found?)
    ensures !hasError ==> (s == ToolOnly <==> gpt.NotFound? && gem.NotFound? && (gptWeb.Found? || gemWeb.Found?))
    ensures !hasError ==> s != Error
  {
    if hasError then Error
    else if gpt.Found? || gem.Found? then Visible
    else if gptWeb.Found? || gemWeb.Found? then ToolOnly
    else Invisible
  }

  /** The two classifiers agree once the Workers error flag is "all four
      lists null". */
  lemma StatusAgreement(allNull: bool, r1: RankMatch, r2: RankMatch, r3: RankMatch, r4: RankMatch)
    ensures Classify(allNull, r1, r2, r3, r4) == DetermineStatus(r1, r3, r2, r4, allNull)
  {
  }
}
