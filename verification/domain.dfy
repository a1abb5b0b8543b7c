/** Domain-name helpers: `normalizeDomain`, `extractDomainFromUrl`, `isUrl`.
    The same definitions serve the split modules and their monolithic copy.
    `new URL(u).hostname` is the parameter `host`, which yields `None` where
    the URL constructor throws. */
module Domain {
  import opened Wrappers
  import opened Text
  import opened Types

  /** Case-sensitive removal of one leading "www." (`s.replace(/^www\./, '')`). */
  function StripWww(s: string): (r: string)
    ensures s == r || s == WwwPrefix + r
    ensures s == r <==> !StartsWith(s, WwwPrefix)
  {
    if StartsWith(s, WwwPrefix) then
      assert s == s[..4] + s[4..];
      s[4..]
    else s
  }

  /** `normalizeDomain`: lowercase, then drop one leading "www.". */
  function NormalizeDomain(d: string): (r: string)
    ensures Lower(d) == r || Lower(d) == WwwPrefix + r
    ensures Lower(d) == r <==> !StartsWith(Lower(d), WwwPrefix)
    ensures IsLowerCase(r)
  {
    LowerIsLowerCase(d);
    StripWww(Lower(d))
  }

  /** `isUrl`: a case-sensitive prefix test against "http" and "www.". */
  predicate IsUrl(v: string) {
    StartsWithAny(v, UrlPrefixes)
  }

  /** `prefixes.some(p => v.startsWith(p))`. */
  predicate StartsWithAny(v: string, prefixes: seq<string>) {
    |prefixes| > 0 && (StartsWith(v, prefixes[0]) || StartsWithAny(v, prefixes[1..]))
  }

  /** `extractDomainFromUrl`: the normalised hostname, or "" when the URL
      does not parse. It never throws. */
  function ExtractDomainFromUrl(host: string -> Option<string>, url: string): (r: string)
    ensures host(url).None? ==> r == ""
    ensures host(url).Some? ==> r == NormalizeDomain(host(url).value)
  {
    match host(url)
    case None => ""
    case Some(h) => NormalizeDomain(h)
  }

  // ---- properties ----

  lemma LowerWww()
    ensures Lower("WWW.") == "www."
  {
  }

  lemma LowerWwwA()
    ensures Lower("www.a.com") == "www.a.com"
  {
    LowerEach("www.a.com", "www.a.com");
  }

  lemma LowerExample()
    ensures Lower("Example.COM") == "example.com"
  {
    LowerEach("Example.COM", "example.com");
  }

  lemma SplitLiterals()
    ensures "WWW.www.a.com" == "WWW." + "www.a.com"
    ensures "WWW.Example.COM" == "WWW." + "Example.COM"
    ensures "www.www.a.com" == "www." + "www.a.com"
    ensures "www.example.com" == "www." + "example.com"
  {
  }

  /** The result is a suffix of the lowercased input and never longer. */
  lemma NormalizeIsSuffix(d: string)
    ensures |NormalizeDomain(d)| <= |d|
    ensures NormalizeDomain(d) == Lower(d)[|Lower(d)| - |NormalizeDomain(d)|..]
  {
  }

  /** On lowercase input that does not start with "www." normalisation is
      the identity. */
  lemma NormalizeIdentity(d: string)
    requires IsLowerCase(d) && !StartsWith(d, WwwPrefix)
    ensures NormalizeDomain(d) == d
  {
    LowerOfLowerCase(d);
  }

  /** Only one "www." is removed, so normalisation is not idempotent. */
  lemma NormalizeNotIdempotent()
    ensures NormalizeDomain("WWW.www.a.com") == "www.a.com"
    ensures NormalizeDomain("www.a.com") == "a.com"
    ensures NormalizeDomain(NormalizeDomain("WWW.www.a.com")) != NormalizeDomain("WWW.www.a.com")
  {
    NormalizeWwwWwwA();
    NormalizeWwwA();
  }

  lemma NormalizeWwwWwwA()
    ensures NormalizeDomain("WWW.www.a.com") == "www.a.com"
  {
    SplitLiterals();
    LowerWww();
    LowerWwwA();
    LowerConcat("WWW.", "www.a.com");
  }

  lemma NormalizeWwwA()
    ensures NormalizeDomain("www.a.com") == "a.com"
  {
    LowerWwwA();
    assert "www.a.com"[4..] == "a.com";
  }

  /** Normalisation is idempotent exactly on inputs whose normal form does
      not itself start with "www.". */
  lemma NormalizeTwiceIff(d: string)
    ensures NormalizeDomain(NormalizeDomain(d)) == NormalizeDomain(d)
            <==> !StartsWith(NormalizeDomain(d), WwwPrefix)
  {
    var n := NormalizeDomain(d);
    LowerOfLowerCase(n);
  }

  /** The empty domain normalises to itself. */
  lemma NormalizeEmpty()
    ensures NormalizeDomain("") == ""
  {
  }

  /** "WWW.Example.COM" normalises to "example.com". */
  lemma NormalizeExample()
    ensures NormalizeDomain("WWW.Example.COM") == "example.com"
  {
    SplitLiterals();
    LowerWww();
    LowerExample();
    LowerConcat("WWW.", "Example.COM");
  }

  /** `isUrl` is exactly the two case-sensitive prefix tests. */
  lemma IsUrlIff(v: string)
    ensures IsUrl(v) <==> StartsWith(v, "http") || StartsWith(v, "www.")
  {
    var rest := UrlPrefixes[1..];
    assert rest == ["www."];
    assert rest[1..] == [];
    assert !StartsWithAny(v, rest[1..]);
    assert StartsWithAny(v, rest) <==> StartsWith(v, "www.");
  }

  lemma IsUrlExamples()
    ensures IsUrl("httpfoo")
    ensures !IsUrl("HTTP://x")
    ensures !IsUrl("WWW.x")
  {
    IsUrlIff("httpfoo");
    IsUrlIff("HTTP://x");
    IsUrlIff("WWW.x");
    assert "HTTP://x"[..4][0] != "http"[0] && "HTTP://x"[..4][0] != "www."[0];
    assert "WWW.x"[..4][0] != "http"[0] && "WWW.x"[..4][0] != "www."[0];
  }
}
