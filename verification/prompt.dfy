/** `replacePromptPlaceholders`: global replacement of "{location}" and then
    "{query}" in a prompt template. The replacement strings are passed to
    `String.prototype.replace` with a global regular expression, so the
    JavaScript replacement patterns "$$", "$&", "$`" and "$'" are expanded;
    the tokens have no capture groups, so every other "$" is literal. */
module Prompt {
  import opened Wrappers
  import opened Text
  import opened Types

  /** Expansion of a replacement string for one match: `m` is the matched
      text, `pre` the subject before it, `post` the subject after it. */
  function Expand(rep: string, m: string, pre: string, post: string): string
    decreases |rep|
  {
    if |rep| >= 2 && rep[0] == '$' && rep[1] == '$' then "$" + Expand(rep[2..], m, pre, post)
    else if |rep| >= 2 && rep[0] == '$' && rep[1] == '&' then m + Expand(rep[2..], m, pre, post)
    else if |rep| >= 2 && rep[0] == '$' && rep[1] == '`' then pre + Expand(rep[2..], m, pre, post)
    else if |rep| >= 2 && rep[0] == '$' && rep[1] == '\'' then post + Expand(rep[2..], m, pre, post)
    else if |rep| == 0 then ""
    else [rep[0]] + Expand(rep[1..], m, pre, post)
  }

  /** `s.replace(new RegExp(pat, 'g'), rep)` for a literal, non-empty
      pattern, scanning `s` from index `i`. */
  function ReplaceFrom(s: string, pat: string, rep: string, i: nat): string
    requires |pat| > 0 && i <= |s|
    decreases |s| - i
  {
    if i == |s| then ""
    else if StartsWith(s[i..], pat) then
      Expand(rep, pat, s[..i], s[i + |pat|..]) + ReplaceFrom(s, pat, rep, i + |pat|)
    else [s[i]] + ReplaceFrom(s, pat, rep, i + 1)
  }

  function ReplaceAllJs(s: string, pat: string, rep: string): string
    requires |pat| > 0
  {
    ReplaceFrom(s, pat, rep, 0)
  }

  /** Plain replace-all: every occurrence, left to right, by `rep` verbatim. */
  function ReplaceAll(s: string, pat: string, rep: string): string
    requires |pat| > 0
    decreases |s|
  {
    if |s| == 0 then ""
    else if StartsWith(s, pat) then rep + ReplaceAll(s[|pat|..], pat, rep)
    else [s[0]] + ReplaceAll(s[1..], pat, rep)
  }

  /** `replacePromptPlaceholders(prompt, location, query?)`: the location
      first, then the query (absent or empty both give ""). The private
      copy in the Gemini client is the same function with the configured
      location. */
  function ReplacePromptPlaceholders(prompt: string, location: string, query: Option<string>): string {
    var q := match query case Some(t) => t case None => "";
    ReplaceAllJs(ReplaceAllJs(prompt, LocationToken, location), QueryToken, q)
  }

  // ---- properties ----

  /** Without "$" a replacement string is inserted verbatim. */
  lemma {:induction false} ExpandLiteral(rep: string, m: string, pre: string, post: string)
    requires '$' !in rep
    ensures Expand(rep, m, pre, post) == rep
    decreases |rep|
  {
    if |rep| > 0 {
      ExpandLiteral(rep[1..], m, pre, post);
      assert rep == [rep[0]] + rep[1..];
    }
  }

  lemma {:induction false} ReplaceFromLiteral(s: string, pat: string, rep: string, i: nat)
    requires |pat| > 0 && i <= |s| && '$' !in rep
    ensures ReplaceFrom(s, pat, rep, i) == ReplaceAll(s[i..], pat, rep)
    decreases |s| - i
  {
    if i < |s| {
      if StartsWith(s[i..], pat) {
        ReplaceFromLiteral(s, pat, rep, i + |pat|);
        MatchStep(s, pat, rep, i);
      } else {
        ReplaceFromLiteral(s, pat, rep, i + 1);
        SkipStep(s, pat, rep, i);
      }
    }
  }

  /** One replaced occurrence at `i` extends the agreement from
      `i + |pat|` back to `i`. */
  lemma MatchStep(s: string, pat: string, rep: string, i: nat)
    requires |pat| > 0 && i < |s| && '$' !in rep && StartsWith(s[i..], pat)
    requires ReplaceFrom(s, pat, rep, i + |pat|) == ReplaceAll(s[i + |pat|..], pat, rep)
    ensures ReplaceFrom(s, pat, rep, i) == ReplaceAll(s[i..], pat, rep)
  {
    ExpandLiteral(rep, pat, s[..i], s[i + |pat|..]);
    assert s[i..][|pat|..] == s[i + |pat|..];
  }

  /** One copied character at `i` extends the agreement from `i + 1` back
      to `i`. */
  lemma SkipStep(s: string, pat: string, rep: string, i: nat)
    requires |pat| > 0 && i < |s| && !StartsWith(s[i..], pat)
    requires ReplaceFrom(s, pat, rep, i + 1) == ReplaceAll(s[i + 1..], pat, rep)
    ensures ReplaceFrom(s, pat, rep, i) == ReplaceAll(s[i..], pat, rep)
  {
    assert s[i..][1..] == s[i + 1..];
  }

  /** For a "$"-free replacement the JavaScript replace is a literal
      replace-all. */
  lemma ReplaceAllJsLiteral(s: string, pat: string, rep: string)
    requires |pat| > 0 && '$' !in rep
    ensures ReplaceAllJs(s, pat, rep) == ReplaceAll(s, pat, rep)
  {
    ReplaceFromLiteral(s, pat, rep, 0);
    assert s[0..] == s;
  }

  /** A text without the token is returned unchanged. */
  lemma {:induction false} ReplaceAllAbsent(s: string, pat: string, rep: string)
    requires |pat| > 0 && !Contains(s, pat)
    ensures ReplaceAll(s, pat, rep) == s
    decreases |s|
  {
    if |s| > 0 {
      ReplaceAllAbsent(s[1..], pat, rep);
      assert s == [s[0]] + s[1..];
    }
  }

  /** Occurrences are replaced one after the other: the token followed by
      more text becomes the replacement followed by the rest, replaced. */
  lemma ReplaceAllConsumesToken(pat: string, rest: string, rep: string)
    requires |pat| > 0
    ensures ReplaceAll(pat + rest, pat, rep) == rep + ReplaceAll(rest, pat, rep)
  {
    assert (pat + rest)[..|pat|] == pat;
    assert (pat + rest)[|pat|..] == rest;
  }

  /** The flag is global: "{location}{location}" becomes L·L. */
  lemma LocationTwice(loc: string)
    requires '$' !in loc
    ensures ReplaceAllJs(LocationToken + LocationToken, LocationToken, loc) == loc + loc
  {
    ReplaceAllJsLiteral(LocationToken + LocationToken, LocationToken, loc);
    ReplaceAllConsumesToken(LocationToken, LocationToken, loc);
    ReplaceAllConsumesToken(LocationToken, "", loc);
    assert LocationToken + "" == LocationToken;
  }

  /** A template with neither token comes back unchanged. */
  lemma NoTokensUnchanged(prompt: string, location: string, query: Option<string>)
    requires !Contains(prompt, LocationToken) && !Contains(prompt, QueryToken)
    ensures ReplacePromptPlaceholders(prompt, location, query) == prompt
  {
    var q := match query case Some(t) => t case None => "";
    ReplaceFromAbsent(prompt, LocationToken, location, 0);
    ReplaceFromAbsent(prompt, QueryToken, q, 0);
  }

  /** With the token absent from `s[i..]`, the JavaScript replace copies it. */
  lemma {:induction false} ReplaceFromAbsent(s: string, pat: string, rep: string, i: nat)
    requires |pat| > 0 && i <= |s| && !Contains(s[i..], pat)
    ensures ReplaceFrom(s, pat, rep, i) == s[i..]
    decreases |s| - i
  {
    if i < |s| {
      assert s[i..][1..] == s[i + 1..];
      ReplaceFromAbsent(s, pat, rep, i + 1);
      assert s[i..] == [s[i]] + s[i + 1..];
    }
  }

  /** An absent query and an empty query both erase the query token. */
  lemma AbsentQueryIsEmpty(prompt: string, location: string)
    ensures ReplacePromptPlaceholders(prompt, location, None)
         == ReplacePromptPlaceholders(prompt, location, Some(""))
  {
  }

  /** The location is substituted first, so a "{query}" inside the location
      value is itself replaced by the query. */
  lemma LocationBeforeQuery(q: string)
    requires '$' !in q
    ensures ReplacePromptPlaceholders(LocationToken, QueryToken, Some(q)) == q
  {
    ReplaceAllJsLiteral(LocationToken, LocationToken, QueryToken);
    ReplaceAllConsumesToken(LocationToken, "", QueryToken);
    assert LocationToken + "" == LocationToken;
    assert QueryToken + "" == QueryToken;
    ReplaceAllJsLiteral(QueryToken, QueryToken, q);
    ReplaceAllConsumesToken(QueryToken, "", q);
  }

  /** "$&" in the location inserts the matched token itself: the location
      "$&" leaves "{location}" in place. */
  lemma DollarAmpersandKeepsToken()
    ensures ReplaceAllJs(LocationToken, LocationToken, "$&") == LocationToken
  {
    assert StartsWith(LocationToken[0..], LocationToken);
    assert LocationToken[10..] == "";
  }

  /** For "$"-free location and query values the placeholders are a literal
      replace-all of the location token and then of the query token. */
  lemma PlaceholdersLiteral(prompt: string, location: string, q: string)
    requires '$' !in location && '$' !in q
    ensures ReplacePromptPlaceholders(prompt, location, Some(q))
         == ReplaceAll(ReplaceAll(prompt, LocationToken, location), QueryToken, q)
  {
    ReplaceAllJsLiteral(prompt, LocationToken, location);
    ReplaceAllJsLiteral(ReplaceAll(prompt, LocationToken, location), QueryToken, q);
  }
}
