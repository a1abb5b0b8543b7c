/** `isQueryLike`: the heuristic that decides whether a cell looks like a
    search query (used by query-column detection). */
module QueryUtils {
  import opened Text
  import opened Types
  import Domain

  /** The non-ASCII letters listed in the source's character class. */
  const AccentedLetters: string := "äöüßÄÖÜàáâãåèéêëìíîïòóôõùúûýÿčćđšžÀÁÂÃÅÈÉÊËÌÍÎÏÒÓÔÕÙÚÛÝŸČĆĐŠŽ"

  predicate IsListedLetter(c: char) {
    ('a' <= c <= 'z') || ('A' <= c <= 'Z') || c in AccentedLetters
  }

  predicate HasLetter(s: string) {
    exists i :: 0 <= i < |s| && IsListedLetter(s[i])
  }

  /** The length test on the JavaScript `length`, in UTF-16 code units. */
  predicate HasValidLength(s: string) {
    QueryMinLength <= Utf16Length(s) <= QueryMaxLength
  }

  /** `isQueryLike`: every test is applied to the trimmed value. */
  predicate IsQueryLike(value: string) {
    var t := Trim(value);
    HasValidLength(t) && HasLetter(t) && !Domain.IsUrl(t)
  }

  // ---- properties ----

  /** Too short or too long (after trimming) is never query-like. */
  lemma LengthBounds(value: string)
    requires Utf16Length(Trim(value)) < 2 || Utf16Length(Trim(value)) > 200
    ensures !IsQueryLike(value)
  {
  }

  /** Without a listed letter nothing is query-like. */
  lemma NeedsLetter(value: string)
    requires forall i :: 0 <= i < |value| ==> !IsListedLetter(value[i])
    ensures !IsQueryLike(value)
  {
    var t := Trim(value);
    var a := |value| - |TrimStart(value)|;
    assert StrippedFrom(value, t, a);
    forall i | 0 <= i < |t|
      ensures !IsListedLetter(t[i])
    {
      assert t[i] == value[a + i];
    }
  }

  /** A trimmed value starting with "http" or "www." is not query-like. */
  lemma UrlNotQuery(value: string)
    requires StartsWith(Trim(value), "http") || StartsWith(Trim(value), "www.")
    ensures !IsQueryLike(value)
  {
    Domain.IsUrlIff(Trim(value));
  }

  /** The URL test is case-sensitive: "HTTP://x.com" is query-like. */
  lemma UpperCaseUrlIsQuery()
    ensures IsQueryLike("HTTP://x.com")
  {
    UpperUrlTrimmed();
    UpperUrlTests();
  }

  lemma UpperUrlTrimmed()
    ensures Trim("HTTP://x.com") == "HTTP://x.com"
  {
    TrimStartNoWs("HTTP://x.com");
    TrimEndNoWs("HTTP://x.com");
  }

  lemma UpperUrlTests()
    ensures HasValidLength("HTTP://x.com") && HasLetter("HTTP://x.com") && !Domain.IsUrl("HTTP://x.com")
  {
    var v := "HTTP://x.com";
    assert |v| == 12;
    assert IsListedLetter(v[0]);
    Domain.IsUrlIff(v);
    assert v[..4][0] != "http"[0] && v[..4][0] != "www."[0];
  }

  /** The three conditions together are necessary and sufficient. */
  lemma IsQueryLikeIff(value: string)
    ensures IsQueryLike(value) <==>
      (2 <= Utf16Length(Trim(value)) <= 200
       && (exists i :: 0 <= i < |Trim(value)| && IsListedLetter(Trim(value)[i]))
       && !StartsWith(Trim(value), "http") && !StartsWith(Trim(value), "www."))
  {
    Domain.IsUrlIff(Trim(value));
  }

  /** Lengths add up over concatenation. */
  lemma {:induction false} Utf16Concat(a: string, b: string)
    ensures Utf16Length(a + b) == Utf16Length(a) + Utf16Length(b)
  {
    if |a| == 0 {
      assert a + b == b;
    } else {
      assert (a + b)[0] == a[0];
      assert (a + b)[1..] == a[1..] + b;
      Utf16Concat(a[1..], b);
    }
  }

  /** A string of characters outside the Basic Multilingual Plane has
      twice as many code units as characters. */
  lemma {:induction false} AllAstralDoubles(s: string)
    requires forall i :: 0 <= i < |s| ==> s[i] as int > 0xFFFF
    ensures Utf16Length(s) == 2 * |s|
  {
    if |s| > 0 {
      AllAstralDoubles(s[1..]);
    }
  }

  /** 150 emoji and a letter: 151 characters, but a JavaScript length of
      301, so the value is too long to be query-like. */
  lemma WideCharactersTooLong(s: string)
    requires |s| == 150 && forall i :: 0 <= i < |s| ==> s[i] as int > 0xFFFF
    ensures |s + "a"| == 151 && Utf16Length(s + "a") == 301
    ensures !IsQueryLike(s + "a")
  {
    AllAstralDoubles(s);
    Utf16Concat(s, "a");
    var v := s + "a";
    assert !IsWs(v[0]) && !IsWs(v[|v| - 1]);
    TrimStartNoWs(v);
    TrimEndNoWs(v);
    assert Trim(v) == v;
  }

  /** Trimming before the test changes nothing. */
  lemma QueryLikeOfTrimmed(value: string)
    ensures IsQueryLike(Trim(value)) == IsQueryLike(value)
  {
    TrimIdempotent(value);
  }
}
