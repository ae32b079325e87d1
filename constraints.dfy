/**
 * `trim_user_text` and the `str.strip()` it is built on.
 */
module Constraints {

  /** Default length bound of the user's message (`max_chars`). */
  const DefaultMaxChars: int := 4000

  /** Appended to a message that was cut: a space, U+2026 HORIZONTAL ELLIPSIS, then "[truncated]". */
  const TruncationSuffix: string := " \U{2026}[truncated]"

  /** The characters for which Python's `str.isspace()` holds. */
  predicate IsSpace(c: char) {
    ('\U{0009}' <= c <= '\U{000D}') || ('\U{001C}' <= c <= '\U{0020}')
    || c == '\U{0085}' || c == '\U{00A0}' || c == '\U{1680}'
    || ('\U{2000}' <= c <= '\U{200A}')
    || c == '\U{2028}' || c == '\U{2029}' || c == '\U{202F}' || c == '\U{205F}' || c == '\U{3000}'
  }

  function LeadingSpaces(s: string): (n: nat)
    ensures n <= |s|
    ensures forall i :: 0 <= i < n ==> IsSpace(s[i])
    ensures n < |s| ==> !IsSpace(s[n])
  {
    if s == [] || !IsSpace(s[0]) then 0 else 1 + LeadingSpaces(s[1..])
  }

  function TrailingSpaces(s: string): (n: nat)
    ensures n <= |s|
    ensures forall i :: |s| - n <= i < |s| ==> IsSpace(s[i])
    ensures n < |s| ==> !IsSpace(s[|s| - n - 1])
  {
    if s == [] || !IsSpace(s[|s| - 1]) then 0 else 1 + TrailingSpaces(s[..|s| - 1])
  }

  /** Python's `s.strip()`: `s` without its leading and trailing whitespace. */
  function Strip(s: string): (r: string)
    ensures LeadingSpaces(s) + |r| <= |s|
    ensures r == s[LeadingSpaces(s)..LeadingSpaces(s) + |r|]
    ensures forall i :: LeadingSpaces(s) + |r| <= i < |s| ==> IsSpace(s[i])
    ensures r != [] ==> !IsSpace(r[0]) && !IsSpace(r[|r| - 1])
    ensures r == [] <==> forall i :: 0 <= i < |s| ==> IsSpace(s[i])
  {
    var t := s[LeadingSpaces(s)..];
    var r := t[..|t| - TrailingSpaces(t)];
    assert LeadingSpaces(s) < |s| ==> r != [] by {
      if LeadingSpaces(s) < |s| {
        assert t[0] == s[LeadingSpaces(s)];
        assert TrailingSpaces(t) < |t|;
      }
    }
    r
  }

  /** Stripping a stripped string changes nothing. */
  lemma {:induction false} StripIdempotent(s: string)
    ensures Strip(Strip(s)) == Strip(s)
  {
    var r := Strip(s);
    if r != [] {
      assert LeadingSpaces(r) == 0;
      assert TrailingSpaces(r) == 0;
    }
  }

  /** Python's `s[:m]`, where a negative `m` counts from the end. */
  function PyPrefix(s: string, m: int): (r: string)
    ensures r == s[..if m >= 0 then (if m <= |s| then m else |s|) else (if |s| + m >= 0 then |s| + m else 0)]
  {
    if m >= 0 then (if m <= |s| then s[..m] else s)
    else if |s| + m >= 0 then s[..|s| + m]
    else []
  }

  /** `trim_user_text(s, max_chars)`. */
  function TrimUserText(s: string, maxChars: int): (r: string)
    ensures |Strip(s)| <= maxChars ==> r == Strip(s)
    ensures |Strip(s)| > maxChars >= 0 ==> r == Strip(s)[..maxChars] + TruncationSuffix
    ensures maxChars < 0 ==>
      r == Strip(s)[..if |Strip(s)| + maxChars >= 0 then |Strip(s)| + maxChars else 0] + TruncationSuffix
  {
    var t := Strip(s);
    if |t| > maxChars then PyPrefix(t, maxChars) + TruncationSuffix else t
  }

  /** The suffix is 13 characters long. */
  lemma SuffixLength()
    ensures |TruncationSuffix| == 13
  {
  }

  /** A non-negative bound holds the result to at most `max_chars` characters plus the suffix; below the bound nothing is added. */
  lemma TrimLength(s: string, maxChars: int)
    requires maxChars >= 0
    ensures |TrimUserText(s, maxChars)| <= maxChars + 13
    ensures |TrimUserText(s, maxChars)| == if |Strip(s)| <= maxChars then |Strip(s)| else maxChars + 13
  {
  }

  /**
   * The result is the stripped input cut to a prefix, followed by the suffix exactly when
   * a cut was needed; it never starts with whitespace when the input holds a non-space
   * character and the bound is positive.
   */
  lemma {:induction false} TrimShape(s: string, maxChars: int)
    ensures var r := TrimUserText(s, maxChars); var t := Strip(s);
      (|t| <= maxChars ==> r == t)
      && (|t| > maxChars ==> exists n :: 0 <= n <= |t| && r == t[..n] + TruncationSuffix)
    ensures (exists i :: 0 <= i < |s| && !IsSpace(s[i])) && maxChars > 0 ==>
      !IsSpace(TrimUserText(s, maxChars)[0])
  {
    var t := Strip(s);
    if |t| > maxChars {
      var n := if maxChars >= 0 then maxChars else if |t| + maxChars >= 0 then |t| + maxChars else 0;
      assert 0 <= n <= |t| && TrimUserText(s, maxChars) == t[..n] + TruncationSuffix;
    }
    if (exists i :: 0 <= i < |s| && !IsSpace(s[i])) && maxChars > 0 {
      assert t != [];
      assert TrimUserText(s, maxChars)[0] == t[0];
    }
  }

  /** Trimming a message that needed no cut a second time gives the same text. */
  lemma {:induction false} TrimIdempotent(s: string, maxChars: int)
    requires |Strip(s)| <= maxChars
    ensures TrimUserText(TrimUserText(s, maxChars), maxChars) == TrimUserText(s, maxChars)
  {
    StripIdempotent(s);
  }
}
