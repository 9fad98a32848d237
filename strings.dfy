/** Literal string helpers: `_lstrip` and the ASCII case mapping used for HTTP method names. */
module Strings {

  /** `p` is a literal leading substring of `s`. */
  predicate IsPrefix(p: string, s: string) {
    |p| <= |s| && s[..|p|] == p
  }

  /**
   * `_lstrip(text, chars)`: drops `chars` from the front of `text` when `chars`
   * is non-empty and is a literal prefix of `text`; otherwise `text` is returned.
   */
  function Lstrip(text: string, chars: string): (r: string)
    ensures |chars| > 0 && IsPrefix(chars, text) ==> chars + r == text
    ensures !(|chars| > 0 && IsPrefix(chars, text)) ==> r == text
  {
    if |chars| > 0 && IsPrefix(chars, text) then text[|chars|..] else text
  }

  /** Stripping a prefix that was put in front of a string gives the string back. */
  lemma LstripConcat(chars: string, rest: string)
    ensures Lstrip(chars + rest, chars) == rest
  {
    assert (chars + rest)[..|chars|] == chars;
  }

  function UpperChar(c: char): char {
    if 'a' <= c <= 'z' then (c as int - 'a' as int + 'A' as int) as char else c
  }

  function LowerChar(c: char): char {
    if 'A' <= c <= 'Z' then (c as int - 'A' as int + 'a' as int) as char else c
  }

  /** `str.upper()` restricted to ASCII letters. */
  function Upper(s: string): (r: string)
    ensures |r| == |s|
    ensures forall i :: 0 <= i < |s| ==> r[i] == UpperChar(s[i])
  {
    seq(|s|, i requires 0 <= i < |s| => UpperChar(s[i]))
  }

  /** `str.lower()` restricted to ASCII letters. */
  function Lower(s: string): (r: string)
    ensures |r| == |s|
    ensures forall i :: 0 <= i < |s| ==> r[i] == LowerChar(s[i])
  {
    seq(|s|, i requires 0 <= i < |s| => LowerChar(s[i]))
  }

  /** Lower-casing before upper-casing changes nothing: `s.lower().upper() == s.upper()`. */
  lemma UpperOfLower(s: string)
    ensures Upper(Lower(s)) == Upper(s)
  {
    forall i | 0 <= i < |s|
      ensures Upper(Lower(s))[i] == Upper(s)[i]
    {
      var c := s[i];
      if 'A' <= c <= 'Z' {
        assert LowerChar(c) as int == c as int + 32;
      }
    }
  }
}
