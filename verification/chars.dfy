/**
 * Character classes used by both lexers (src/lex.py and the prototype lex.py).
 *
 * Python's `str.isdigit`, `str.isalpha` and `str.isalnum` are modelled on ASCII;
 * `ischinese` is exactly the CJK range U+4E00..U+9FFF that the source's regular
 * expression names, and `IsPythonSpace` is exactly the set of characters for
 * which Python's `str.isspace` holds.
 */
module Chars {

  /** The character a lexer sees at position `i`: the null character outside the text. */
  function CharAt(s: string, i: int): char
  {
    if 0 <= i < |s| then s[i] else '\0'
  }

  /** `Lexer.ischinese`: a character of the CJK Unified Ideographs block. */
  predicate IsChinese(c: char)
  {
    '\U{4E00}' <= c <= '\U{9FFF}'
  }

  /** `Lexer.iscolon` of src/lex.py. */
  predicate IsColon(c: char)
  {
    c == ':'
  }

  /** `Lexer.isquote`. */
  predicate IsQuote(c: char)
  {
    c == '"'
  }

  /** `Lexer.isspace` of src/lex.py: the indentation characters. */
  predicate IsSpace(c: char)
  {
    c == ' ' || c == '\t' || c == '\r'
  }

  predicate IsDigit(c: char)
  {
    '0' <= c <= '9'
  }

  predicate IsAlpha(c: char)
  {
    'a' <= c <= 'z' || 'A' <= c <= 'Z'
  }

  predicate IsAlnum(c: char)
  {
    IsAlpha(c) || IsDigit(c)
  }

  /** A character that may continue an identifier-shaped run. */
  predicate IsWordChar(c: char)
  {
    IsChinese(c) || IsAlnum(c)
  }

  predicate NotNewline(c: char)
  {
    c != '\n'
  }

  /** Characters that a string literal may not contain. */
  predicate IllegalInString(c: char)
  {
    c == '\r' || c == '\n' || c == '\t' || c == '\\' || c == '%'
  }

  /** A character the string-literal loop steps over: neither the closing quote nor an illegal one. */
  predicate InStringBody(c: char)
  {
    !IsQuote(c) && !IllegalInString(c)
  }

  /** Python's `str.isspace` on one character. */
  predicate IsPythonSpace(c: char)
  {
    || c == '\t' || c == '\n' || c == '\U{0B}' || c == '\U{0C}' || c == '\r'
    || ('\U{1C}' <= c <= '\U{1F}') || c == ' ' || c == '\U{85}' || c == '\U{A0}'
    || c == '\U{1680}' || ('\U{2000}' <= c <= '\U{200A}') || c == '\U{2028}'
    || c == '\U{2029}' || c == '\U{202F}' || c == '\U{205F}' || c == '\U{3000}'
  }

  /**
   * End of the maximal run of characters satisfying `P` that starts at `i`:
   * the first position at or after `i` whose character fails `P`, or the end of `s`.
   * This is what the source's `while P(...): self.nextChar()` loops compute.
   */
  function RunEnd(s: string, i: nat, P: char -> bool): (j: nat)
    ensures i <= j
    ensures j <= |s| || j == i
    ensures forall k :: i <= k < j ==> P(s[k])
    ensures j < |s| ==> !P(s[j])
    decreases |s| - i
  {
    if i < |s| && P(s[i]) then RunEnd(s, i + 1, P) else i
  }

  /** A run stops at the first character that fails `P`, so it never crosses one. */
  lemma {:induction false} RunEndStopsBefore(s: string, i: nat, P: char -> bool, k: nat)
    requires i <= k < |s| && !P(s[k])
    ensures RunEnd(s, i, P) <= k
    decreases |s| - i
  {
    if i < |s| && P(s[i]) {
      RunEndStopsBefore(s, i + 1, P, k);
    }
  }
}
