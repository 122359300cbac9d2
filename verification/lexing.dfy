/**
 * The lexer of src/lex.py.
 *
 * `Scan` is the specification of one `getToken` call: given the source and the
 * cursor, the token that call returns and where it leaves the cursor, or the
 * lexing error it aborts with. The class `Lexer` is the source's object with its
 * cursor fields and scanning loops, and each of its methods is proved to do what
 * `Scan` and its parts say.
 */
module Lexing {
  import opened Results
  import opened Chars
  import opened Tokens

  /** The lexer's source text: the input with the newline the constructor appends. */
  predicate WellFormedSource(s: string)
  {
    |s| > 0 && s[|s| - 1] == '\n'
  }

  /** The reasons `Lexer.abort` is called. */
  datatype LexError =
    | ExpectedNotEq(next: char)   // a `!` not followed by `=`
    | IllegalStringChar           // `\r`, `\n`, `\t`, `\` or `%` before the closing quote
    | IllegalNumberChar           // a `.` not followed by a digit
    | UnknownToken(c: char)       // a character no rule covers

  /** A token and the cursor position `getToken` leaves behind it. */
  datatype Lexeme = Lexeme(token: Token, next: nat)

  /** The text that tokens of a fixed-spelling kind carry. */
  function FixedSpelling(k: TokenKind): Option<string>
  {
    match k
    case Eof => Some("")
    case Newline => Some("\n")
    case Colon => Some(":")
    case OpenBracket => Some("(")
    case CloseBracket => Some(")")
    case Eq => Some("=")
    case Plus => Some("+")
    case Minus => Some("-")
    case Asterisk => Some("*")
    case Slash => Some("/")
    case EqEq => Some("==")
    case NotEq => Some("!=")
    case Lt => Some("<")
    case LtEq => Some("<=")
    case Gt => Some(">")
    case GtEq => Some(">=")
    case _ => None
  }

  /** A token whose text is its kind's fixed spelling, if it has one, and whose count is 1 unless it is `Space`. */
  predicate Spelled(t: Token)
  {
    && (FixedSpelling(t.kind).Some? ==> t.text == FixedSpelling(t.kind).value)
    && (t.kind == Space ==> t.count >= 1)
    && (t.kind != Space ==> t.count == 1)
  }

  /**
   * Whether `getToken` skips spaces before the token: `peekBackward` sees a character
   * (the cursor is in 1..|s|) and it is not a newline.
   */
  predicate SkipsSpaces(s: string, pos: nat)
  {
    1 <= pos <= |s| && s[pos - 1] != '\n'
  }

  /** Where the cursor stands after `skipWhitespace`, when it applies. */
  function AfterSpaces(s: string, pos: nat): nat
  {
    if SkipsSpaces(s, pos) then RunEnd(s, pos, IsSpace) else pos
  }

  /** Where the cursor stands after `skipWhitespace` and `skipComment`: the first character of the token. */
  function TokenStart(s: string, pos: nat): nat
  {
    var q := AfterSpaces(s, pos);
    if CharAt(s, q) == '#' then RunEnd(s, q, NotNewline) else q
  }

  /** The token start never lies behind the cursor, and inside the text it stays inside the text. */
  lemma {:induction false} TokenStartBounds(s: string, pos: nat)
    requires WellFormedSource(s)
    ensures pos <= AfterSpaces(s, pos) <= TokenStart(s, pos)
    ensures pos < |s| ==> TokenStart(s, pos) < |s|
    ensures pos >= |s| ==> TokenStart(s, pos) == pos
  {
    var q := AfterSpaces(s, pos);
    if pos < |s| {
      if SkipsSpaces(s, pos) {
        RunEndStopsBefore(s, pos, IsSpace, |s| - 1);
      }
      if CharAt(s, q) == '#' {
        RunEndStopsBefore(s, q, NotNewline, |s| - 1);
      }
    }
  }

  /** The string branch: the characters up to the closing quote, unless an illegal one comes first. */
  function ScanString(s: string, p: nat): Result<Lexeme, LexError>
    requires WellFormedSource(s) && p < |s|
  {
    var q := RunEnd(s, p + 1, InStringBody);
    if q < |s| && IsQuote(s[q]) then Ok(Lexeme(Token(s[p + 1..q], String, 1), q + 1))
    else Err(IllegalStringChar)
  }

  /** The number branch: a run of digits, then optionally `.` and at least one more digit. */
  function ScanNumber(s: string, p: nat): Result<Lexeme, LexError>
    requires p < |s|
  {
    var e := RunEnd(s, p + 1, IsDigit);
    if CharAt(s, e) == '.' then
      if IsDigit(CharAt(s, e + 1)) then
        var f := RunEnd(s, e + 1, IsDigit);
        Ok(Lexeme(Token(s[p..f], Number, 1), f))
      else Err(IllegalNumberChar)
    else Ok(Lexeme(Token(s[p..e], Number, 1), e))
  }

  /** The identifier branch: a run of CJK and alphanumeric characters, classified by `WordKind`. */
  function ScanWord(s: string, p: nat): Result<Lexeme, LexError>
    requires p < |s|
  {
    var e := RunEnd(s, p + 1, IsWordChar);
    Ok(Lexeme(Token(s[p..e], WordKind(s[p..e]), 1), e))
  }

  /** The indentation branch: one `Space` token for the whole run, counting its characters. */
  function ScanSpaces(s: string, p: nat): Result<Lexeme, LexError>
    requires p < |s|
  {
    var e := RunEnd(s, p + 1, IsSpace);
    Ok(Lexeme(Token([s[e - 1]], Space, e - p), e))
  }

  /** The characters that open one of the operator branches of `getToken`. */
  predicate IsOperatorStart(c: char)
  {
    c == '+' || c == '-' || c == '*' || c == '/' || c == '=' || c == '>' || c == '<' || c == '!'
  }

  /** The operator branches: `+ - * /` and `= > < !`, each of the last four with an optional `=`. */
  function ScanOperator(s: string, p: nat): Result<Lexeme, LexError>
  {
    var c := CharAt(s, p);
    if c == '+' then Ok(Lexeme(Token("+", Plus, 1), p + 1))
    else if c == '-' then Ok(Lexeme(Token("-", Minus, 1), p + 1))
    else if c == '*' then Ok(Lexeme(Token("*", Asterisk, 1), p + 1))
    else if c == '/' then Ok(Lexeme(Token("/", Slash, 1), p + 1))
    else if c == '=' then
      if CharAt(s, p + 1) == '=' then Ok(Lexeme(Token("==", EqEq, 1), p + 2))
      else Ok(Lexeme(Token("=", Eq, 1), p + 1))
    else if c == '>' then
      if CharAt(s, p + 1) == '=' then Ok(Lexeme(Token(">=", GtEq, 1), p + 2))
      else Ok(Lexeme(Token(">", Gt, 1), p + 1))
    else if c == '<' then
      if CharAt(s, p + 1) == '=' then Ok(Lexeme(Token("<=", LtEq, 1), p + 2))
      else Ok(Lexeme(Token("<", Lt, 1), p + 1))
    else if CharAt(s, p + 1) == '=' then Ok(Lexeme(Token("!=", NotEq, 1), p + 2))
    else Err(ExpectedNotEq(CharAt(s, p + 1)))
  }

  /** The remaining branches, in the order the source tests them. */
  function ScanOther(s: string, p: nat): Result<Lexeme, LexError>
    requires WellFormedSource(s)
  {
    var c := CharAt(s, p);
    if IsQuote(c) then ScanString(s, p)
    else if IsDigit(c) then ScanNumber(s, p)
    else if IsChinese(c) || IsAlpha(c) then ScanWord(s, p)
    else if c == '\n' then Ok(Lexeme(Token("\n", Newline, 1), p + 1))
    else if IsColon(c) then Ok(Lexeme(Token(":", Colon, 1), p + 1))
    else if IsSpace(c) then ScanSpaces(s, p)
    else if c == '(' then Ok(Lexeme(Token("(", OpenBracket, 1), p + 1))
    else if c == ')' then Ok(Lexeme(Token(")", CloseBracket, 1), p + 1))
    else if c == '\0' then Ok(Lexeme(Token("", Eof, 1), p + 1))
    else Err(UnknownToken(c))
  }

  /** The token that starts at `p`, in the order the source's `if`/`elif` chain tests the first character. */
  function ScanAt(s: string, p: nat): Result<Lexeme, LexError>
    requires WellFormedSource(s)
  {
    if IsOperatorStart(CharAt(s, p)) then ScanOperator(s, p) else ScanOther(s, p)
  }

  /** One `getToken` call with the cursor at `pos`. */
  function Scan(s: string, pos: nat): Result<Lexeme, LexError>
    requires WellFormedSource(s)
  {
    ScanAt(s, TokenStart(s, pos))
  }

  /**
   * Every call moves the cursor forward; a call that starts inside the text ends at most
   * one past its last character, so only `Eof` tokens lie beyond it.
   */
  lemma ScanProgress(s: string, pos: nat)
    requires WellFormedSource(s)
    ensures Scan(s, pos).Ok? ==> pos < Scan(s, pos).value.next
    ensures Scan(s, pos).Ok? && pos < |s| ==> Scan(s, pos).value.next <= |s|
    ensures pos >= |s| ==> Scan(s, pos) == Ok(Lexeme(Token("", Eof, 1), pos + 1))
  {
    TokenStartBounds(s, pos);
    ScanAtProgress(s, TokenStart(s, pos));
  }

  /** `ScanProgress` for a token that starts at `p`. */
  lemma ScanAtProgress(s: string, p: nat)
    requires WellFormedSource(s)
    ensures ScanAt(s, p).Ok? ==> p < ScanAt(s, p).value.next
    ensures ScanAt(s, p).Ok? && p < |s| ==> ScanAt(s, p).value.next <= |s|
    ensures p >= |s| ==> ScanAt(s, p) == Ok(Lexeme(Token("", Eof, 1), p + 1))
  {
    if IsOperatorStart(CharAt(s, p)) {
      OperatorProgress(s, p);
    } else {
      OtherProgress(s, p);
    }
  }

  /** The operator branches read one or two characters of the text. */
  lemma OperatorProgress(s: string, p: nat)
    requires WellFormedSource(s) && IsOperatorStart(CharAt(s, p))
    ensures ScanOperator(s, p).Ok? ==> p < ScanOperator(s, p).value.next
    ensures ScanOperator(s, p).Ok? && p < |s| ==> ScanOperator(s, p).value.next <= |s|
  {
  }

  /** The other branches read at least one character, and none beyond the text. */
  lemma OtherProgress(s: string, p: nat)
    requires WellFormedSource(s)
    ensures ScanOther(s, p).Ok? ==> p < ScanOther(s, p).value.next
    ensures ScanOther(s, p).Ok? && p < |s| ==> ScanOther(s, p).value.next <= |s|
    ensures p >= |s| ==> ScanOther(s, p) == Ok(Lexeme(Token("", Eof, 1), p + 1))
  {
  }

  /** The first `k` tokens from `pos` on, and the cursor after them. */
  datatype Lexed = Lexed(tokens: seq<Token>, next: nat)

  /** `k` successive `getToken` calls from `pos`, stopping at the first error. */
  function LexN(s: string, pos: nat, k: nat): Result<Lexed, LexError>
    requires WellFormedSource(s)
  {
    if k == 0 then Ok(Lexed([], pos))
    else
      match LexN(s, pos, k - 1)
      case Err(e) => Err(e)
      case Ok(l) =>
        match Scan(s, l.next)
        case Err(e) => Err(e)
        case Ok(x) => Ok(Lexed(l.tokens + [x.token], x.next))
  }

  /** The tokens of the program from `pos` on, up to and without the first `Eof`, or the first lexing error. */
  function Tokenize(s: string, pos: nat): Result<seq<Token>, LexError>
    requires WellFormedSource(s)
    decreases |s| + 1 - pos
  {
    match Scan(s, pos)
    case Err(e) => Err(e)
    case Ok(l) =>
      if l.token.kind == Eof then Ok([])
      else
        ScanProgress(s, pos);
        match Tokenize(s, l.next)
        case Err(e) => Err(e)
        case Ok(ts) => Ok([l.token] + ts)
  }

  /** A method's result agrees with a specification result when the cursor ends at `next`. */
  predicate Agrees(expected: Result<Lexeme, LexError>, r: Result<Token, LexError>, next: nat)
  {
    match r
    case Ok(t) => expected == Ok(Lexeme(t, next))
    case Err(e) => expected == Err(e)
  }

  class Lexer {
    /** The input with one newline appended. */
    const source: string
    var curChar: char
    var curPos: nat

    ghost predicate Valid()
      reads this
    {
      WellFormedSource(source) && curChar == CharAt(source, curPos)
    }

    constructor (input: string)
      ensures Valid() && source == input + "\n" && curPos == 0
    {
      source := input + "\n";
      curPos := 0;
      curChar := (input + "\n")[0];
    }

    /** Moves the cursor one character on; past the end the current character is `'\0'`. */
    method NextChar()
      requires Valid()
      modifies this
      ensures Valid() && curPos == old(curPos) + 1
    {
      curPos := curPos + 1;
      if curPos >= |source| {
        curChar := '\0';
      } else {
        curChar := source[curPos];
      }
    }

    /** The character after the cursor, `'\0'` past the end. */
    function PeekForward(): (c: char)
      reads this
      ensures curPos + 1 < |source| ==> c == source[curPos + 1]
      ensures curPos + 1 >= |source| ==> c == '\0'
    {
      if curPos + 1 >= |source| then '\0' else source[curPos + 1]
    }

    /** The character before the cursor; none at position 0 or beyond the end. */
    function PeekBackward(): (c: Option<char>)
      reads this
      ensures c.Some? <==> 1 <= curPos <= |source|
      ensures c.Some? ==> c.value == source[curPos - 1]
    {
      if curPos <= 0 || curPos > |source| then None else Some(source[curPos - 1])
    }

    method SkipWhitespace()
      requires Valid()
      modifies this
      ensures Valid() && curPos == RunEnd(source, old(curPos), IsSpace)
    {
      while IsSpace(curChar)
        invariant Valid() && old(curPos) <= curPos
        invariant RunEnd(source, old(curPos), IsSpace) == RunEnd(source, curPos, IsSpace)
        decreases |source| - curPos
      {
        NextChar();
      }
    }

    method SkipComment()
      requires Valid()
      modifies this
      ensures Valid()
      ensures curPos == if old(curChar) == '#' then RunEnd(source, old(curPos), NotNewline) else old(curPos)
    {
      if curChar == '#' {
        while curChar != '\n'
          invariant Valid() && old(curPos) <= curPos < |source|
          invariant RunEnd(source, old(curPos), NotNewline) == RunEnd(source, curPos, NotNewline)
          decreases |source| - curPos
        {
          NextChar();
        }
      }
    }

    /** The string branch of `getToken`, leaving the cursor on the closing quote. */
    method ReadString() returns (r: Result<Token, LexError>)
      requires Valid() && IsQuote(curChar)
      modifies this
      ensures Valid() && old(curPos) < |source|
      ensures Agrees(ScanString(source, old(curPos)), r, curPos + 1)
    {
      NextChar();
      var startPos := curPos;
      while !IsQuote(curChar)
        invariant Valid() && startPos <= curPos < |source| && startPos == old(curPos) + 1
        invariant RunEnd(source, startPos, InStringBody) == RunEnd(source, curPos, InStringBody)
        decreases |source| - curPos
      {
        if IllegalInString(curChar) {
          return Err(IllegalStringChar);
        }
        NextChar();
      }
      r := Ok(Token(source[startPos..curPos], String, 1));
    }

    /** The number branch of `getToken`, leaving the cursor on the last digit. */
    method ReadNumber() returns (r: Result<Token, LexError>)
      requires Valid() && IsDigit(curChar)
      modifies this
      ensures Valid() && old(curPos) < |source|
      ensures Agrees(ScanNumber(source, old(curPos)), r, curPos + 1)
    {
      var startPos := curPos;
      SkipDigits();
      if PeekForward() == '.' {
        NextChar();
        if !IsDigit(PeekForward()) {
          return Err(IllegalNumberChar);
        }
        SkipDigits();
      }
      r := Ok(Token(source[startPos..curPos + 1], Number, 1));
    }

    /** The digit loops of the number branch: moves the cursor onto the last digit of the run after it. */
    method SkipDigits()
      requires Valid() && curPos < |source|
      modifies this
      ensures Valid() && old(curPos) <= curPos < |source|
      ensures curPos + 1 == RunEnd(source, old(curPos) + 1, IsDigit)
    {
      while IsDigit(PeekForward())
        invariant Valid() && old(curPos) <= curPos < |source|
        invariant RunEnd(source, old(curPos) + 1, IsDigit) == RunEnd(source, curPos + 1, IsDigit)
        decreases |source| - curPos
      {
        NextChar();
      }
    }

    /** The identifier branch of `getToken`, leaving the cursor on the last character of the run. */
    method ReadWord() returns (t: Token)
      requires Valid() && (IsChinese(curChar) || IsAlpha(curChar))
      modifies this
      ensures Valid() && old(curPos) < |source|
      ensures ScanWord(source, old(curPos)) == Ok(Lexeme(t, curPos + 1))
    {
      var startPos := curPos;
      SkipWordChars();
      var text := source[startPos..curPos + 1];
      t := Token(text, WordKind(text), 1);
    }

    /** The loop of the identifier branch: moves the cursor onto the last character of the word run after it. */
    method SkipWordChars()
      requires Valid() && curPos < |source|
      modifies this
      ensures Valid() && old(curPos) <= curPos < |source|
      ensures curPos + 1 == RunEnd(source, old(curPos) + 1, IsWordChar)
    {
      while IsChinese(PeekForward()) || IsAlnum(PeekForward())
        invariant Valid() && old(curPos) <= curPos < |source|
        invariant RunEnd(source, old(curPos) + 1, IsWordChar) == RunEnd(source, curPos + 1, IsWordChar)
        decreases |source| - curPos
      {
        NextChar();
      }
    }

    /** The indentation branch of `getToken`, leaving the cursor on the last space character. */
    method ReadSpaces() returns (t: Token)
      requires Valid() && IsSpace(curChar)
      modifies this
      ensures Valid() && old(curPos) < |source|
      ensures ScanSpaces(source, old(curPos)) == Ok(Lexeme(t, curPos + 1))
    {
      var numSpaces := 1;
      while IsSpace(PeekForward())
        invariant Valid() && old(curPos) <= curPos < |source|
        invariant numSpaces == curPos - old(curPos) + 1
        invariant RunEnd(source, old(curPos) + 1, IsSpace) == RunEnd(source, curPos + 1, IsSpace)
        decreases |source| - curPos
      {
        NextChar();
        numSpaces := numSpaces + 1;
      }
      t := Token([curChar], Space, numSpaces);
    }

    /** `getToken`: the next token, or the error the lexer aborts with. */
    method GetToken() returns (r: Result<Token, LexError>)
      requires Valid()
      modifies this
      ensures Valid()
      ensures Agrees(Scan(source, old(curPos)), r, curPos)
    {
      var back := PeekBackward();
      if back.Some? && back.value != '\n' {
        SkipWhitespace();
      }
      SkipComment();
      assert curPos == TokenStart(source, old(curPos));
      if IsOperatorStart(curChar) {
        r := ReadOperator();
      } else {
        r := ReadOther();
      }
    }

    /** The operator branches of `getToken`: `+ - * /` and the one- or two-character `= > < !` forms. */
    method ReadOperator() returns (r: Result<Token, LexError>)
      requires Valid() && IsOperatorStart(curChar)
      modifies this
      ensures Valid()
      ensures Agrees(ScanOperator(source, old(curPos)), r, curPos)
    {
      var token: Token;
      if curChar == '+' {
        token := Token([curChar], Plus, 1);
      } else if curChar == '-' {
        token := Token([curChar], Minus, 1);
      } else if curChar == '*' {
        token := Token([curChar], Asterisk, 1);
      } else if curChar == '/' {
        token := Token([curChar], Slash, 1);
      } else if PeekForward() == '=' {
        var lastChar := curChar;
        NextChar();
        var kind := if lastChar == '=' then EqEq else if lastChar == '>' then GtEq else if lastChar == '<' then LtEq else NotEq;
        token := Token([lastChar, curChar], kind, 1);
      } else if curChar == '!' {
        return Err(ExpectedNotEq(PeekForward()));
      } else {
        var kind := if curChar == '=' then Eq else if curChar == '>' then Gt else Lt;
        token := Token([curChar], kind, 1);
      }
      NextChar();
      r := Ok(token);
    }

    /** The remaining branches of `getToken`: literals, words, newline, colon, indentation, brackets, end of input. */
    method ReadOther() returns (r: Result<Token, LexError>)
      requires Valid() && !IsOperatorStart(curChar)
      modifies this
      ensures Valid()
      ensures Agrees(ScanOther(source, old(curPos)), r, curPos)
    {
      if IsQuote(curChar) || IsDigit(curChar) || IsChinese(curChar) || IsAlpha(curChar) {
        r := ReadLiteral();
        return;
      }
      var token: Token;
      if curChar == '\n' {
        token := Token([curChar], Newline, 1);
      } else if IsColon(curChar) {
        token := Token([curChar], Colon, 1);
      } else if IsSpace(curChar) {
        token := ReadSpaces();
      } else if curChar == '(' {
        token := Token([curChar], OpenBracket, 1);
      } else if curChar == ')' {
        token := Token([curChar], CloseBracket, 1);
      } else if curChar == '\0' {
        token := Token("", Eof, 1);
      } else {
        return Err(UnknownToken(curChar));
      }
      NextChar();
      r := Ok(token);
    }

    /** The first three of those branches: a string literal, a number or a word. */
    method ReadLiteral() returns (r: Result<Token, LexError>)
      requires Valid() && (IsQuote(curChar) || IsDigit(curChar) || IsChinese(curChar) || IsAlpha(curChar))
      modifies this
      ensures Valid()
      ensures Agrees(ScanOther(source, old(curPos)), r, curPos)
    {
      var token: Token;
      if IsQuote(curChar) {
        r := ReadString();
        if r.Err? {
          return;
        }
        token := r.value;
      } else if IsDigit(curChar) {
        r := ReadNumber();
        if r.Err? {
          return;
        }
        token := r.value;
      } else {
        token := ReadWord();
      }
      NextChar();
      r := Ok(token);
    }
  }
}
