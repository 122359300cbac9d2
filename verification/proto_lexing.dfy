/**
 * The prototype lexer of lex.py at the repository root, an earlier version of the
 * src/ lexer.
 *
 * It has three keywords (no `elif`, `else`, `break`, `continue`), no brackets and no
 * logical operators. Its colon token is `:` or the full-width `：` (U+FF1A). Its
 * indentation run is measured with Python's `str.isspace`, so a run may take in
 * newline characters. The constructor refuses a source whose first character is
 * whitespace. `peekBackward` has no upper bound: once the cursor is past the
 * appended newline (after the `EOF` token), the next `getToken` indexes outside the
 * source and fails.
 */
module ProtoLexing {
  import opened Results
  import opened Chars
  import Tokens
  import Lexing

  /** `TokenType` of lex.py. */
  datatype TokenKind =
    | Eof | Newline | Space | Colon | Number | Ident | String
    // Keywords.
    | Print | If | While
    // Operators.
    | Eq | Plus | Minus | Asterisk | Slash | EqEq | NotEq | Lt | LtEq | Gt | GtEq

  /** A token: its text, its kind, and a count that is the run length for `Space`. */
  datatype Token = Token(text: string, kind: TokenKind, count: nat)

  /** The reasons the prototype lexer stops: its `abort` calls and the out-of-range index. */
  datatype LexError =
    | UnexpectedIndent            // the constructor's check on the first character
    | ExpectedNotEq(next: char)   // a `!` not followed by `=`
    | IllegalStringChar           // `\r`, `\n`, `\t`, `\` or `%` before the closing quote
    | IllegalNumberChar           // a `.` not followed by a digit
    | UnknownToken(c: char)       // a character no rule covers
    | IndexOutOfRange             // `peekBackward` reading beyond the source

  /** A token and the cursor position `getToken` leaves behind it. */
  datatype Lexeme = Lexeme(token: Token, next: nat)

  const ChineseKeywords: map<TokenKind, string> := map[
    Print := "印出",
    If := "如果",
    While := "当"
  ]

  /** `Lexer.iscolon` of lex.py: the ASCII colon or the full-width one. */
  predicate IsColonOrFullWidth(c: char)
  {
    c == ':' || c == '\U{FF1A}'
  }

  /** A text without the null character, which the lexer reads as the end of input. */
  predicate NulFree(s: string)
  {
    forall i :: 0 <= i < |s| ==> s[i] != '\0'
  }

  /** `Token.checkIfKeyword` of lex.py: the 1XX kinds scanned in declaration order. */
  function CheckIfKeyword(text: string): (r: Option<TokenKind>)
    ensures r.Some? ==> r.value in ChineseKeywords && ChineseKeywords[r.value] == text
  {
    if text == ChineseKeywords[Print] then Some(Print)
    else if text == ChineseKeywords[If] then Some(If)
    else if text == ChineseKeywords[While] then Some(While)
    else None
  }

  /** Only the three spellings of the table are keywords; the later keywords of src/ lex as identifiers. */
  lemma OnlyThreeKeywords(text: string)
    ensures CheckIfKeyword(text).Some? <==> text in ChineseKeywords.Values
    ensures text in Tokens.ChineseKeywords.Values && text !in ChineseKeywords.Values ==> CheckIfKeyword(text).None?
  {
    assert ChineseKeywords.Values == {"印出", "如果", "当"} by {
      assert ChineseKeywords[Print] == "印出" && ChineseKeywords[If] == "如果" && ChineseKeywords[While] == "当";
    }
  }

  /**
   * Whether `getToken` skips spaces first: `peekBackward` gives `None` at position 0,
   * which differs from a newline, and otherwise the previous character.
   */
  predicate SkipsSpaces(s: string, pos: nat)
  {
    pos == 0 || (pos <= |s| && s[pos - 1] != '\n')
  }

  /** Where the cursor stands after `skipWhitespace`, when it applies. */
  function AfterSpaces(s: string, pos: nat): nat
  {
    if SkipsSpaces(s, pos) then RunEnd(s, pos, IsSpace) else pos
  }

  /** Where the cursor stands after `skipWhitespace` and `skipComment`. */
  function TokenStart(s: string, pos: nat): nat
  {
    var q := AfterSpaces(s, pos);
    if CharAt(s, q) == '#' then RunEnd(s, q, NotNewline) else q
  }

  lemma {:induction false} TokenStartBounds(s: string, pos: nat)
    requires Lexing.WellFormedSource(s) && pos <= |s|
    ensures pos <= TokenStart(s, pos)
    ensures pos < |s| ==> TokenStart(s, pos) < |s|
    ensures pos == |s| ==> TokenStart(s, pos) == pos
  {
    var q := AfterSpaces(s, pos);
    if pos < |s| {
      if SkipsSpaces(s, pos) {
        RunEndStopsBefore(s, pos, IsSpace, |s| - 1);
      }
      if CharAt(s, q) == '#' {
        RunEndStopsBefore(s, q, NotNewline, |s| - 1);
      }
    }
  }

  /** The operator branches: `+ - * /` and `= > < !`, each of the last four with an optional `=`. */
  function ScanOperator(s: string, p: nat): Result<Lexeme, LexError>
  {
    var c := CharAt(s, p);
    if c == '+' then Ok(Lexeme(Token("+", Plus, 1), p + 1))
    else if c == '-' then Ok(Lexeme(Token("-", Minus, 1), p + 1))
    else if c == '*' then Ok(Lexeme(Token("*", Asterisk, 1), p + 1))
    else if c == '/' then Ok(Lexeme(Token("/", Slash, 1), p + 1))
    else if c == '=' then
      if CharAt(s, p + 1) == '=' then Ok(Lexeme(Token("==", EqEq, 1), p + 2))
      else Ok(Lexeme(Token("=", Eq, 1), p + 1))
    else if c == '>' then
      if CharAt(s, p + 1) == '=' then Ok(Lexeme(Token(">=", GtEq, 1), p + 2))
      else Ok(Lexeme(Token(">", Gt, 1), p + 1))
    else if c == '<' then
      if CharAt(s, p + 1) == '=' then Ok(Lexeme(Token("<=", LtEq, 1), p + 2))
      else Ok(Lexeme(Token("<", Lt, 1), p + 1))
    else if CharAt(s, p + 1) == '=' then Ok(Lexeme(Token("!=", NotEq, 1), p + 2))
    else Err(ExpectedNotEq(CharAt(s, p + 1)))
  }

  /** The string branch: the characters up to the closing quote, unless an illegal one comes first. */
  function ScanString(s: string, p: nat): Result<Lexeme, LexError>
    requires Lexing.WellFormedSource(s) && p < |s|
  {
    var q := RunEnd(s, p + 1, InStringBody);
    if q < |s| && IsQuote(s[q]) then Ok(Lexeme(Token(s[p + 1..q], String, 1), q + 1))
    else Err(IllegalStringChar)
  }

  /** The number branch: a run of digits, then optionally `.` and at least one more digit. */
  function ScanNumber(s: string, p: nat): Result<Lexeme, LexError>
    requires p < |s|
  {
    var e := RunEnd(s, p + 1, IsDigit);
    if CharAt(s, e) == '.' then
      if IsDigit(CharAt(s, e + 1)) then
        var f := RunEnd(s, e + 1, IsDigit);
        Ok(Lexeme(Token(s[p..f], Number, 1), f))
      else Err(IllegalNumberChar)
    else Ok(Lexeme(Token(s[p..e], Number, 1), e))
  }

  /** The identifier branch: a run of CJK and alphanumeric characters, a keyword if it spells one. */
  function ScanWord(s: string, p: nat): Result<Lexeme, LexError>
    requires p < |s|
  {
    var e := RunEnd(s, p + 1, IsWordChar);
    var text := s[p..e];
    Ok(Lexeme(Token(text, if CheckIfKeyword(text).Some? then CheckIfKeyword(text).value else Ident, 1), e))
  }

  /** The whitespace branch: one `Space` token for the whole `isspace` run, carrying its last character. */
  function ScanSpaces(s: string, p: nat): Result<Lexeme, LexError>
    requires p < |s|
  {
    var e := RunEnd(s, p + 1, IsPythonSpace);
    Ok(Lexeme(Token([s[e - 1]], Space, e - p), e))
  }

  /** The remaining branches, in the order lex.py tests them. */
  function ScanOther(s: string, p: nat): Result<Lexeme, LexError>
    requires Lexing.WellFormedSource(s)
  {
    var c := CharAt(s, p);
    if IsQuote(c) then ScanString(s, p)
    else if IsDigit(c) then ScanNumber(s, p)
    else if IsChinese(c) || IsAlpha(c) then ScanWord(s, p)
    else if c == '\n' then Ok(Lexeme(Token("\n", Newline, 1), p + 1))
    else if IsColonOrFullWidth(c) then Ok(Lexeme(Token([c], Colon, 1), p + 1))
    else if IsPythonSpace(c) then ScanSpaces(s, p)
    else if c == '\0' then Ok(Lexeme(Token("", Eof, 1), p + 1))
    else Err(UnknownToken(c))
  }

  /** The token that starts at `p`. */
  function ScanAt(s: string, p: nat): Result<Lexeme, LexError>
    requires Lexing.WellFormedSource(s)
  {
    if Lexing.IsOperatorStart(CharAt(s, p)) then ScanOperator(s, p) else ScanOther(s, p)
  }

  /** One `getToken` call with the cursor at `pos`; beyond the source `peekBackward` fails first. */
  function Scan(s: string, pos: nat): Result<Lexeme, LexError>
    requires Lexing.WellFormedSource(s)
  {
    if pos > |s| then Err(IndexOutOfRange) else ScanAt(s, TokenStart(s, pos))
  }

  /** A successful call starts at most at the end of the source and moves the cursor forward, at most one past the end. */
  lemma ScanProgress(s: string, pos: nat)
    requires Lexing.WellFormedSource(s)
    ensures Scan(s, pos).Ok? ==> pos <= |s| && pos < Scan(s, pos).value.next <= |s| + 1
    ensures Scan(s, pos).Ok? && pos < |s| ==> Scan(s, pos).value.next <= |s|
  {
    if pos <= |s| {
      TokenStartBounds(s, pos);
    }
  }

  /**
   * In a source without null characters the only `Eof` token is the one read at the very
   * end, and the call after it fails with an out-of-range index.
   */
  lemma EofOnlyAtEnd(s: string, pos: nat)
    requires Lexing.WellFormedSource(s) && NulFree(s)
    requires Scan(s, pos).Ok? && Scan(s, pos).value.token.kind == Eof
    ensures pos == |s| && Scan(s, pos).value.next == |s| + 1
    ensures Scan(s, Scan(s, pos).value.next) == Err(IndexOutOfRange)
  {
    TokenStartBounds(s, pos);
  }

  /** The tokens of successive `getToken` calls and the cursor after the last of them. */
  datatype Lexed = Lexed(tokens: seq<Token>, next: nat)

  /** `k` successive `getToken` calls from `pos`, stopping at the first error. */
  function LexN(s: string, pos: nat, k: nat): Result<Lexed, LexError>
    requires Lexing.WellFormedSource(s)
  {
    if k == 0 then Ok(Lexed([], pos))
    else
      match LexN(s, pos, k - 1)
      case Err(e) => Err(e)
      case Ok(l) =>
        match Scan(s, l.next)
        case Err(e) => Err(e)
        case Ok(x) => Ok(Lexed(l.tokens + [x.token], x.next))
  }

  /** `k` successful calls give `k` tokens. */
  lemma {:induction false} LexNLength(s: string, pos: nat, k: nat)
    requires Lexing.WellFormedSource(s)
    ensures LexN(s, pos, k).Ok? ==> |LexN(s, pos, k).value.tokens| == k
  {
    if k > 0 {
      LexNLength(s, pos, k - 1);
    }
  }

  /** When `k` calls succeed, so do the first `j`, and their tokens begin the tokens of all `k`. */
  lemma {:induction false} LexNPrefix(s: string, pos: nat, k: nat, j: nat)
    requires Lexing.WellFormedSource(s) && j <= k && LexN(s, pos, k).Ok?
    ensures LexN(s, pos, j).Ok? && LexN(s, pos, j).value.tokens <= LexN(s, pos, k).value.tokens
    decreases k
  {
    if j < k {
      var shorter := LexN(s, pos, k - 1);
      assert shorter.Ok?;
      LexNPrefix(s, pos, k - 1, j);
      var x := Scan(s, shorter.value.next).value;
      assert LexN(s, pos, k).value.tokens == shorter.value.tokens + [x.token];
    }
  }

  /** The full-width colon is a colon token carrying that character. */
  lemma FullWidthColon(s: string, p: nat)
    requires Lexing.WellFormedSource(s) && p < |s| && s[p] == '\U{FF1A}'
    ensures ScanAt(s, p) == Ok(Lexeme(Token("\U{FF1A}", Colon, 1), p + 1))
  {
  }

  /** There are no bracket tokens: `(` and `)` are unknown. */
  lemma BracketsAreUnknown(s: string, p: nat)
    requires Lexing.WellFormedSource(s) && p < |s| && (s[p] == '(' || s[p] == ')')
    ensures ScanAt(s, p) == Err(UnknownToken(s[p]))
  {
  }

  /**
   * At the start of a line (after a newline, where no spaces are skipped) whitespace other than
   * the newline itself makes one `Space` token for the maximal `isspace` run. Since the newline
   * is `isspace` as well, the run of a line that holds only whitespace goes on past its newline.
   */
  lemma IndentationRun(s: string, pos: nat)
    requires Lexing.WellFormedSource(s) && pos < |s| && !SkipsSpaces(s, pos) && IsPythonSpace(s[pos]) && s[pos] != '\n'
    ensures Scan(s, pos).Ok?
    ensures var l := Scan(s, pos).value;
      && l.token.kind == Space
      && l.token.count == l.next - pos
      && pos < l.next <= |s|
      && (forall k :: pos <= k < l.next ==> IsPythonSpace(s[k]))
      && (l.next < |s| ==> !IsPythonSpace(s[l.next]))
      && l.token.text == [s[l.next - 1]]
    ensures forall k :: pos <= k < |s| && s[k] == '\n' && (forall m :: pos <= m < k ==> IsPythonSpace(s[m])) ==>
      k < Scan(s, pos).value.next
  {
    ScanOfSpace(s, pos);
    var e := RunEnd(s, pos + 1, IsPythonSpace);
    forall k | pos <= k < |s| && s[k] == '\n' && (forall m :: pos <= m < k ==> IsPythonSpace(s[m]))
      ensures k < e
    {
      if e <= k {
        assert IsPythonSpace(s[e]);
      }
    }
  }

  /** Where no spaces are skipped, a space other than a newline starts a run of spaces. */
  lemma ScanOfSpace(s: string, pos: nat)
    requires Lexing.WellFormedSource(s) && pos < |s| && !SkipsSpaces(s, pos) && IsPythonSpace(s[pos]) && s[pos] != '\n'
    ensures Scan(s, pos) == ScanSpaces(s, pos)
  {
    assert TokenStart(s, pos) == pos;
    assert ScanAt(s, pos) == ScanOther(s, pos);
  }

  /** `IndentationRun` on a blank line: the token takes in its newline and carries it as its text. */
  lemma SpaceRunTakesNewline()
    ensures Scan("x\n \ny\n", 2) == Ok(Lexeme(Token("\n", Space, 2), 4))
  {
    var s := "x\n \ny\n";
    assert !SkipsSpaces(s, 2);
    IndentationRun(s, 2);
    assert !IsPythonSpace(s[4]);
    RunEndStopsBefore(s, 3, IsPythonSpace, 4);
  }

  /** The kind src/lex.py gives to the token of the same spelling. */
  function SrcKind(k: TokenKind): Tokens.TokenKind
  {
    match k
    case Eof => Tokens.Eof
    case Newline => Tokens.Newline
    case Space => Tokens.Space
    case Colon => Tokens.Colon
    case Number => Tokens.Number
    case Ident => Tokens.Ident
    case String => Tokens.String
    case Print => Tokens.Print
    case If => Tokens.If
    case While => Tokens.While
    case Eq => Tokens.Eq
    case Plus => Tokens.Plus
    case Minus => Tokens.Minus
    case Asterisk => Tokens.Asterisk
    case Slash => Tokens.Slash
    case EqEq => Tokens.EqEq
    case NotEq => Tokens.NotEq
    case Lt => Tokens.Lt
    case LtEq => Tokens.LtEq
    case Gt => Tokens.Gt
    case GtEq => Tokens.GtEq
  }

  /** The same token and cursor as a src/ lexeme. */
  predicate SameLexeme(x: Lexeme, y: Lexing.Lexeme)
  {
    x.next == y.next && x.token.text == y.token.text && SrcKind(x.token.kind) == y.token.kind
    && x.token.count == y.token.count
  }

  /** The same abort as a src/ lexing error. */
  predicate SameError(e: LexError, f: Lexing.LexError)
  {
    match e
    case ExpectedNotEq(c) => f == Lexing.ExpectedNotEq(c)
    case IllegalStringChar => f == Lexing.IllegalStringChar
    case IllegalNumberChar => f == Lexing.IllegalNumberChar
    case UnknownToken(c) => f == Lexing.UnknownToken(c)
    case _ => false
  }

  /** The same outcome as a src/ lexer call: the same lexeme, or the same abort. */
  predicate SameOutcome(x: Result<Lexeme, LexError>, y: Result<Lexing.Lexeme, Lexing.LexError>)
  {
    match x
    case Ok(a) => y.Ok? && SameLexeme(a, y.value)
    case Err(e) => y.Err? && SameError(e, y.error)
  }

  lemma ArithmeticOperatorsAgree(s: string, p: nat)
    requires var c := CharAt(s, p); c == '+' || c == '-' || c == '*' || c == '/'
    ensures SameOutcome(ScanOperator(s, p), Lexing.ScanOperator(s, p))
  {
  }

  lemma AssignOrLessAgree(s: string, p: nat)
    requires CharAt(s, p) == '=' || CharAt(s, p) == '<'
    ensures SameOutcome(ScanOperator(s, p), Lexing.ScanOperator(s, p))
  {
  }

  lemma GreaterOrBangAgree(s: string, p: nat)
    requires CharAt(s, p) == '>' || CharAt(s, p) == '!'
    ensures SameOutcome(ScanOperator(s, p), Lexing.ScanOperator(s, p))
  {
  }

  lemma StringsAgree(s: string, p: nat)
    requires Lexing.WellFormedSource(s) && p < |s|
    ensures SameOutcome(ScanString(s, p), Lexing.ScanString(s, p))
  {
  }

  lemma NumbersAgree(s: string, p: nat)
    requires p < |s|
    ensures SameOutcome(ScanNumber(s, p), Lexing.ScanNumber(s, p))
  {
  }

  /** On operators, strings and numbers the prototype and the src/ lexer read the same token or fail alike. */
  lemma SharedBranchesAgree(s: string, p: nat)
    requires Lexing.WellFormedSource(s)
    requires Lexing.IsOperatorStart(CharAt(s, p)) || IsQuote(CharAt(s, p)) || IsDigit(CharAt(s, p))
    ensures SameOutcome(ScanAt(s, p), Lexing.ScanAt(s, p))
  {
    var c := CharAt(s, p);
    if c == '+' || c == '-' || c == '*' || c == '/' {
      ArithmeticOperatorsAgree(s, p);
    } else if c == '=' || c == '<' {
      AssignOrLessAgree(s, p);
    } else if c == '>' || c == '!' {
      GreaterOrBangAgree(s, p);
    } else if IsQuote(c) {
      StringsAgree(s, p);
    } else {
      NumbersAgree(s, p);
    }
  }

  /** A method's result agrees with a specification result when the cursor ends at `next`. */
  predicate Agrees(expected: Result<Lexeme, LexError>, r: Result<Token, LexError>, next: nat)
  {
    match r
    case Ok(t) => expected == Ok(Lexeme(t, next))
    case Err(e) => expected == Err(e)
  }

  class Lexer {
    /** The input with one newline appended. */
    const source: string
    var curChar: char
    var curPos: nat

    ghost predicate Valid()
      reads this
    {
      Lexing.WellFormedSource(source) && curChar == CharAt(source, curPos)
    }

    /** The object the constructor builds before its indentation check. */
    constructor Init(input: string)
      ensures Valid() && source == input + "\n" && curPos == 0
    {
      source := input + "\n";
      curPos := 0;
      curChar := (input + "\n")[0];
    }

    /** `Lexer(input)`: refuses a source that starts with whitespace. */
    static method Create(input: string) returns (r: Result<Lexer, LexError>)
      ensures r.Err? <==> IsPythonSpace((input + "\n")[0])
      ensures r.Err? ==> r.error == UnexpectedIndent
      ensures r.Ok? ==> fresh(r.value) && r.value.Valid() && r.value.source == input + "\n" && r.value.curPos == 0
    {
      var lexer := new Lexer.Init(input);
      if IsPythonSpace(lexer.curChar) {
        return Err(UnexpectedIndent);
      }
      r := Ok(lexer);
    }

    /** Moves the cursor one character on; past the end the current character is `'\0'`. */
    method NextChar()
      requires Valid()
      modifies this
      ensures Valid() && curPos == old(curPos) + 1
    {
      curPos := curPos + 1;
      if curPos >= |source| {
        curChar := '\0';
      } else {
        curChar := source[curPos];
      }
    }

    /** The character after the cursor, `'\0'` past the end. */
    function PeekForward(): (c: char)
      reads this
      ensures curPos + 1 < |source| ==> c == source[curPos + 1]
      ensures curPos + 1 >= |source| ==> c == '\0'
    {
      if curPos + 1 >= |source| then '\0' else source[curPos + 1]
    }

    /** The character before the cursor: none at position 0, and an index error beyond the end. */
    function PeekBackward(): (r: Result<Option<char>, LexError>)
      reads this
      ensures r.Err? <==> curPos > |source|
      ensures r.Err? ==> r.error == IndexOutOfRange
      ensures r == Ok(None) <==> curPos == 0
      ensures 1 <= curPos <= |source| ==> r == Ok(Some(source[curPos - 1]))
    {
      if curPos <= 0 then Ok(None)
      else if curPos - 1 < |source| then Ok(Some(source[curPos - 1]))
      else Err(IndexOutOfRange)
    }

    method SkipWhitespace()
      requires Valid()
      modifies this
      ensures Valid() && curPos == RunEnd(source, old(curPos), IsSpace)
    {
      while IsSpace(curChar)
        invariant Valid() && old(curPos) <= curPos
        invariant RunEnd(source, old(curPos), IsSpace) == RunEnd(source, curPos, IsSpace)
        decreases |source| - curPos
      {
        NextChar();
      }
    }

    method SkipComment()
      requires Valid()
      modifies this
      ensures Valid()
      ensures curPos == if old(curChar) == '#' then RunEnd(source, old(curPos), NotNewline) else old(curPos)
    {
      if curChar == '#' {
        while curChar != '\n'
          invariant Valid() && old(curPos) <= curPos < |source|
          invariant RunEnd(source, old(curPos), NotNewline) == RunEnd(source, curPos, NotNewline)
          decreases |source| - curPos
        {
          NextChar();
        }
      }
    }

    /** The string branch of `getToken`, leaving the cursor on the closing quote. */
    method ReadString() returns (r: Result<Token, LexError>)
      requires Valid() && IsQuote(curChar)
      modifies this
      ensures Valid() && old(curPos) < |source|
      ensures Agrees(ScanString(source, old(curPos)), r, curPos + 1)
    {
      NextChar();
      var startPos := curPos;
      while !IsQuote(curChar)
        invariant Valid() && startPos <= curPos < |source| && startPos == old(curPos) + 1
        invariant RunEnd(source, startPos, InStringBody) == RunEnd(source, curPos, InStringBody)
        decreases |source| - curPos
      {
        if IllegalInString(curChar) {
          return Err(IllegalStringChar);
        }
        NextChar();
      }
      r := Ok(Token(source[startPos..curPos], String, 1));
    }

    /** The number branch of `getToken`, leaving the cursor on the last digit. */
    method ReadNumber() returns (r: Result<Token, LexError>)
      requires Valid() && IsDigit(curChar)
      modifies this
      ensures Valid() && old(curPos) < |source|
      ensures Agrees(ScanNumber(source, old(curPos)), r, curPos + 1)
    {
      var startPos := curPos;
      SkipDigits();
      if PeekForward() == '.' {
        NextChar();
        if !IsDigit(PeekForward()) {
          return Err(IllegalNumberChar);
        }
        SkipDigits();
      }
      r := Ok(Token(source[startPos..curPos + 1], Number, 1));
    }

    /** The digit loops of the number branch: moves the cursor onto the last digit of the run after it. */
    method SkipDigits()
      requires Valid() && curPos < |source|
      modifies this
      ensures Valid() && old(curPos) <= curPos < |source|
      ensures curPos + 1 == RunEnd(source, old(curPos) + 1, IsDigit)
    {
      while IsDigit(PeekForward())
        invariant Valid() && old(curPos) <= curPos < |source|
        invariant RunEnd(source, old(curPos) + 1, IsDigit) == RunEnd(source, curPos + 1, IsDigit)
        decreases |source| - curPos
      {
        NextChar();
      }
    }

    /** The identifier branch of `getToken`, leaving the cursor on the last character of the run. */
    method ReadWord() returns (t: Token)
      requires Valid() && (IsChinese(curChar) || IsAlpha(curChar))
      modifies this
      ensures Valid() && old(curPos) < |source|
      ensures ScanWord(source, old(curPos)) == Ok(Lexeme(t, curPos + 1))
    {
      var startPos := curPos;
      while IsChinese(PeekForward()) || IsAlnum(PeekForward())
        invariant Valid() && startPos <= curPos < |source| && startPos == old(curPos)
        invariant RunEnd(source, startPos + 1, IsWordChar) == RunEnd(source, curPos + 1, IsWordChar)
        decreases |source| - curPos
      {
        NextChar();
      }
      var text := source[startPos..curPos + 1];
      var keyword := CheckIfKeyword(text);
      t := Token(text, if keyword.Some? then keyword.value else Ident, 1);
    }

    /** The whitespace branch of `getToken`, counting the `isspace` run and leaving the cursor on its last character. */
    method ReadSpaces() returns (t: Token)
      requires Valid() && IsPythonSpace(curChar) && curPos < |source|
      modifies this
      ensures Valid() && old(curPos) < |source|
      ensures ScanSpaces(source, old(curPos)) == Ok(Lexeme(t, curPos + 1))
    {
      var numSpaces := 1;
      while IsPythonSpace(PeekForward())
        invariant Valid() && old(curPos) <= curPos < |source|
        invariant numSpaces == curPos - old(curPos) + 1
        invariant RunEnd(source, old(curPos) + 1, IsPythonSpace) == RunEnd(source, curPos + 1, IsPythonSpace)
        decreases |source| - curPos
      {
        NextChar();
        numSpaces := numSpaces + 1;
      }
      t := Token([curChar], Space, numSpaces);
    }

    /** `getToken`: the next token, or the error the lexer stops with. */
    method GetToken() returns (r: Result<Token, LexError>)
      requires Valid()
      modifies this
      ensures Valid()
      ensures Agrees(Scan(source, old(curPos)), r, curPos)
    {
      var back := PeekBackward();
      if back.Err? {
        return Err(back.error);
      }
      if back.value != Some('\n') {
        SkipWhitespace();
      }
      SkipComment();
      assert curPos == TokenStart(source, old(curPos));
      if Lexing.IsOperatorStart(curChar) {
        r := ReadOperator();
      } else {
        r := ReadOther();
      }
    }

    /** The operator branches of `getToken`. */
    method ReadOperator() returns (r: Result<Token, LexError>)
      requires Valid() && Lexing.IsOperatorStart(curChar)
      modifies this
      ensures Valid()
      ensures Agrees(ScanOperator(source, old(curPos)), r, curPos)
    {
      var token: Token;
      if curChar == '+' {
        token := Token([curChar], Plus, 1);
      } else if curChar == '-' {
        token := Token([curChar], Minus, 1);
      } else if curChar == '*' {
        token := Token([curChar], Asterisk, 1);
      } else if curChar == '/' {
        token := Token([curChar], Slash, 1);
      } else if PeekForward() == '=' {
        var lastChar := curChar;
        NextChar();
        var kind := if lastChar == '=' then EqEq else if lastChar == '>' then GtEq else if lastChar == '<' then LtEq else NotEq;
        token := Token([lastChar, curChar], kind, 1);
      } else if curChar == '!' {
        return Err(ExpectedNotEq(PeekForward()));
      } else {
        var kind := if curChar == '=' then Eq else if curChar == '>' then Gt else Lt;
        token := Token([curChar], kind, 1);
      }
      NextChar();
      r := Ok(token);
    }

    /** The remaining branches of `getToken`: literals, words, newline, colon, whitespace, end of input. */
    method ReadOther() returns (r: Result<Token, LexError>)
      requires Valid() && !Lexing.IsOperatorStart(curChar)
      modifies this
      ensures Valid()
      ensures Agrees(ScanOther(source, old(curPos)), r, curPos)
    {
      var token: Token;
      if IsQuote(curChar) {
        r := ReadString();
        if r.Err? {
          return;
        }
        token := r.value;
      } else if IsDigit(curChar) {
        r := ReadNumber();
        if r.Err? {
          return;
        }
        token := r.value;
      } else if IsChinese(curChar) || IsAlpha(curChar) {
        token := ReadWord();
      } else if curChar == '\n' {
        token := Token([curChar], Newline, 1);
      } else if IsColonOrFullWidth(curChar) {
        token := Token([curChar], Colon, 1);
      } else if IsPythonSpace(curChar) {
        token := ReadSpaces();
      } else if curChar == '\0' {
        token := Token("", Eof, 1);
      } else {
        return Err(UnknownToken(curChar));
      }
      NextChar();
      r := Ok(token);
    }
  }
}
