/** What the lexer of src/lex.py promises, stated over the specification `Scan` and its token stream. */
module LexerProperties {
  import opened Results
  import opened Chars
  import opened Tokens
  import opened Lexing

  /** Every token carries the text of its kind's fixed spelling; only indentation counts more than one character. */
  lemma ScanSpelled(s: string, pos: nat)
    requires WellFormedSource(s)
    ensures Scan(s, pos).Ok? ==> Spelled(Scan(s, pos).value.token)
  {
    var p := TokenStart(s, pos);
    if IsOperatorStart(CharAt(s, p)) {
      OperatorSpelled(s, p);
    } else {
      OtherSpelled(s, p);
    }
  }

  lemma OperatorSpelled(s: string, p: nat)
    ensures ScanOperator(s, p).Ok? ==> Spelled(ScanOperator(s, p).value.token)
  {
  }

  lemma OtherSpelled(s: string, p: nat)
    requires WellFormedSource(s)
    ensures ScanOther(s, p).Ok? ==> Spelled(ScanOther(s, p).value.token)
  {
    var c := CharAt(s, p);
    if IsQuote(c) {
      assert ScanOther(s, p) == ScanString(s, p);
    } else if IsDigit(c) {
      assert ScanOther(s, p) == ScanNumber(s, p);
    } else if IsChinese(c) || IsAlpha(c) {
      WordSpelled(s, p);
    } else if IsSpace(c) && c != '\n' {
      assert ScanOther(s, p) == ScanSpaces(s, p);
    }
  }

  lemma WordSpelled(s: string, p: nat)
    requires p < |s|
    ensures ScanWord(s, p).Ok? && Spelled(ScanWord(s, p).value.token)
  {
    WordKindUnspelled(s[p..RunEnd(s, p + 1, IsWordChar)]);
  }

  /** Keywords, logical operators and identifiers have no fixed spelling. */
  lemma WordKindUnspelled(text: string)
    ensures FixedSpelling(WordKind(text)).None?
  {
    WordKindsUnspelled(WordKind(text));
  }

  lemma WordKindsUnspelled(k: TokenKind)
    requires k.IsKeyword() || k.IsLogicalOperator() || k == Ident
    ensures FixedSpelling(k).None?
  {
  }

  /** Inside a line whitespace is skipped, so a `Space` token only ever starts a line. */
  lemma {:induction false} NoSpaceTokenMidLine(s: string, pos: nat)
    requires WellFormedSource(s) && SkipsSpaces(s, pos)
    ensures Scan(s, pos).Ok? ==> Scan(s, pos).value.token.kind != Space
  {
    var q := AfterSpaces(s, pos);
    if q < |s| && CharAt(s, q) == '#' {
      RunEndStopsBefore(s, q, NotNewline, |s| - 1);
    }
  }

  /**
   * At the start of a line, or of the input, a run of spaces, tabs and carriage returns is
   * one `Space` token whose count is the length of the run and whose text is its last character.
   */
  lemma IndentationToken(s: string, pos: nat)
    requires WellFormedSource(s) && pos < |s| && !SkipsSpaces(s, pos) && IsSpace(s[pos])
    ensures Scan(s, pos).Ok?
    ensures var l := Scan(s, pos).value;
      && l.token.kind == Space
      && l.token.count == l.next - pos
      && l.next < |s|
      && (forall k :: pos <= k < l.next ==> IsSpace(s[k]))
      && !IsSpace(s[l.next])
      && l.token.text == [s[l.next - 1]]
  {
    assert TokenStart(s, pos) == pos;
    assert ScanAt(s, pos) == ScanOther(s, pos) == ScanSpaces(s, pos);
    var e := RunEnd(s, pos + 1, IsSpace);
    RunEndStopsBefore(s, pos + 1, IsSpace, |s| - 1);
    assert Scan(s, pos) == Ok(Lexeme(Token([s[e - 1]], Space, e - pos), e));
  }

  /** A `#` after the skipped spaces starts a comment: the token is the newline that ends it. */
  lemma CommentSkippedToNewline(s: string, pos: nat)
    requires WellFormedSource(s) && CharAt(s, AfterSpaces(s, pos)) == '#'
    ensures Scan(s, pos).Ok?
    ensures var l := Scan(s, pos).value;
      && l.token == Token("\n", Newline, 1)
      && AfterSpaces(s, pos) < l.next <= |s|
      && s[l.next - 1] == '\n'
      && (forall k :: AfterSpaces(s, pos) <= k < l.next - 1 ==> s[k] != '\n')
  {
    RunEndStopsBefore(s, AfterSpaces(s, pos), NotNewline, |s| - 1);
  }

  /**
   * `=`, `>`, `<` and `!` followed by `=` make the two-character operators `==`, `>=`, `<=`
   * and `!=`; alone, the first three are the one-character operators `=`, `>` and `<`, and
   * `!` is an error naming the character after it.
   */
  lemma ComparisonOperators(s: string, pos: nat)
    requires WellFormedSource(s)
    requires var c := CharAt(s, TokenStart(s, pos)); c == '=' || c == '>' || c == '<' || c == '!'
    ensures var p := TokenStart(s, pos); var c := CharAt(s, p);
      && (CharAt(s, p + 1) == '=' ==>
            && Scan(s, pos).Ok? && Scan(s, pos).value.token.text == [c, '='] && Scan(s, pos).value.next == p + 2
            && Scan(s, pos).value.token.kind == (if c == '=' then EqEq else if c == '>' then GtEq else if c == '<' then LtEq else NotEq))
      && (CharAt(s, p + 1) != '=' && c != '!' ==>
            && Scan(s, pos).Ok? && Scan(s, pos).value.token.text == [c] && Scan(s, pos).value.next == p + 1
            && Scan(s, pos).value.token.kind == (if c == '=' then Eq else if c == '>' then Gt else Lt))
      && (Scan(s, pos).Err? <==> c == '!' && CharAt(s, p + 1) != '=')
      && (Scan(s, pos).Err? ==> Scan(s, pos).error == ExpectedNotEq(CharAt(s, p + 1)))
  {
  }

  /**
   * A string literal runs from the opening quote to the next quote; its token text is what lies
   * between them, and the literal is rejected exactly when a `\r`, `\n`, `\t`, `\` or `%` comes first.
   */
  lemma StringLiteral(s: string, pos: nat)
    requires WellFormedSource(s) && IsQuote(CharAt(s, TokenStart(s, pos)))
    ensures var p := TokenStart(s, pos);
      && (Scan(s, pos).Ok? ==>
            var l := Scan(s, pos).value;
            && p + 2 <= l.next <= |s|
            && s[p..l.next] == "\"" + l.token.text + "\""
            && l.token.kind == String
            && forall k :: 0 <= k < |l.token.text| ==> InStringBody(l.token.text[k]))
      && (Scan(s, pos).Err? <==>
            exists k :: p < k < |s| && IllegalInString(s[k]) && forall m :: p < m < k ==> InStringBody(s[m]))
      && (Scan(s, pos).Err? ==> Scan(s, pos).error == IllegalStringChar)
  {
    TokenStartBounds(s, pos);
    StringBranch(s, TokenStart(s, pos));
  }

  /** `StringLiteral` for the string branch alone. */
  lemma {:induction false} StringBranch(s: string, p: nat)
    requires WellFormedSource(s) && p < |s| && IsQuote(s[p])
    ensures ScanAt(s, p) == ScanString(s, p)
    ensures ScanString(s, p).Ok? ==>
            var l := ScanString(s, p).value;
            && p + 2 <= l.next <= |s|
            && s[p..l.next] == "\"" + l.token.text + "\""
            && l.token.kind == String
            && forall k :: 0 <= k < |l.token.text| ==> InStringBody(l.token.text[k])
    ensures ScanString(s, p).Err? <==>
            exists k :: p < k < |s| && IllegalInString(s[k]) && forall m :: p < m < k ==> InStringBody(s[m])
    ensures ScanString(s, p).Err? ==> ScanString(s, p).error == IllegalStringChar
  {
    var q := RunEnd(s, p + 1, InStringBody);
    RunEndStopsBefore(s, p + 1, InStringBody, |s| - 1);
    assert q < |s|;
    if IsQuote(s[q]) {
      forall k | p < k < |s| && IllegalInString(s[k])
        ensures exists m :: p < m < k && !InStringBody(s[m])
      {
        assert q < k;
      }
      var l := ScanString(s, p).value;
      assert s[p..l.next] == [s[p]] + l.token.text + [s[q]];
    } else {
      assert IllegalInString(s[q]);
    }
  }

  /** A run of one or more decimal digits. */
  predicate IsDigits(t: string)
  {
    |t| > 0 && forall k :: 0 <= k < |t| ==> IsDigit(t[k])
  }

  /**
   * A number literal is the longest run of digits, optionally followed by `.` and the longest
   * run of digits after it; a `.` that no digit follows is rejected.
   */
  lemma NumberLiteral(s: string, pos: nat)
    requires WellFormedSource(s) && IsDigit(CharAt(s, TokenStart(s, pos)))
    ensures var p := TokenStart(s, pos); var e := RunEnd(s, p + 1, IsDigit);
      && (Scan(s, pos).Ok? ==>
            var l := Scan(s, pos).value;
            && l.token.kind == Number
            && l.token.text == s[p..l.next]
            && !IsDigit(CharAt(s, l.next))
            && ((IsDigits(l.token.text) && CharAt(s, l.next) != '.')
                || exists i :: 0 < i < |l.token.text| && l.token.text[i] == '.' && IsDigits(l.token.text[..i]) && IsDigits(l.token.text[i + 1..])))
      && (Scan(s, pos).Err? <==> CharAt(s, e) == '.' && !IsDigit(CharAt(s, e + 1)))
      && (Scan(s, pos).Err? ==> Scan(s, pos).error == IllegalNumberChar)
  {
    TokenStartBounds(s, pos);
    NumberBranch(s, TokenStart(s, pos));
    assert Scan(s, pos) == ScanNumber(s, TokenStart(s, pos));
  }

  /** `NumberLiteral` for the number branch alone. */
  lemma {:induction false} NumberBranch(s: string, p: nat)
    requires WellFormedSource(s) && p < |s| && IsDigit(s[p])
    ensures ScanAt(s, p) == ScanNumber(s, p)
    ensures var e := RunEnd(s, p + 1, IsDigit);
      && (ScanNumber(s, p).Ok? ==>
            var l := ScanNumber(s, p).value;
            && l.token.kind == Number
            && l.token.text == s[p..l.next]
            && !IsDigit(CharAt(s, l.next))
            && ((IsDigits(l.token.text) && CharAt(s, l.next) != '.')
                || exists i :: 0 < i < |l.token.text| && l.token.text[i] == '.' && IsDigits(l.token.text[..i]) && IsDigits(l.token.text[i + 1..])))
      && (ScanNumber(s, p).Err? <==> CharAt(s, e) == '.' && !IsDigit(CharAt(s, e + 1)))
      && (ScanNumber(s, p).Err? ==> ScanNumber(s, p).error == IllegalNumberChar)
  {
    var e := RunEnd(s, p + 1, IsDigit);
    if ScanNumber(s, p).Ok? && CharAt(s, e) == '.' {
      var l := ScanNumber(s, p).value;
      var f := RunEnd(s, e + 1, IsDigit);
      assert l.next == f && e + 1 < f;
      var i := e - p;
      assert l.token.text[..i] == s[p..e];
      assert l.token.text[i + 1..] == s[e + 1..f];
      assert IsDigits(s[p..e]);
      assert IsDigits(s[e + 1..f]);
      assert l.token.text[i] == '.';
    }
  }

  /**
   * A word is the longest run of CJK and alphanumeric characters from a CJK or alphabetic one;
   * it is a keyword or a logical operator when its text is one's Chinese spelling, else an identifier.
   */
  lemma WordToken(s: string, pos: nat)
    requires WellFormedSource(s) && var c := CharAt(s, TokenStart(s, pos)); IsChinese(c) || IsAlpha(c)
    ensures Scan(s, pos).Ok?
    ensures var p := TokenStart(s, pos); var l := Scan(s, pos).value;
      && l.token.text == s[p..l.next]
      && (forall k :: p <= k < l.next ==> IsWordChar(s[k]))
      && !IsWordChar(CharAt(s, l.next))
      && (l.token.kind.IsKeyword() <==> l.token.text in ChineseKeywords.Values)
      && (l.token.kind.IsLogicalOperator() <==> l.token.text !in ChineseKeywords.Values && l.token.text in ChineseLogicalOperators.Values)
      && (l.token.kind == Ident <==> l.token.text !in ChineseKeywords.Values && l.token.text !in ChineseLogicalOperators.Values)
  {
    TokenStartBounds(s, pos);
    WordBranch(s, TokenStart(s, pos));
  }

  /** `WordToken` for the identifier branch alone. */
  lemma WordBranch(s: string, p: nat)
    requires WellFormedSource(s) && p < |s| && (IsChinese(s[p]) || IsAlpha(s[p]))
    ensures ScanAt(s, p) == ScanWord(s, p)
    ensures var l := ScanWord(s, p).value;
      && l.token.text == s[p..l.next]
      && (forall k :: p <= k < l.next ==> IsWordChar(s[k]))
      && !IsWordChar(CharAt(s, l.next))
      && (l.token.kind.IsKeyword() <==> l.token.text in ChineseKeywords.Values)
      && (l.token.kind.IsLogicalOperator() <==> l.token.text !in ChineseKeywords.Values && l.token.text in ChineseLogicalOperators.Values)
      && (l.token.kind == Ident <==> l.token.text !in ChineseKeywords.Values && l.token.text !in ChineseLogicalOperators.Values)
  {
    var e := RunEnd(s, p + 1, IsWordChar);
    WordKindClassifies(s[p..e]);
    WordKindKinds(WordKind(s[p..e]));
  }

  /** The three word classes are disjoint. */
  lemma WordKindKinds(k: TokenKind)
    ensures k.IsKeyword() ==> !k.IsLogicalOperator() && k != Ident
    ensures k.IsLogicalOperator() ==> k != Ident
  {
  }

  /** A character no rule covers aborts the lexer, naming that character. */
  lemma UnknownCharacter(s: string, pos: nat)
    requires WellFormedSource(s)
    requires var c := CharAt(s, TokenStart(s, pos));
      !IsOperatorStart(c) && !IsQuote(c) && !IsDigit(c) && !IsChinese(c) && !IsAlpha(c) && c != '\n'
      && !IsColon(c) && !IsSpace(c) && c != '(' && c != ')' && c != '\0'
    ensures Scan(s, pos) == Err(UnknownToken(CharAt(s, TokenStart(s, pos))))
  {
  }

  /** `LexN` read from the front: the first call, then `k` more from where it stopped. */
  lemma {:induction false} LexNCons(s: string, pos: nat, k: nat)
    requires WellFormedSource(s)
    ensures LexN(s, pos, k + 1) ==
      match Scan(s, pos)
      case Err(e) => Err(e)
      case Ok(x) =>
        match LexN(s, x.next, k)
        case Err(e) => Err(e)
        case Ok(l) => Ok(Lexed([x.token] + l.tokens, l.next))
  {
    if k == 0 {
      if Scan(s, pos).Ok? {
        var x := Scan(s, pos).value;
        assert [] + [x.token] == [x.token] + [];
      }
    } else {
      LexNCons(s, pos, k - 1);
      if Scan(s, pos).Ok? {
        var x := Scan(s, pos).value;
        if LexN(s, x.next, k - 1).Ok? {
          var l := LexN(s, x.next, k - 1).value;
          if Scan(s, l.next).Ok? {
            var y := Scan(s, l.next).value;
            assert [x.token] + l.tokens + [y.token] == [x.token] + (l.tokens + [y.token]);
          }
        }
      }
    }
  }

  /** When `k + 1` calls yield `[t] + rest`, the first call yields `t` and the other `k` calls, from where it stopped, yield `rest`. */
  lemma LexNFirst(s: string, pos: nat, t: Token, rest: seq<Token>, n: nat)
    requires WellFormedSource(s)
    requires LexN(s, pos, |rest| + 1) == Ok(Lexed([t] + rest, n))
    ensures Scan(s, pos).Ok? && Scan(s, pos).value.token == t
    ensures LexN(s, Scan(s, pos).value.next, |rest|) == Ok(Lexed(rest, n))
  {
    LexNCons(s, pos, |rest|);
    var x := Scan(s, pos).value;
    var l := LexN(s, x.next, |rest|).value;
    assert [x.token] + l.tokens == [t] + rest;
    assert x.token == ([t] + rest)[0];
    assert l.tokens == ([x.token] + l.tokens)[1..] == rest;
  }

  /** A call that reads an `Eof` ends the program: `Tokenize` gives no tokens. */
  lemma TokenizeAtEof(s: string, pos: nat)
    requires WellFormedSource(s) && Scan(s, pos).Ok? && Scan(s, pos).value.token.kind == Eof
    ensures Tokenize(s, pos) == Ok([])
  {
  }

  /** A call that reads any other token puts it in front of the tokens that follow. */
  lemma TokenizeStep(s: string, pos: nat, rest: seq<Token>)
    requires WellFormedSource(s) && Scan(s, pos).Ok? && Scan(s, pos).value.token.kind != Eof
    requires Tokenize(s, Scan(s, pos).value.next) == Ok(rest)
    ensures Tokenize(s, pos) == Ok([Scan(s, pos).value.token] + rest)
  {
  }

  /**
   * When `k + 1` calls yield the tokens `ts` and then an `Eof`, with no `Eof` among `ts`,
   * those tokens are the whole program: `Tokenize` gives exactly `ts`.
   */
  lemma {:induction false} TokenizeFromLexN(s: string, pos: nat, ts: seq<Token>, eof: Token, n: nat)
    requires WellFormedSource(s)
    requires LexN(s, pos, |ts| + 1) == Ok(Lexed(ts + [eof], n))
    requires eof.kind == Eof && forall i :: 0 <= i < |ts| ==> ts[i].kind != Eof
    ensures Tokenize(s, pos) == Ok(ts)
    decreases |ts|
  {
    if ts == [] {
      assert ts + [eof] == [eof] + [];
      LexNFirst(s, pos, eof, [], n);
      TokenizeAtEof(s, pos);
    } else {
      var rest := ts[1..];
      assert ts + [eof] == [ts[0]] + (rest + [eof]);
      LexNFirst(s, pos, ts[0], rest + [eof], n);
      assert |rest + [eof]| == |rest| + 1;
      TokenizeFromLexN(s, Scan(s, pos).value.next, rest, eof, n);
      TokenizeStep(s, pos, rest);
      assert [ts[0]] + rest == ts;
    }
  }

  /** `k` successful calls yield exactly `k` tokens. */
  lemma {:induction false} LexNLength(s: string, pos: nat, k: nat)
    requires WellFormedSource(s)
    ensures LexN(s, pos, k).Ok? ==> |LexN(s, pos, k).value.tokens| == k
  {
    if k > 0 {
      LexNLength(s, pos, k - 1);
    }
  }
}
