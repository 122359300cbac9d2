/**
 * The prototype parser of parse.py at the repository root: a recursive-descent
 * recognizer over the prototype lexer, with no code emission and no brackets.
 *
 * `checkIndentation` only looks at the current token; a statement consumes its
 * indentation token itself when its width is positive. An `if` needs a condition
 * with at least one comparison operator, a `while` takes no condition at all, and
 * a `print` takes a string or an expression. A statement that starts with a token
 * no branch recognises consumes nothing, so at the top level `program`'s loop would
 * call it again on the same state forever; the model reports that as `Diverges`.
 */
module ProtoParsing {
  import opened Results
  import opened ProtoLexing
  import opened Chars
  import Lexing

  /** The reasons the prototype parser stops. */
  datatype ParseError =
    | LexFailure(lexError: LexError)
    | Expected(wanted: TokenKind, found: TokenKind)
    | UnexpectedIndentation
    | ExpectedIndentation
    | WrongIndentation
    | ExpectedIndentedBlock
    | ExpectedComparison
    | UnexpectedToken(text: string)

  /** How a run of `program` ends: at `EOF`, by an abort, or in a loop that never ends. */
  datatype Outcome = Accepted | Aborted(error: ParseError) | Diverges

  predicate IsComparisonOperator(k: TokenKind)
  {
    k == Gt || k == GtEq || k == Lt || k == LtEq || k == EqEq || k == NotEq
  }

  predicate IsAdditive(k: TokenKind)
  {
    k == Plus || k == Minus
  }

  predicate IsMultiplicative(k: TokenKind)
  {
    k == Asterisk || k == Slash
  }

  /** A token that can begin an expression: an optional sign, then a number or an identifier. */
  predicate StartsExpression(k: TokenKind)
  {
    IsAdditive(k) || k == Number || k == Ident
  }

  /** The first tokens `statement` has a branch for. */
  predicate StartsStatement(k: TokenKind)
  {
    k == Print || k == If || k == While || k == Ident
  }

  /** What `checkIndentation(n)` accepts: no `SPACE` at width 0, otherwise a `SPACE` of exactly `n`. */
  predicate HasIndentation(t: Token, n: nat)
  {
    if n == 0 then t.kind != Space else t.kind == Space && t.count == n
  }

  /** A comparison operator among the tokens `ts[a..b]`. */
  ghost predicate ComparesIn(ts: seq<Token>, a: nat, b: nat)
  {
    b <= |ts| && exists i :: a <= i < b && IsComparisonOperator(ts[i].kind)
  }

  /** The tokens a condition is made of: numbers, identifiers and the arithmetic and comparison operators. */
  predicate IsConditionToken(k: TokenKind)
  {
    StartsExpression(k) || IsMultiplicative(k) || IsComparisonOperator(k)
  }

  /** Every token of `ts[a..b]` can stand in a condition; in particular none is the colon. */
  ghost predicate ConditionTokens(ts: seq<Token>, a: nat, b: nat)
  {
    a <= b <= |ts| && forall i :: a <= i < b ==> IsConditionToken(ts[i].kind)
  }

  /**
   * `ts[colon]` is the colon of an `if` or `while` at width `n`; only newlines follow it up to
   * `ts[start]`, the indentation of the first line of the body, which is deeper than `n`.
   */
  ghost predicate BodyAfterColon(ts: seq<Token>, colon: nat, start: nat, n: nat)
  {
    && colon < start < |ts|
    && ts[colon].kind == Colon
    && (forall i :: colon < i < start ==> ts[i].kind == Newline)
    && ts[start].kind == Space && ts[start].count > n
  }

  /**
   * `ts` are the tokens that successive `getToken` calls from the start of `s` give, the
   * last call ending at `pos`. (Stated for every count equal to `|ts|` so that the verifier
   * expands `LexN` only in the proof steps that mention it.)
   */
  ghost predicate ScannedPrefix(s: string, ts: seq<Token>, pos: nat)
    requires Lexing.WellFormedSource(s)
  {
    forall k :: k == |ts| ==> LexN(s, 0, k) == Ok(Lexed(ts, pos))
  }

  /** One more successful call extends the scanned prefix by its token. */
  lemma ScannedPrefixExtend(s: string, ts: seq<Token>, pos: nat)
    requires Lexing.WellFormedSource(s) && ScannedPrefix(s, ts, pos) && Scan(s, pos).Ok?
    ensures ScannedPrefix(s, ts + [Scan(s, pos).value.token], Scan(s, pos).value.next)
  {
    assert LexN(s, 0, |ts|) == Ok(Lexed(ts, pos));
  }

  /** Every prefix of a scanned prefix is what that many calls from the start give. */
  lemma ScannedLog(s: string, ts: seq<Token>, pos: nat, j: nat)
    requires Lexing.WellFormedSource(s) && ScannedPrefix(s, ts, pos) && j <= |ts|
    ensures LexN(s, 0, j).Ok? && LexN(s, 0, j).value.tokens == ts[..j]
  {
    assert LexN(s, 0, |ts|) == Ok(Lexed(ts, pos));
    LexNPrefix(s, 0, |ts|, j);
    LexNLength(s, 0, j);
  }

  /** The first two calls give the scanned prefix of a fresh parser. */
  lemma FirstTwoScans(s: string, t1: Token, p1: nat, t2: Token, p2: nat)
    requires Lexing.WellFormedSource(s)
    requires Scan(s, 0) == Ok(Lexeme(t1, p1)) && Scan(s, p1) == Ok(Lexeme(t2, p2))
    ensures ScannedPrefix(s, [t1, t2], p2)
  {
    assert LexN(s, 0, 1) == Ok(Lexed([t1], p1)) by {
      assert LexN(s, 0, 0) == Ok(Lexed([], 0));
      assert [] + [t1] == [t1];
    }
    assert LexN(s, 0, 2) == Ok(Lexed([t1, t2], p2)) by {
      assert [t1] + [t2] == [t1, t2];
    }
  }

  class Parser {
    const lexer: Lexer
    var curToken: Token
    var peekToken: Token
    /** The tokens the parser has moved past, in order. */
    ghost var consumed: seq<Token>

    /** Decreases with every token read. */
    ghost function Rank(): int
      reads lexer
    {
      |lexer.source| + 2 - lexer.curPos
    }

    /**
     * The lexer is consistent and its cursor is at most one past the end. Without
     * null characters the current token is never `EOF`, and a peeked `EOF` leaves the
     * cursor past the end, where the next `getToken` fails. The tokens consumed, the
     * current one and the peeked one are, in order, what the lexer's calls gave.
     */
    ghost predicate Valid()
      reads this`consumed, this`curToken, this`peekToken, lexer
    {
      && lexer.Valid()
      && ScannedPrefix(lexer.source, consumed + [curToken, peekToken], lexer.curPos)
      && lexer.curPos <= |lexer.source| + 1
      && (NulFree(lexer.source) ==> curToken.kind != Eof)
      && (NulFree(lexer.source) && peekToken.kind == Eof ==> lexer.curPos == |lexer.source| + 1)
    }

    constructor Init(lexer: Lexer, first: Token, second: Token)
      ensures this.lexer == lexer && curToken == first && peekToken == second && consumed == []
    {
      this.lexer := lexer;
      curToken := first;
      peekToken := second;
      consumed := [];
    }

    /** `Parser(lexer)`: reads the first two tokens into `curToken` and `peekToken`. */
    static method Create(lexer: Lexer) returns (r: Result<Parser, ParseError>)
      requires lexer.Valid() && lexer.curPos == 0
      modifies lexer
      ensures var first := Scan(lexer.source, 0);
        r.Ok? <==> first.Ok? && Scan(lexer.source, first.value.next).Ok?
      ensures r.Ok? ==> fresh(r.value) && r.value.lexer == lexer && r.value.Valid() && r.value.consumed == []
      ensures r.Ok? ==> r.value.curToken == Scan(lexer.source, 0).value.token
      ensures r.Ok? ==> var second := Scan(lexer.source, Scan(lexer.source, 0).value.next);
        r.value.peekToken == second.value.token && lexer.curPos == second.value.next
    {
      var first := lexer.GetToken();
      if first.Err? {
        return Err(LexFailure(first.error));
      }
      ghost var pos1 := lexer.curPos;
      var second := lexer.GetToken();
      if second.Err? {
        return Err(LexFailure(second.error));
      }
      ScanProgress(lexer.source, 0);
      ScanProgress(lexer.source, pos1);
      FirstTwoScans(lexer.source, first.value, pos1, second.value, lexer.curPos);
      assert [] + [first.value, second.value] == [first.value, second.value];
      if NulFree(lexer.source) {
        if first.value.kind == Eof {
          EofOnlyAtEnd(lexer.source, 0);
        }
        if second.value.kind == Eof {
          EofOnlyAtEnd(lexer.source, pos1);
        }
      }
      var p := new Parser.Init(lexer, first.value, second.value);
      r := Ok(p);
    }

    /** `nextToken`: shifts the lookahead by one token, fetching a new peek token from the lexer. */
    method NextToken() returns (err: Option<ParseError>)
      requires Valid()
      modifies this, lexer
      ensures consumed == old(consumed) + [old(curToken)] && curToken == old(peekToken)
      ensures var next := Scan(lexer.source, old(lexer.curPos));
        && (err.Some? <==> next.Err?)
        && (next.Err? ==> err == Some(LexFailure(next.error)))
        && (next.Ok? ==> peekToken == next.value.token && lexer.curPos == next.value.next)
      ensures err.None? ==> Valid() && Rank() < old(Rank())
    {
      ghost var pos0 := lexer.curPos;
      var next := lexer.GetToken();
      consumed := consumed + [curToken];
      curToken := peekToken;
      if next.Err? {
        return Some(LexFailure(next.error));
      }
      peekToken := next.value;
      ScanProgress(lexer.source, pos0);
      ScannedPrefixExtend(lexer.source, old(consumed) + [old(curToken), old(peekToken)], pos0);
      assert old(consumed) + [old(curToken), old(peekToken)] + [peekToken] == consumed + [curToken, peekToken];
      if NulFree(lexer.source) && peekToken.kind == Eof {
        EofOnlyAtEnd(lexer.source, pos0);
      }
      err := None;
    }

    /** `nextToken` as the productions use it: the shift, a lexing failure, or progress. */
    method Advance() returns (err: Option<ParseError>)
      requires Valid()
      modifies this, lexer
      ensures consumed == old(consumed) + [old(curToken)] && curToken == old(peekToken)
      ensures err.Some? ==> err.value.LexFailure?
      ensures err.None? ==> Valid() && Rank() < old(Rank())
    {
      err := NextToken();
    }

    /** `match(kind)`: consumes the current token if it has the kind, and aborts otherwise. */
    method Match(kind: TokenKind) returns (err: Option<ParseError>)
      requires Valid()
      modifies this, lexer
      ensures old(curToken).kind != kind ==> err == Some(Expected(kind, old(curToken).kind)) && consumed == old(consumed)
      ensures old(curToken).kind == kind ==>
        consumed == old(consumed) + [old(curToken)] && curToken == old(peekToken) && (err.Some? ==> err.value.LexFailure?)
      ensures err.None? ==> Valid() && Rank() < old(Rank())
    {
      if curToken.kind != kind {
        return Some(Expected(kind, curToken.kind));
      }
      err := Advance();
    }

    /** `checkIndentation(n)`: inspects the current token and never consumes it. */
    function CheckIndentation(n: nat): (r: Option<ParseError>)
      reads this
      ensures r.None? <==> HasIndentation(curToken, n)
      ensures n == 0 && r.Some? ==> r.value == UnexpectedIndentation
      ensures n > 0 && curToken.kind != Space ==> r == Some(ExpectedIndentation)
      ensures n > 0 && curToken.kind == Space && curToken.count != n ==> r == Some(WrongIndentation)
    {
      if n == 0 then
        if curToken.kind == Space then Some(UnexpectedIndentation) else None
      else if curToken.kind != Space then Some(ExpectedIndentation)
      else if curToken.count != n then Some(WrongIndentation)
      else None
    }

    /**
     * `program`: skips leading newlines, then parses statements until `EOF`. A statement
     * start that no branch recognises would repeat forever and is reported as `Diverges`;
     * in a source without null characters `EOF` is never reached.
     */
    method Program() returns (r: Outcome)
      requires Valid()
      modifies this, lexer
      ensures r == Accepted ==> curToken.kind == Eof
      ensures r == Diverges ==> curToken.kind != Eof && curToken.kind != Space && !StartsStatement(curToken.kind)
      ensures NulFree(lexer.source) ==> r != Accepted
    {
      while curToken.kind == Newline
        invariant Valid()
        decreases Rank()
      {
        var err := Advance();
        if err.Some? {
          return Aborted(err.value);
        }
      }
      while curToken.kind != Eof
        invariant Valid()
        decreases Rank()
      {
        if curToken.kind != Space && !StartsStatement(curToken.kind) {
          return Diverges;
        }
        var err := Statement(0);
        if err.Some? {
          return Aborted(err.value);
        }
      }
      r := Accepted;
    }

    /**
     * `statement(n)`: checks the indentation, consumes it when `n` is positive, then
     * parses the statement its first token announces. A first token with no branch
     * leaves everything as it was at width 0.
     */
    method Statement(n: nat) returns (err: Option<ParseError>)
      requires Valid()
      modifies this, lexer
      decreases Rank(), 2
      ensures old(CheckIndentation(n)).Some? ==> err == old(CheckIndentation(n)) && consumed == old(consumed)
      ensures n == 0 && old(curToken).kind != Space && !StartsStatement(old(curToken).kind) ==>
        err.None? && unchanged(this, lexer)
      ensures err.None? ==> Valid() && old(consumed) <= consumed && Rank() <= old(Rank())
      ensures err.None? && (n > 0 || StartsStatement(old(curToken).kind)) ==> old(consumed) < consumed && Rank() < old(Rank())
      ensures err.None? && n > 0 ==> consumed[|old(consumed)|] == old(curToken)
    {
      err := CheckIndentation(n);
      if err.Some? {
        return;
      }
      if n > 0 {
        err := Advance();
        if err.Some? {
          return;
        }
      }
      if curToken.kind == Print {
        err := PrintStatement();
      } else if curToken.kind == If {
        ghost var colon: nat, start: nat;
        err, colon, start := IfStatement(n);
      } else if curToken.kind == While {
        ghost var start: nat;
        err, start := WhileStatement(n);
      } else if curToken.kind == Ident {
        err := AssignmentStatement();
      }
    }

    /** `印出` followed by a string or an expression, then newlines. */
    method PrintStatement() returns (err: Option<ParseError>)
      requires Valid() && curToken.kind == Print
      modifies this, lexer
      ensures err.None? ==> Valid() && old(consumed) < consumed && Rank() < old(Rank())
      ensures err.None? ==> old(peekToken).kind == String || StartsExpression(old(peekToken).kind)
      ensures err.None? ==> consumed[|consumed| - 1].kind == Newline && curToken.kind != Newline
    {
      err := Advance();
      if err.Some? {
        return;
      }
      if curToken.kind == String {
        err := Advance();
      } else {
        err := Expression();
      }
      if err.Some? {
        return;
      }
      err := Nl();
    }

    /** `如果` comparison `：` newlines, then an indented block. */
    method IfStatement(n: nat) returns (err: Option<ParseError>, ghost colon: nat, ghost start: nat)
      requires Valid() && curToken.kind == If
      modifies this, lexer
      decreases Rank(), 1
      ensures err.None? ==> Valid() && old(consumed) < consumed && Rank() < old(Rank())
      ensures err.None? ==>
        && |old(consumed)| + 1 < colon
        && ComparesIn(consumed, |old(consumed)| + 1, colon)
        && ConditionTokens(consumed, |old(consumed)| + 1, colon)
        && BodyAfterColon(consumed, colon, start, n)
    {
      colon, start := 0, 0;
      err := Advance();
      if err.Some? {
        return;
      }
      err := Comparison();
      if err.Some? {
        return;
      }
      ghost var afterCondition := consumed;
      colon := |afterCondition|;
      err, start := ColonAndBlock(n);
      if err.None? {
        ConditionPrefix(afterCondition, consumed, |old(consumed)| + 1);
      }
    }

    /** `当` directly followed by `：` and newlines, then an indented block. */
    method WhileStatement(n: nat) returns (err: Option<ParseError>, ghost start: nat)
      requires Valid() && curToken.kind == While
      modifies this, lexer
      decreases Rank(), 1
      ensures err.None? ==> Valid() && old(consumed) < consumed && Rank() < old(Rank())
      ensures err.None? ==> old(peekToken).kind == Colon && BodyAfterColon(consumed, |old(consumed)| + 1, start, n)
    {
      start := 0;
      err := Advance();
      if err.Some? {
        return;
      }
      err, start := ColonAndBlock(n);
    }

    /** The part `if` and `while` share: `：`, newlines, then the block deeper than `n`. */
    method ColonAndBlock(n: nat) returns (err: Option<ParseError>, ghost start: nat)
      requires Valid()
      modifies this, lexer
      decreases Rank(), 0
      ensures old(curToken).kind != Colon ==> err == Some(Expected(Colon, old(curToken).kind))
      ensures err.None? ==> Valid() && old(consumed) < consumed && Rank() < old(Rank())
      ensures err.None? ==> BodyAfterColon(consumed, |old(consumed)|, start, n)
    {
      start := 0;
      err := Match(Colon);
      if err.Some? {
        return;
      }
      err := Nl();
      if err.Some? {
        return;
      }
      ghost var beforeBlock := consumed;
      start := |beforeBlock|;
      err := Block(n);
      if err.Some? {
        return;
      }
      assert beforeBlock < consumed;
    }

    /**
     * The body of an `if` or `while` at width `n`: its first line must be indented
     * deeper than `n`, and statements are parsed while the width stays that of the
     * first line.
     */
    method Block(n: nat) returns (err: Option<ParseError>)
      requires Valid()
      modifies this, lexer
      decreases Rank(), 3
      ensures !(old(curToken).kind == Space && old(curToken).count > n) ==>
        err == Some(ExpectedIndentedBlock) && consumed == old(consumed)
      ensures err.None? ==> Valid() && old(consumed) < consumed && Rank() < old(Rank())
      ensures err.None? ==> !(curToken.kind == Space && curToken.count == old(curToken).count)
      ensures err.None? ==> consumed[|old(consumed)|] == old(curToken)
    {
      if !(curToken.kind == Space && curToken.count > n) {
        return Some(ExpectedIndentedBlock);
      }
      var width := curToken.count;
      ghost var start := consumed;
      ghost var rank0 := Rank();
      while curToken.kind == Space && curToken.count == width
        invariant Valid() && start <= consumed && Rank() <= rank0
        invariant consumed == start ==> curToken == old(curToken) && curToken.count == width && Rank() == rank0
        invariant consumed != start ==> Rank() < rank0 && consumed[|start|] == old(curToken)
        decreases Rank()
      {
        err := Statement(width);
        if err.Some? {
          return;
        }
      }
      err := None;
    }

    /** An assignment `ident = expression`, then newlines; the variable is not recorded anywhere. */
    method AssignmentStatement() returns (err: Option<ParseError>)
      requires Valid() && curToken.kind == Ident
      modifies this, lexer
      ensures err.None? ==> Valid() && old(consumed) < consumed && Rank() < old(Rank())
      ensures err.None? ==> old(peekToken).kind == Eq
      ensures err.None? ==> consumed[|consumed| - 1].kind == Newline && curToken.kind != Newline
    {
      err := Advance();
      if err.Some? {
        return;
      }
      err := Match(Eq);
      if err.Some? {
        return;
      }
      err := Expression();
      if err.Some? {
        return;
      }
      err := Nl();
    }

    /**
     * `comparison`: an expression, then one or more comparison operators each followed
     * by an expression.
     */
    method Comparison() returns (err: Option<ParseError>)
      requires Valid()
      modifies this, lexer
      ensures err.None? ==> Valid() && old(consumed) < consumed && Rank() < old(Rank())
      ensures err.None? ==> ComparesIn(consumed, |old(consumed)|, |consumed|)
      ensures err.None? ==> ConditionTokens(consumed, |old(consumed)|, |consumed|)
      ensures err.None? ==> !IsComparisonOperator(curToken.kind)
    {
      err := Expression();
      if err.Some? {
        return;
      }
      if !IsComparisonOperator(curToken.kind) {
        return Some(ExpectedComparison);
      }
      ghost var first := |consumed|;
      err := ComparisonStep(|old(consumed)|);
      if err.Some? {
        return;
      }
      while IsComparisonOperator(curToken.kind)
        invariant Valid() && old(consumed) < consumed && Rank() < old(Rank())
        invariant first < |consumed| && IsComparisonOperator(consumed[first].kind)
        invariant ConditionTokens(consumed, |old(consumed)|, |consumed|)
        decreases Rank()
      {
        ghost var before := consumed;
        err := ComparisonStep(|old(consumed)|);
        if err.Some? {
          return;
        }
        assert consumed[first] == before[first];
      }
      assert IsComparisonOperator(consumed[first].kind);
    }

    /** One comparison operator and the expression after it, in a condition that began at `a`. */
    method ComparisonStep(ghost a: nat) returns (err: Option<ParseError>)
      requires Valid() && IsComparisonOperator(curToken.kind) && ConditionTokens(consumed, a, |consumed|)
      modifies this, lexer
      ensures err.None? ==> Valid() && old(consumed) < consumed && Rank() < old(Rank())
      ensures err.None? ==> consumed[|old(consumed)|] == old(curToken)
      ensures err.None? ==> ConditionTokens(consumed, a, |consumed|)
    {
      err := Advance();
      if err.Some? {
        return;
      }
      ghost var operator := consumed;
      ConditionTokensPush(old(consumed), operator, a);
      err := Expression();
      if err.Some? {
        return;
      }
      ConditionTokensExtend(operator, consumed, a);
    }

    /** `expression ::= term {("+" | "-") term}`; it stops at the first token that continues no term. */
    method Expression() returns (err: Option<ParseError>)
      requires Valid()
      modifies this, lexer
      ensures !StartsExpression(old(curToken).kind) ==> err == Some(UnexpectedToken(old(curToken).text))
      ensures err.None? ==> Valid() && old(consumed) < consumed && Rank() < old(Rank())
      ensures err.None? ==> !IsAdditive(curToken.kind) && !IsMultiplicative(curToken.kind)
      ensures err.None? ==> consumed[|consumed| - 1].kind in {Number, Ident}
      ensures err.None? ==> ConditionTokens(consumed, |old(consumed)|, |consumed|)
    {
      err := Term();
      if err.Some? {
        return;
      }
      while IsAdditive(curToken.kind)
        invariant Valid() && old(consumed) < consumed && Rank() < old(Rank())
        invariant !IsMultiplicative(curToken.kind) && consumed[|consumed| - 1].kind in {Number, Ident}
        invariant ConditionTokens(consumed, |old(consumed)|, |consumed|)
        decreases Rank()
      {
        err := AdditiveStep(|old(consumed)|);
        if err.Some? {
          return;
        }
      }
    }

    /** One `+` or `-` and the term after it, in an expression that began at `a`. */
    method AdditiveStep(ghost a: nat) returns (err: Option<ParseError>)
      requires Valid() && IsAdditive(curToken.kind) && ConditionTokens(consumed, a, |consumed|)
      modifies this, lexer
      ensures err.None? ==> Valid() && old(consumed) < consumed && Rank() < old(Rank())
      ensures err.None? ==> !IsMultiplicative(curToken.kind) && consumed[|consumed| - 1].kind in {Number, Ident}
      ensures err.None? ==> ConditionTokens(consumed, a, |consumed|)
    {
      err := Advance();
      if err.Some? {
        return;
      }
      ghost var operator := consumed;
      ConditionTokensPush(old(consumed), operator, a);
      err := Term();
      if err.Some? {
        return;
      }
      ConditionTokensExtend(operator, consumed, a);
    }

    /** `term ::= unary {("*" | "/") unary}`. */
    method Term() returns (err: Option<ParseError>)
      requires Valid()
      modifies this, lexer
      ensures !StartsExpression(old(curToken).kind) ==> err == Some(UnexpectedToken(old(curToken).text))
      ensures err.None? ==> Valid() && old(consumed) < consumed && Rank() < old(Rank())
      ensures err.None? ==> !IsMultiplicative(curToken.kind)
      ensures err.None? ==> consumed[|consumed| - 1].kind in {Number, Ident}
      ensures err.None? ==> ConditionTokens(consumed, |old(consumed)|, |consumed|)
    {
      err := Unary();
      if err.Some? {
        return;
      }
      while IsMultiplicative(curToken.kind)
        invariant Valid() && old(consumed) < consumed && Rank() < old(Rank())
        invariant consumed[|consumed| - 1].kind in {Number, Ident}
        invariant ConditionTokens(consumed, |old(consumed)|, |consumed|)
        decreases Rank()
      {
        err := MultiplicativeStep(|old(consumed)|);
        if err.Some? {
          return;
        }
      }
    }

    /** One `*` or `/` and the unary after it, in a term that began at `a`. */
    method MultiplicativeStep(ghost a: nat) returns (err: Option<ParseError>)
      requires Valid() && IsMultiplicative(curToken.kind) && ConditionTokens(consumed, a, |consumed|)
      modifies this, lexer
      ensures err.None? ==> Valid() && old(consumed) < consumed && Rank() < old(Rank())
      ensures err.None? ==> consumed[|consumed| - 1].kind in {Number, Ident}
      ensures err.None? ==> ConditionTokens(consumed, a, |consumed|)
    {
      err := Advance();
      if err.Some? {
        return;
      }
      ghost var operator := consumed;
      ConditionTokensPush(old(consumed), operator, a);
      err := Unary();
      if err.Some? {
        return;
      }
      ConditionTokensExtend(operator, consumed, a);
    }

    /** `unary ::= ["+" | "-"] primary`. */
    method Unary() returns (err: Option<ParseError>)
      requires Valid()
      modifies this, lexer
      ensures !StartsExpression(old(curToken).kind) ==> err == Some(UnexpectedToken(old(curToken).text))
      ensures err.None? ==> Valid() && old(consumed) < consumed && Rank() < old(Rank())
      ensures err.None? ==> consumed[|consumed| - 1].kind in {Number, Ident}
      ensures err.None? ==> ConditionTokens(consumed, |old(consumed)|, |consumed|)
    {
      if IsAdditive(curToken.kind) {
        err := Advance();
        if err.Some? {
          return;
        }
        ConditionTokensPush(old(consumed), consumed, |old(consumed)|);
      }
      ghost var beforePrimary := consumed;
      err := Primary();
      if err.Some? {
        return;
      }
      ConditionTokensPush(beforePrimary, consumed, |old(consumed)|);
    }

    /** `primary ::= number | ident`: anything else aborts. */
    method Primary() returns (err: Option<ParseError>)
      requires Valid()
      modifies this, lexer
      ensures old(curToken).kind !in {Number, Ident} ==> err == Some(UnexpectedToken(old(curToken).text)) && consumed == old(consumed)
      ensures old(curToken).kind in {Number, Ident} ==>
        consumed == old(consumed) + [old(curToken)] && (err.Some? ==> err.value.LexFailure?)
      ensures err.None? ==> Valid() && Rank() < old(Rank())
    {
      if curToken.kind == Number || curToken.kind == Ident {
        err := Advance();
      } else {
        err := Some(UnexpectedToken(curToken.text));
      }
    }

    /** `nl ::= '\n'+`: at least one newline, and all the newlines that follow. */
    method Nl() returns (err: Option<ParseError>)
      requires Valid()
      modifies this, lexer
      ensures old(curToken).kind != Newline ==> err == Some(Expected(Newline, old(curToken).kind))
      ensures err.None? ==> Valid() && old(consumed) < consumed && Rank() < old(Rank())
      ensures err.None? ==> forall i :: |old(consumed)| <= i < |consumed| ==> consumed[i].kind == Newline
      ensures err.None? ==> curToken.kind != Newline
    {
      err := Match(Newline);
      if err.Some? {
        return;
      }
      while curToken.kind == Newline
        invariant Valid() && old(consumed) < consumed && Rank() < old(Rank())
        invariant forall i :: |old(consumed)| <= i < |consumed| ==> consumed[i].kind == Newline
        decreases Rank()
      {
        err := Advance();
        if err.Some? {
          return;
        }
      }
    }
  }

  /** What a condition `ts[a..]` consists of stays true of the same positions of a longer `us`. */
  lemma ConditionPrefix(ts: seq<Token>, us: seq<Token>, a: nat)
    requires ts <= us && ComparesIn(ts, a, |ts|) && ConditionTokens(ts, a, |ts|)
    ensures ComparesIn(us, a, |ts|) && ConditionTokens(us, a, |ts|)
  {
    var i :| a <= i < |ts| && IsComparisonOperator(ts[i].kind);
    assert us[i] == ts[i];
    assert forall k :: a <= k < |ts| ==> us[k] == ts[k];
  }

  /** One more condition token keeps the run of condition tokens from `a`. */
  lemma ConditionTokensPush(ts: seq<Token>, us: seq<Token>, a: nat)
    requires a <= |ts| && |us| == |ts| + 1 && ts <= us && ConditionTokens(ts, a, |ts|) && IsConditionToken(us[|ts|].kind)
    ensures ConditionTokens(us, a, |us|)
  {
    forall k | a <= k < |us|
      ensures IsConditionToken(us[k].kind)
    {
      if k < |ts| {
        assert us[k] == ts[k];
      }
    }
  }

  /** Runs of condition tokens `ts[a..]` and `us[|ts|..]` join into `us[a..]`. */
  lemma ConditionTokensExtend(ts: seq<Token>, us: seq<Token>, a: nat)
    requires ts <= us && ConditionTokens(ts, a, |ts|) && ConditionTokens(us, |ts|, |us|)
    ensures ConditionTokens(us, a, |us|)
  {
    assert forall k :: a <= k < |ts| ==> us[k] == ts[k];
  }

  /**
   * The prototype as a whole: lexer, parser and `program` over an input. Without null
   * characters it never accepts, since the token after `EOF` is always read and
   * `peekBackward` then indexes past the source.
   */
  method Recognize(input: string) returns (r: Outcome)
    ensures NulFree(input) ==> r != Accepted
    ensures IsPythonSpace((input + "\n")[0]) ==> r == Aborted(LexFailure(UnexpectedIndent))
  {
    var created := Lexer.Create(input);
    if created.Err? {
      return Aborted(LexFailure(created.error));
    }
    var lexer := created.value;
    var parser := Parser.Create(lexer);
    if parser.Err? {
      return Aborted(parser.error);
    }
    assert NulFree(input) ==> NulFree(lexer.source);
    r := parser.value.Program();
  }
}
