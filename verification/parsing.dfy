/**
 * The parser and code generator of src/parse.py.
 *
 * `Parser` keeps the source's fields: the lexer it pulls tokens from, the emitter it
 * writes to, the set of declared (mangled) variable names and the two tokens of
 * lookahead. Its methods are the productions of the recursive-descent parser; an abort
 * (`sys.exit` in the source) is a returned `ParseError`, after which the caller stops.
 *
 * Two ghost facts tie the object to the specifications: `Valid` says that the tokens
 * consumed so far, followed by the current and the peek token, are exactly what
 * successive `Lexing.Scan` calls give; `InSync` says that the emitted code is exactly
 * `Rendering.Rendered` of the consumed tokens. `Compile` combines them into the
 * end-to-end statement: a successful compilation outputs the rendering of the
 * program's tokens.
 */
module Parsing {
  import opened Results
  import opened Tokens
  import opened Lexing
  import opened Emitting
  import opened Naming
  import opened Rendering
  import LexerProperties

  /** The reasons the parser aborts. */
  datatype ParseError =
    | LexFailure(lexError: LexError)             // the lexer aborted while fetching the peek token
    | Expected(wanted: TokenKind, found: TokenKind)
    | UnexpectedIndentation                       // a top-level statement starts with indentation
    | ExpectedIndentation                         // an indented statement has none
    | WrongIndentation                            // ... or the wrong width
    | ExpectedIndentedBlock                       // a block is not indented deeper than its parent
    | InvalidSyntax                               // operator adjacency, or `elif`/`else` without `if`
    | BreakOutsideLoop
    | ContinueOutsideLoop
    | UndeclaredVariable(name: string)
    | UnexpectedToken(text: string)

  /** `isComparisonOperator`. */
  predicate IsComparisonOperator(k: TokenKind)
  {
    k == Gt || k == GtEq || k == Lt || k == LtEq || k == EqEq || k == NotEq
  }

  /** `isArithmeticOperator`. */
  predicate IsArithmeticOperator(k: TokenKind)
  {
    k == Plus || k == Minus || k == Asterisk || k == Slash
  }

  /** The operators `expression` joins terms with. */
  predicate IsExpressionOperator(k: TokenKind)
  {
    k == Plus || k == Minus || IsComparisonOperator(k) || k == And || k == Or
  }

  /** The guard in `nextToken`: an arithmetic or comparison operator directly followed by `与`, `或` or `非`. */
  predicate AdjacentOperators(cur: Token, peek: Token)
  {
    (IsComparisonOperator(cur.kind) || IsArithmeticOperator(cur.kind)) && peek.kind.IsLogicalOperator()
  }

  /** `hasIndentation`: at width 0 no indentation token; at width `n > 0` one of exactly that width. */
  predicate HasIndentation(t: Token, n: nat)
  {
    if n == 0 then t.kind != Space else t.kind == Space && t.count == n
  }

  /**
   * `ts` are the tokens that successive `Scan` calls from the start of `s` give, the last
   * call ending at `pos`. (Stated for every count equal to `|ts|` so that the verifier
   * expands `LexN` only in the proof steps that mention it.)
   */
  ghost predicate LexedPrefix(s: string, ts: seq<Token>, pos: nat)
    requires WellFormedSource(s)
  {
    forall k :: k == |ts| ==> LexN(s, 0, k) == Ok(Lexed(ts, pos))
  }

  /** `code` is the rendering of `ts` (stated the same way, for the same reason). */
  ghost predicate Renders(scheme: NameScheme, ts: seq<Token>, code: string)
  {
    forall us :: us == ts ==> code == Rendered(scheme, us)
  }

  /** Code that renders a prefix of the tokens is a prefix of the code that renders them all. */
  lemma RendersPrefix(scheme: NameScheme, ts: seq<Token>, us: seq<Token>, c: string, d: string)
    requires ts <= us && Renders(scheme, ts, c) && Renders(scheme, us, d)
    ensures c <= d
  {
    RenderedPrefix(scheme, ts, us);
  }

  /** The first two scans of a source give what `Valid` asks of a fresh parser. */
  lemma FirstTwoTokens(s: string, t1: Token, p1: nat, t2: Token, p2: nat)
    requires WellFormedSource(s)
    requires Scan(s, 0) == Ok(Lexeme(t1, p1)) && Scan(s, p1) == Ok(Lexeme(t2, p2))
    ensures LexedPrefix(s, [t1, t2], p2)
    ensures p2 <= |s| + 1 && (t2.kind != Eof ==> p2 <= |s|)
    ensures Spelled(t1) && Spelled(t2)
  {
    ScanProgress(s, 0);
    ScanProgress(s, p1);
    LexerProperties.ScanSpelled(s, 0);
    LexerProperties.ScanSpelled(s, p1);
    assert LexN(s, 0, 1) == Ok(Lexed([t1], p1)) by {
      assert LexN(s, 0, 0) == Ok(Lexed([], 0));
      assert [] + [t1] == [t1];
    }
    assert LexN(s, 0, 2) == Ok(Lexed([t1, t2], p2)) by {
      assert [t1] + [t2] == [t1, t2];
    }
  }

  /**
   * The aborts `statement` owes to the first token of its body: `或则` or `否则` without an `if`,
   * and `中断` or `继续` outside a loop. A lexing error met while fetching the lookahead can
   * come first.
   */
  predicate BodyErrors(first: Token, inLoop: bool, err: Option<ParseError>)
  {
    && (first.kind == Elif || first.kind == Else ==> err.Some? && (err.value.LexFailure? || err.value == InvalidSyntax))
    && (first.kind == Break && !inLoop ==> err.Some? && (err.value.LexFailure? || err.value == BreakOutsideLoop))
    && (first.kind == Continue && !inLoop ==> err.Some? && (err.value.LexFailure? || err.value == ContinueOutsideLoop))
  }

  /** The consumed tokens `ts[start..end]` of a block. */
  datatype Span = Span(start: nat, end: nat)

  /**
   * `ts[i]`. The predicates over ranges of consumed tokens below quantify over `TokenAt`
   * rather than over `ts[i]`, so that a proof uses them at the positions it names and not at
   * every position of `consumed` that a parser method mentions.
   */
  function TokenAt(ts: seq<Token>, i: nat): Token
    requires i < |ts|
  {
    ts[i]
  }

  /**
   * `ts[a..b]` holds no indentation token and every identifier in it names a variable of
   * `symbols`: what expressions, and the statements that do not nest, consist of.
   */
  ghost predicate UsesDeclared(scheme: NameScheme, symbols: set<string>, ts: seq<Token>, a: nat, b: nat)
  {
    && a <= b <= |ts|
    && forall i :: a <= i < b ==>
         TokenAt(ts, i).kind != Space && (TokenAt(ts, i).kind == Ident ==> Mangle(scheme, TokenAt(ts, i).text) in symbols)
  }

  /** Every indentation token in `ts[a..b]` is at least `w` wide. */
  ghost predicate IndentedAtLeast(ts: seq<Token>, a: nat, b: nat, w: nat)
  {
    && a <= b <= |ts|
    && forall i :: a <= i < b && TokenAt(ts, i).kind == Space ==> TokenAt(ts, i).count >= w
  }

  /** `ts[j]` is `中断` or `继续`. */
  predicate IsLoopControl(ts: seq<Token>, j: nat)
  {
    j < |ts| && (ts[j].kind == Break || ts[j].kind == Continue)
  }

  /** `ts[j]` is `或则` or `否则`, and `j < b`. */
  predicate IsClauseBefore(ts: seq<Token>, j: nat, b: nat)
  {
    j < b <= |ts| && (ts[j].kind == Elif || ts[j].kind == Else)
  }

  /** No statement of width `w` in `ts[a..b]` is `中断` or `继续`. */
  ghost predicate NoLoopControlAt(ts: seq<Token>, a: nat, b: nat, w: nat)
  {
    && a <= b <= |ts|
    && forall i :: a <= i < b - 1 && TokenAt(ts, i).kind == Space && TokenAt(ts, i).count == w ==> !IsLoopControl(ts, i + 1)
  }

  /**
   * `ts[a..b]` lies inside a statement of width `n`: its indentation tokens are deeper than
   * `n`, except those of width `n` that introduce an `elif` or `else` clause.
   */
  ghost predicate NestedIn(ts: seq<Token>, a: nat, b: nat, n: nat)
  {
    && a <= b <= |ts|
    && forall i :: a <= i < b && TokenAt(ts, i).kind == Space ==>
         TokenAt(ts, i).count > n || (TokenAt(ts, i).count == n && IsClauseBefore(ts, i + 1, b))
  }

  /**
   * `ts[sp.start..sp.end]` is a block parsed with minimum width `minWidth`: its first token is
   * an indentation at least that wide, which fixes the block's width; nothing in the block is
   * indented less; and outside a loop none of its statements is `中断` or `继续`.
   */
  ghost predicate BlockAt(ts: seq<Token>, sp: Span, minWidth: nat, inLoop: bool)
  {
    && sp.start < sp.end <= |ts|
    && ts[sp.start].kind == Space && ts[sp.start].count >= minWidth
    && IndentedAtLeast(ts, sp.start, sp.end, ts[sp.start].count)
    && (!inLoop ==> NoLoopControlAt(ts, sp.start, sp.end, ts[sp.start].count))
  }

  /** Every span of `blocks` is such a block of `ts`, at or after position `a`. */
  ghost predicate BlocksAt(ts: seq<Token>, blocks: seq<Span>, a: nat, minWidth: nat, inLoop: bool)
  {
    forall k :: 0 <= k < |blocks| ==> a <= blocks[k].start && BlockAt(ts, blocks[k], minWidth, inLoop)
  }

  /** Facts about `ts[a..|ts|]` and `us[|ts|..|us|]` combine into one about `us[a..|us|]`. */
  lemma UsesDeclaredExtend(scheme: NameScheme, symbols: set<string>, ts: seq<Token>, us: seq<Token>, a: nat)
    requires ts <= us && UsesDeclared(scheme, symbols, ts, a, |ts|) && UsesDeclared(scheme, symbols, us, |ts|, |us|)
    ensures UsesDeclared(scheme, symbols, us, a, |us|)
  {
    assert forall i :: a <= i < |ts| ==> TokenAt(us, i) == TokenAt(ts, i);
  }

  lemma IndentedExtend(ts: seq<Token>, us: seq<Token>, a: nat, w: nat)
    requires ts <= us && IndentedAtLeast(ts, a, |ts|, w) && IndentedAtLeast(us, |ts|, |us|, w)
    ensures IndentedAtLeast(us, a, |us|, w)
  {
    assert forall i :: a <= i < |ts| ==> TokenAt(us, i) == TokenAt(ts, i);
  }

  lemma NestedExtend(ts: seq<Token>, us: seq<Token>, a: nat, n: nat)
    requires ts <= us && NestedIn(ts, a, |ts|, n) && NestedIn(us, |ts|, |us|, n)
    ensures NestedIn(us, a, |us|, n)
  {
    assert forall i :: a <= i < |ts| ==> TokenAt(us, i) == TokenAt(ts, i);
  }

  /** The pair that straddles the seam is harmless when `ts` does not end with an indentation. */
  lemma NoLoopControlExtend(ts: seq<Token>, us: seq<Token>, a: nat, w: nat)
    requires ts <= us && NoLoopControlAt(ts, a, |ts|, w) && NoLoopControlAt(us, |ts|, |us|, w)
    requires a < |ts| ==> ts[|ts| - 1].kind != Space
    ensures NoLoopControlAt(us, a, |us|, w)
  {
    assert forall i :: a <= i < |ts| ==> TokenAt(us, i) == TokenAt(ts, i);
  }

  /** Blocks already consumed stay blocks while further tokens are consumed. */
  lemma BlocksGrow(ts: seq<Token>, us: seq<Token>, blocks: seq<Span>, a: nat, minWidth: nat, inLoop: bool)
    requires ts <= us && BlocksAt(ts, blocks, a, minWidth, inLoop)
    ensures BlocksAt(us, blocks, a, minWidth, inLoop)
  {
    forall k | 0 <= k < |blocks|
      ensures a <= blocks[k].start && BlockAt(us, blocks[k], minWidth, inLoop)
    {
      var sp := blocks[k];
      assert forall i :: sp.start <= i < sp.end ==> TokenAt(us, i) == TokenAt(ts, i);
    }
  }

  lemma BlocksJoin(ts: seq<Token>, xs: seq<Span>, ys: seq<Span>, a: nat, b: nat, minWidth: nat, inLoop: bool)
    requires a <= b && BlocksAt(ts, xs, a, minWidth, inLoop) && BlocksAt(ts, ys, b, minWidth, inLoop)
    ensures BlocksAt(ts, xs + ys, a, minWidth, inLoop)
  {
    forall k | 0 <= k < |xs + ys|
      ensures a <= (xs + ys)[k].start && BlockAt(ts, (xs + ys)[k], minWidth, inLoop)
    {
      if k >= |xs| {
        assert (xs + ys)[k] == ys[k - |xs|];
      }
    }
  }

  /** A run of newlines has no indentation and no identifier. */
  lemma NewlinesUseNothing(scheme: NameScheme, symbols: set<string>, ts: seq<Token>, a: nat)
    requires a <= |ts| && forall i :: a <= i < |ts| ==> ts[i].kind == Newline
    ensures UsesDeclared(scheme, symbols, ts, a, |ts|)
  {
  }

  /** Tokens without indentation lie inside a statement of any width. */
  lemma UsesDeclaredNested(scheme: NameScheme, symbols: set<string>, ts: seq<Token>, a: nat, b: nat, n: nat)
    requires UsesDeclared(scheme, symbols, ts, a, b)
    ensures NestedIn(ts, a, b, n) && IndentedAtLeast(ts, a, b, n + 1)
  {
  }

  /** Indentation deeper than `n` lies inside a statement of width `n`. */
  lemma IndentedNested(ts: seq<Token>, a: nat, b: nat, n: nat)
    requires IndentedAtLeast(ts, a, b, n + 1)
    ensures NestedIn(ts, a, b, n)
  {
  }

  /** A block indented at least `minWidth` is indented at least `minWidth` throughout. */
  lemma BlockIndented(ts: seq<Token>, sp: Span, minWidth: nat, inLoop: bool)
    requires BlockAt(ts, sp, minWidth, inLoop)
    ensures IndentedAtLeast(ts, sp.start, sp.end, minWidth)
  {
  }

  /**
   * A statement of width `n` is its indentation token (none at width 0) and a body that lies
   * inside it; outside a loop the body's first token is not `中断` or `继续`. Then no
   * statement of width `n` in it is one either, and nothing in it is indented less than `n`.
   */
  lemma StatementTokens(ts: seq<Token>, a: nat, b: nat, n: nat, inLoop: bool)
    requires a <= b < |ts| && NestedIn(ts, b, |ts|, n)
    requires b == a || (b == a + 1 && ts[a].kind == Space && ts[a].count == n)
    requires !inLoop ==> !IsLoopControl(ts, b)
    ensures IndentedAtLeast(ts, a, |ts|, n)
    ensures !inLoop ==> NoLoopControlAt(ts, a, |ts|, n)
  {
    forall i | a <= i < |ts| && TokenAt(ts, i).kind == Space
      ensures TokenAt(ts, i).count >= n
    {
      if i >= b {
        assert TokenAt(ts, i).count > n || TokenAt(ts, i).count == n;
      }
    }
  }

  /**
   * A token that is neither an indentation nor a name, followed by tokens that use only
   * declared names: together they still do.
   */
  lemma UsesDeclaredAfter(scheme: NameScheme, symbols: set<string>, ts: seq<Token>, us: seq<Token>, a: nat)
    requires |ts| == a + 1 && ts <= us && ts[a].kind != Space && ts[a].kind != Ident
    requires UsesDeclared(scheme, symbols, us, |ts|, |us|)
    ensures us[a] == ts[a] && UsesDeclared(scheme, symbols, us, a, |us|)
  {
    assert TokenAt(us, a) == ts[a];
  }

  /** A token that is not an indentation, followed by tokens indented at least `w`: together they still are. */
  lemma IndentedAfter(ts: seq<Token>, us: seq<Token>, a: nat, w: nat)
    requires |ts| == a + 1 && ts <= us && ts[a].kind != Space
    requires IndentedAtLeast(us, |ts|, |us|, w)
    ensures us[a] == ts[a] && IndentedAtLeast(us, a, |us|, w)
  {
    assert TokenAt(us, a) == ts[a];
  }

  /** A clause's keyword, then tokens indented deeper than `n`: the clause lies inside width `n`. */
  lemma ClauseNested(ts: seq<Token>, us: seq<Token>, a: nat, n: nat)
    requires ts <= us && NestedIn(ts, a, |ts|, n) && IndentedAtLeast(us, |ts|, |us|, n + 1)
    ensures NestedIn(us, a, |us|, n)
  {
    IndentedNested(us, |ts|, |us|, n);
    NestedExtend(ts, us, a, n);
  }

  /** One block, at or after `a`, as a chain of blocks. */
  lemma OneBlock(ts: seq<Token>, block: Span, a: nat, minWidth: nat, inLoop: bool)
    requires a <= block.start && BlockAt(ts, block, minWidth, inLoop)
    ensures BlocksAt(ts, [block], a, minWidth, inLoop)
  {
  }

  /** The clauses of an `if` chain parsed so far, and the ones after them, form one chain. */
  lemma ChainGrow(ts: seq<Token>, us: seq<Token>, blocks: seq<Span>, more: seq<Span>, a: nat, n: nat)
    requires ts <= us && NestedIn(ts, a, |ts|, n) && NestedIn(us, |ts|, |us|, n)
    requires BlocksAt(ts, blocks, a, n + 1, false) && BlocksAt(us, more, |ts|, n + 1, false)
    ensures NestedIn(us, a, |us|, n) && BlocksAt(us, blocks + more, a, n + 1, false)
  {
    NestedExtend(ts, us, a, n);
    BlocksGrow(ts, us, blocks, a, n + 1, false);
    BlocksJoin(us, blocks, more, a, |ts|, n + 1, false);
  }

  /** An abort of `hasIndentationOrAbort` is none of the errors the statement body reports. */
  lemma AbortBodyErrors(first: Token, inLoop: bool, err: Option<ParseError>)
    requires err.Some? && (err.value.LexFailure? || (err.value == InvalidSyntax && (IsComparisonOperator(first.kind) || IsArithmeticOperator(first.kind))))
    ensures BodyErrors(first, inLoop, err)
  {
  }

  /**
   * A first statement at the width of its leading indentation, followed by further
   * statements at that width, forms a block.
   */
  lemma BlockFromStatements(ts: seq<Token>, us: seq<Token>, a: nat, minWidth: nat, inLoop: bool)
    requires ts <= us && a < |ts| && AfterNewline(ts)
    requires ts[a].kind == Space && ts[a].count >= minWidth
    requires IndentedAtLeast(ts, a, |ts|, ts[a].count) && IndentedAtLeast(us, |ts|, |us|, ts[a].count)
    requires !inLoop ==> NoLoopControlAt(ts, a, |ts|, ts[a].count) && NoLoopControlAt(us, |ts|, |us|, ts[a].count)
    ensures BlockAt(us, Span(a, |us|), minWidth, inLoop)
  {
    StatementsExtend(ts, us, a, ts[a].count, inLoop);
  }

  /** Statements of width `w` followed by more statements of that width. */
  lemma StatementsExtend(ts: seq<Token>, us: seq<Token>, a: nat, w: nat, inLoop: bool)
    requires ts <= us && AfterNewline(ts)
    requires IndentedAtLeast(ts, a, |ts|, w) && IndentedAtLeast(us, |ts|, |us|, w)
    requires !inLoop ==> NoLoopControlAt(ts, a, |ts|, w) && NoLoopControlAt(us, |ts|, |us|, w)
    ensures IndentedAtLeast(us, a, |us|, w)
    ensures !inLoop ==> NoLoopControlAt(us, a, |us|, w)
  {
    IndentedExtend(ts, us, a, w);
    if !inLoop {
      NoLoopControlExtend(ts, us, a, w);
    }
  }

  class Parser {
    const lexer: Lexer
    const emitter: Emitter
    /** The pinyin and digest functions `getAlphaNumericVar` uses. */
    const scheme: NameScheme
    /** The mangled names of the variables assigned so far. */
    var symbols: set<string>
    var curToken: Token
    var peekToken: Token
    /** The tokens the parser has moved past, in order. */
    ghost var consumed: seq<Token>

    /** Decreases with every token fetched; the termination measure of every production. */
    ghost function Rank(): int
      reads lexer
    {
      |lexer.source| + 2 - lexer.curPos
    }

    ghost predicate Valid()
      reads this`consumed, this`curToken, this`peekToken, lexer
    {
      && lexer.Valid()
      && var s := lexer.source;
      && var pos := lexer.curPos;
      && LexedPrefix(s, consumed + [curToken, peekToken], pos)
      && pos <= |s| + 2
      && (curToken.kind != Eof ==> pos <= |s| + 1)
      && (peekToken.kind != Eof ==> pos <= |s|)
      && Spelled(curToken) && Spelled(peekToken)
      && (forall i :: 0 <= i < |consumed| ==> consumed[i].kind != Eof)
    }

    /**
     * The parser writes no header, and the code emitted so far is the rendering of the
     * tokens consumed so far.
     */
    ghost predicate InSync()
      reads this`consumed, emitter
    {
      emitter.header == "" && Renders(scheme, consumed, emitter.code)
    }

    constructor Init(lexer: Lexer, emitter: Emitter, scheme: NameScheme, first: Token, second: Token)
      ensures this.lexer == lexer && this.emitter == emitter && this.scheme == scheme
      ensures curToken == first && peekToken == second
      ensures symbols == {} && consumed == []
    {
      this.lexer := lexer;
      this.emitter := emitter;
      this.scheme := scheme;
      symbols := {};
      curToken := first;
      peekToken := second;
      consumed := [];
    }

    /**
     * `Parser.__init__`: fetches the first two tokens. The adjacency guard is not applied
     * to the first fetch, when there is no current token yet.
     */
    static method Create(lexer: Lexer, emitter: Emitter, scheme: NameScheme) returns (r: Result<Parser, ParseError>)
      requires lexer.Valid() && lexer.curPos == 0 && emitter.header == "" && emitter.code == ""
      modifies lexer
      ensures r.Ok? ==>
        && fresh(r.value) && r.value.lexer == lexer && r.value.emitter == emitter && r.value.scheme == scheme
        && r.value.Valid() && r.value.InSync() && r.value.consumed == [] && r.value.symbols == {}
      ensures var first := Scan(lexer.source, 0);
        r.Ok? <==>
          && first.Ok? && Scan(lexer.source, first.value.next).Ok?
          && !AdjacentOperators(first.value.token, Scan(lexer.source, first.value.next).value.token)
    {
      var first := lexer.GetToken();
      if first.Err? {
        return Err(LexFailure(first.error));
      }
      ghost var pos1 := lexer.curPos;
      var second := lexer.GetToken();
      if second.Err? {
        return Err(LexFailure(second.error));
      }
      if AdjacentOperators(first.value, second.value) {
        return Err(InvalidSyntax);
      }
      FirstTwoTokens(lexer.source, first.value, pos1, second.value, lexer.curPos);
      var p := new Parser.Init(lexer, emitter, scheme, first.value, second.value);
      assert [] + [p.curToken, p.peekToken] == [first.value, second.value];
      assert Rendered(scheme, []) == "";
      r := Ok(p);
    }

    /** `nextToken`: shifts the lookahead by one token, fetching a new peek token from the lexer. */
    method NextToken() returns (err: Option<ParseError>)
      requires Valid() && curToken.kind != Eof
      modifies this, lexer
      ensures consumed == old(consumed) + [old(curToken)]
      ensures curToken == old(peekToken)
      ensures symbols == old(symbols)
      ensures Scan(lexer.source, old(lexer.curPos)).Err? ==>
                err == Some(LexFailure(Scan(lexer.source, old(lexer.curPos)).error))
      ensures Scan(lexer.source, old(lexer.curPos)).Ok? ==>
                (err.Some? <==> AdjacentOperators(old(peekToken), Scan(lexer.source, old(lexer.curPos)).value.token))
      ensures err.Some? && Scan(lexer.source, old(lexer.curPos)).Ok? ==> err == Some(InvalidSyntax)
      ensures err.None? ==> Valid() && peekToken == Scan(lexer.source, old(lexer.curPos)).value.token
      ensures err.None? ==> Rank() < old(Rank())
    {
      ghost var pos0 := lexer.curPos;
      var next := lexer.GetToken();
      consumed := consumed + [curToken];
      curToken := peekToken;
      if next.Err? {
        return Some(LexFailure(next.error));
      }
      peekToken := next.value;
      ScanProgress(lexer.source, pos0);
      LexerProperties.ScanSpelled(lexer.source, pos0);
      assert old(consumed) + [old(curToken), old(peekToken)] + [peekToken] == consumed + [curToken, peekToken];
      if AdjacentOperators(curToken, peekToken) {
        return Some(InvalidSyntax);
      }
      err := None;
    }

    /** `match`: consumes the current token if it has the given kind, and aborts otherwise. */
    method Match(kind: TokenKind) returns (err: Option<ParseError>)
      requires Valid() && kind != Eof
      modifies this, lexer
      ensures old(curToken).kind != kind ==> err == Some(Expected(kind, old(curToken).kind))
      ensures err.None? ==>
        && old(curToken).kind == kind
        && consumed == old(consumed) + [old(curToken)]
        && curToken == old(peekToken)
        && Valid() && Rank() < old(Rank()) && symbols == old(symbols)
    {
      if curToken.kind != kind {
        return Some(Expected(kind, curToken.kind));
      }
      err := NextToken();
    }

    /**
     * The recurring step of the productions: emit `out`, the output the current token
     * renders to, and move past the token. (The source emits some of these texts before
     * and some after its `nextToken` call; the code buffer is the same once both happened,
     * and an abort in between discards the buffer anyway.)
     */
    method Consume(out: string) returns (err: Option<ParseError>)
      requires Valid() && InSync() && curToken.kind != Eof
      requires Out(scheme, AfterNewline(consumed), curToken) == out
      modifies this, lexer, emitter
      ensures consumed == old(consumed) + [old(curToken)] && curToken == old(peekToken)
      ensures emitter.code == old(emitter.code) + out
      ensures symbols == old(symbols)
      ensures err.None? ==> Valid() && InSync() && Rank() < old(Rank())
    {
      RenderedSnoc(scheme, consumed, curToken);
      emitter.Emit(out);
      err := NextToken();
    }

    /** `match` of a bracket, colon or `=`, followed by emitting that symbol. */
    method MatchSymbol(kind: TokenKind) returns (err: Option<ParseError>)
      requires Valid() && InSync()
      requires kind == OpenBracket || kind == CloseBracket || kind == Colon || kind == Eq
      modifies this, lexer, emitter
      ensures old(curToken).kind != kind ==> err == Some(Expected(kind, old(curToken).kind))
      ensures err.None? ==>
        && old(curToken).kind == kind
        && consumed == old(consumed) + [old(curToken)] && curToken == old(peekToken)
        && emitter.code == old(emitter.code) + FixedSpelling(kind).value
        && Valid() && InSync() && Rank() < old(Rank()) && symbols == old(symbols)
    {
      if curToken.kind != kind {
        return Some(Expected(kind, curToken.kind));
      }
      err := Consume(FixedSpelling(kind).value);
    }

    /**
     * `hasIndentationOrAbort`: aborts unless `HasIndentation` holds; consumes the
     * indentation token when the width is not 0.
     */
    method HasIndentationOrAbort(n: nat) returns (err: Option<ParseError>)
      requires Valid()
      modifies this, lexer
      ensures n == 0 ==> unchanged(this, lexer)
      ensures n == 0 && old(curToken).kind == Space ==> err == Some(UnexpectedIndentation)
      ensures n > 0 && old(curToken).kind != Space ==> err == Some(ExpectedIndentation)
      ensures n > 0 && old(curToken).kind == Space && old(curToken).count != n ==> err == Some(WrongIndentation)
      ensures HasIndentation(old(curToken), n) && err.Some? ==>
        && n > 0
        && (err.value.LexFailure? || (err.value == InvalidSyntax && (IsComparisonOperator(old(peekToken).kind) || IsArithmeticOperator(old(peekToken).kind))))
      ensures err.None? ==> HasIndentation(old(curToken), n) && Valid() && symbols == old(symbols)
      ensures err.None? && n > 0 ==>
        consumed == old(consumed) + [old(curToken)] && curToken == old(peekToken) && Rank() < old(Rank())
    {
      if n == 0 {
        if curToken.kind == Space {
          return Some(UnexpectedIndentation);
        }
        return None;
      }
      if curToken.kind != Space {
        return Some(ExpectedIndentation);
      }
      if curToken.count != n {
        return Some(WrongIndentation);
      }
      err := NextToken();
    }

    /** Whether an `elif` or `else` clause (`kind`) of an `if` at width `n` comes next. */
    predicate ClauseAhead(kind: TokenKind, n: nat)
      reads this
    {
      HasIndentation(curToken, n) && ((n == 0 && curToken.kind == kind) || (n > 0 && peekToken.kind == kind))
    }

    /** `program`: skips leading newlines, then parses statements up to the end of input. */
    method Program() returns (err: Option<ParseError>)
      requires Valid() && InSync() && consumed == []
      modifies this, lexer, emitter
      ensures err.None? ==> Valid() && InSync() && curToken.kind == Eof
    {
      while curToken.kind == Newline
        invariant Valid() && InSync() && AfterNewline(consumed)
        decreases Rank()
      {
        err := Consume("");
        if err.Some? {
          return;
        }
      }
      while curToken.kind != Eof
        invariant Valid() && InSync()
        decreases Rank()
      {
        err := Statement(0, false);
        if err.Some? {
          return;
        }
      }
      err := None;
    }

    /**
     * `parseStatementsInBlock`: the first statement fixes the block's width, which must be
     * at least `minWidth`; the block goes on while statements have that same width.
     */
    method Block(minWidth: nat, inLoop: bool) returns (err: Option<ParseError>)
      requires Valid() && InSync()
      modifies this, lexer, emitter
      decreases Rank(), 21
      ensures !(old(curToken).kind == Space && old(curToken).count >= minWidth) ==> err == Some(ExpectedIndentedBlock)
      ensures err.None? ==>
        && Valid() && InSync() && old(consumed) < consumed && Rank() < old(Rank()) && old(symbols) <= symbols
        && AfterNewline(consumed)
        && consumed[|old(consumed)|] == old(curToken)
        && BlockAt(consumed, Span(|old(consumed)|, |consumed|), minWidth, inLoop)
        && !(curToken.kind == Space && curToken.count == old(curToken).count)
    {
      if !(curToken.kind == Space && curToken.count >= minWidth) {
        return Some(ExpectedIndentedBlock);
      }
      var width := curToken.count;
      ghost var a := |consumed|;
      err := Statement(width, inLoop);
      if err.Some? {
        return;
      }
      assert consumed[a] == old(curToken);
      ghost var afterFirst := consumed;
      err := BlockRest(width, inLoop);
      if err.Some? {
        return;
      }
      BlockFromStatements(afterFirst, consumed, a, minWidth, inLoop);
    }

    /** The loop of `parseStatementsInBlock`: further statements of the block's width `width`. */
    method BlockRest(width: nat, inLoop: bool) returns (err: Option<ParseError>)
      requires Valid() && InSync() && AfterNewline(consumed)
      modifies this, lexer, emitter
      decreases Rank(), 23
      ensures err.None? ==>
        && Valid() && InSync() && old(consumed) <= consumed && Rank() <= old(Rank()) && old(symbols) <= symbols
        && AfterNewline(consumed)
        && IndentedAtLeast(consumed, |old(consumed)|, |consumed|, width)
        && (!inLoop ==> NoLoopControlAt(consumed, |old(consumed)|, |consumed|, width))
        && !(curToken.kind == Space && curToken.count == width)
    {
      err := None;
      while curToken.kind == Space && curToken.count == width
        invariant Valid() && InSync() && old(consumed) <= consumed && Rank() <= old(Rank()) && old(symbols) <= symbols
        invariant AfterNewline(consumed)
        invariant IndentedAtLeast(consumed, |old(consumed)|, |consumed|, width)
        invariant !inLoop ==> NoLoopControlAt(consumed, |old(consumed)|, |consumed|, width)
        decreases Rank()
      {
        err := BlockStatement(width, inLoop, |old(consumed)|);
        if err.Some? {
          return;
        }
      }
    }

    /** One further statement of a block of width `width` whose statements start at `a`. */
    method BlockStatement(width: nat, inLoop: bool, ghost a: nat) returns (err: Option<ParseError>)
      requires Valid() && InSync() && AfterNewline(consumed)
      requires IndentedAtLeast(consumed, a, |consumed|, width)
      requires !inLoop ==> NoLoopControlAt(consumed, a, |consumed|, width)
      modifies this, lexer, emitter
      decreases Rank(), 21
      ensures err.None? ==>
        && Valid() && InSync() && old(consumed) < consumed && Rank() < old(Rank()) && old(symbols) <= symbols
        && AfterNewline(consumed)
        && IndentedAtLeast(consumed, a, |consumed|, width)
        && (!inLoop ==> NoLoopControlAt(consumed, a, |consumed|, width))
    {
      ghost var before := consumed;
      err := Statement(width, inLoop);
      if err.Some? {
        return;
      }
      StatementsExtend(before, consumed, a, width, inLoop);
    }

    /**
     * `statement`: checks the indentation, emits it, and parses one statement, which ends
     * with a line break.
     */
    method Statement(n: nat, inLoop: bool) returns (err: Option<ParseError>)
      requires Valid() && InSync()
      modifies this, lexer, emitter
      decreases Rank(), 19
      ensures n == 0 && old(curToken).kind == Space ==> err == Some(UnexpectedIndentation)
      ensures n > 0 && old(curToken).kind != Space ==> err == Some(ExpectedIndentation)
      ensures n > 0 && old(curToken).kind == Space && old(curToken).count != n ==> err == Some(WrongIndentation)
      ensures HasIndentation(old(curToken), n) ==> BodyErrors(if n == 0 then old(curToken) else old(peekToken), inLoop, err)
      ensures err.None? ==>
        && Valid() && InSync() && old(consumed) < consumed && Rank() < old(Rank()) && old(symbols) <= symbols
        && AfterNewline(consumed)
        && old(emitter.code) + Spaces(n) <= emitter.code
        && (n > 0 ==> consumed[|old(consumed)|] == old(curToken))
        && IndentedAtLeast(consumed, |old(consumed)|, |consumed|, n)
        && (!inLoop ==> NoLoopControlAt(consumed, |old(consumed)|, |consumed|, n))
    {
      ghost var first := if n == 0 then curToken else peekToken;
      err := Indentation(n);
      if err.Some? {
        if HasIndentation(old(curToken), n) {
          AbortBodyErrors(first, inLoop, err);
        }
        return;
      }
      assert curToken == first;
      ghost var start := consumed;
      ghost var indented := emitter.code;
      err := StatementBody(n, inLoop);
      if err.Some? {
        return;
      }
      RendersPrefix(scheme, start, consumed, indented, emitter.code);
      StatementTokens(consumed, |old(consumed)|, |start|, n, inLoop);
    }

    /** The start of `statement`: `hasIndentationOrAbort`, then the indentation is emitted. */
    method Indentation(n: nat) returns (err: Option<ParseError>)
      requires Valid() && InSync()
      modifies this, lexer, emitter
      ensures n == 0 && old(curToken).kind == Space ==> err == Some(UnexpectedIndentation)
      ensures n > 0 && old(curToken).kind != Space ==> err == Some(ExpectedIndentation)
      ensures n > 0 && old(curToken).kind == Space && old(curToken).count != n ==> err == Some(WrongIndentation)
      ensures HasIndentation(old(curToken), n) && err.Some? ==>
        && n > 0
        && (err.value.LexFailure? || (err.value == InvalidSyntax && (IsComparisonOperator(old(peekToken).kind) || IsArithmeticOperator(old(peekToken).kind))))
      ensures err.None? ==>
        && HasIndentation(old(curToken), n) && Valid() && InSync() && symbols == old(symbols) && Rank() <= old(Rank())
        && consumed == old(consumed) + (if n > 0 then [old(curToken)] else [])
        && curToken == (if n > 0 then old(peekToken) else old(curToken))
        && emitter.code == old(emitter.code) + Spaces(n)
    {
      err := HasIndentationOrAbort(n);
      if err.Some? {
        return;
      }
      if n > 0 {
        RenderedSnoc(scheme, old(consumed), old(curToken));
      } else {
        assert consumed == old(consumed) + [];
      }
      emitter.Emit(Spaces(n));
    }

    /**
     * The statement kinds of `statement`, chosen by the token after the indentation. An
     * identifier followed by `=` starts an assignment, which declares the identifier.
     */
    method StatementBody(n: nat, inLoop: bool) returns (err: Option<ParseError>)
      requires Valid() && InSync()
      modifies this, lexer, emitter
      decreases Rank(), 17
      ensures (old(curToken).kind == Elif || old(curToken).kind == Else) ==> err == Some(InvalidSyntax)
      ensures old(curToken).kind == Break && !inLoop ==> err == Some(BreakOutsideLoop)
      ensures old(curToken).kind == Continue && !inLoop ==> err == Some(ContinueOutsideLoop)
      ensures BodyErrors(old(curToken), inLoop, err)
      ensures old(curToken).kind == Ident && old(peekToken).kind == Eq && err.None? ==>
        && symbols == old(symbols) + {Mangle(scheme, old(curToken).text)}
        && UsesDeclared(scheme, old(symbols), consumed, |old(consumed)| + 1, |consumed|)
      ensures old(curToken).kind != If && old(curToken).kind != While && !(old(curToken).kind == Ident && old(peekToken).kind == Eq) && err.None? ==>
        && symbols == old(symbols)
        && UsesDeclared(scheme, symbols, consumed, |old(consumed)|, |consumed|)
      ensures err.None? ==>
        && Valid() && InSync() && old(consumed) < consumed && Rank() < old(Rank()) && old(symbols) <= symbols
        && AfterNewline(consumed)
        && consumed[|old(consumed)|] == old(curToken)
        && NestedIn(consumed, |old(consumed)|, |consumed|, n)
    {
      if curToken.kind == If {
        ghost var blocks: seq<Span>;
        ghost var elseAt: Option<nat>;
        err, blocks, elseAt := IfStatement(n);
      } else if curToken.kind == While {
        ghost var block: Span;
        err, block := WhileStatement(n);
        if err.Some? {
          return;
        }
        IndentedNested(consumed, |old(consumed)|, |consumed|, n);
      } else {
        err := SimpleStatement(inLoop);
        if err.Some? {
          return;
        }
        if old(curToken).kind == Ident && old(peekToken).kind == Eq {
          UsesDeclaredNested(scheme, old(symbols), consumed, |old(consumed)| + 1, |consumed|, n);
        } else {
          UsesDeclaredNested(scheme, symbols, consumed, |old(consumed)|, |consumed|, n);
        }
      }
    }

    /** The statements of `statement` that do not nest: print, assignment, break, continue and expression statements. */
    method SimpleStatement(inLoop: bool) returns (err: Option<ParseError>)
      requires Valid() && InSync() && curToken.kind != If && curToken.kind != While
      modifies this, lexer, emitter
      decreases Rank(), 17
      ensures (old(curToken).kind == Elif || old(curToken).kind == Else) ==> err == Some(InvalidSyntax)
      ensures old(curToken).kind == Break && !inLoop ==> err == Some(BreakOutsideLoop)
      ensures old(curToken).kind == Continue && !inLoop ==> err == Some(ContinueOutsideLoop)
      ensures old(curToken).kind == Ident && old(peekToken).kind == Eq && err.None? ==>
        && symbols == old(symbols) + {Mangle(scheme, old(curToken).text)}
        && UsesDeclared(scheme, old(symbols), consumed, |old(consumed)| + 1, |consumed|)
      ensures !(old(curToken).kind == Ident && old(peekToken).kind == Eq) && err.None? ==>
        && symbols == old(symbols)
        && UsesDeclared(scheme, symbols, consumed, |old(consumed)|, |consumed|)
      ensures err.None? ==>
        && Valid() && InSync() && old(consumed) < consumed && Rank() < old(Rank()) && old(symbols) <= symbols
        && AfterNewline(consumed)
        && consumed[|old(consumed)|] == old(curToken)
    {
      if curToken.kind == Print {
        err := PrintStatement();
      } else if curToken.kind == Ident && peekToken.kind == Eq {
        err := AssignmentStatement();
      } else if curToken.kind == Elif || curToken.kind == Else {
        err := Some(InvalidSyntax);
      } else if curToken.kind == Break || curToken.kind == Continue {
        err := LoopControl(inLoop);
      } else {
        err := Expression();
        if err.Some? {
          return;
        }
        err := NlAfter(|old(consumed)|, symbols);
      }
    }

    /** `中断` or `继续`, which only a loop body may contain. */
    method LoopControl(inLoop: bool) returns (err: Option<ParseError>)
      requires Valid() && InSync() && (curToken.kind == Break || curToken.kind == Continue)
      modifies this, lexer, emitter
      ensures !inLoop ==> err == Some(if old(curToken).kind == Break then BreakOutsideLoop else ContinueOutsideLoop)
      ensures err.None? ==>
        && Valid() && InSync() && old(consumed) < consumed && Rank() < old(Rank()) && symbols == old(symbols)
        && AfterNewline(consumed)
        && consumed[|old(consumed)|] == old(curToken)
        && UsesDeclared(scheme, symbols, consumed, |old(consumed)|, |consumed|)
    {
      if !inLoop {
        return Some(if curToken.kind == Break then BreakOutsideLoop else ContinueOutsideLoop);
      }
      err := Consume(if curToken.kind == Break then "break" else "continue");
      if err.Some? {
        return;
      }
      err := NlAfter(|old(consumed)|, symbols);
    }

    /**
     * `印出(...)`: a string literal is printed quoted, anything else is parsed as an
     * expression. (The source emits `print("` and the text in one piece, and `print(` for
     * an expression before the bracket is matched; the code emitted is the same.)
     */
    method PrintStatement() returns (err: Option<ParseError>)
      requires Valid() && InSync() && curToken.kind == Print
      modifies this, lexer, emitter
      decreases Rank(), 15
      ensures old(peekToken).kind != OpenBracket ==> err.Some?
      ensures err.None? ==>
        && Valid() && InSync() && old(consumed) < consumed && Rank() < old(Rank()) && symbols == old(symbols)
        && AfterNewline(consumed)
        && consumed[|old(consumed)|] == old(curToken)
        && UsesDeclared(scheme, symbols, consumed, |old(consumed)|, |consumed|)
    {
      err := Consume("print");
      if err.Some? {
        return;
      }
      assert curToken == old(peekToken);
      ghost var afterKeyword := consumed;
      err := PrintArgument();
      if err.Some? {
        return;
      }
      UsesDeclaredAfter(scheme, symbols, afterKeyword, consumed, |old(consumed)|);
      assert old(consumed) < consumed && consumed[|old(consumed)|] == old(curToken);
      err := NlAfter(|old(consumed)|, symbols);
    }

    /** The bracketed argument of `印出`. */
    method PrintArgument() returns (err: Option<ParseError>)
      requires Valid() && InSync()
      modifies this, lexer, emitter
      decreases Rank(), 13
      ensures old(curToken).kind != OpenBracket ==> err == Some(Expected(OpenBracket, old(curToken).kind))
      ensures err.None? ==>
        && Valid() && InSync() && old(consumed) < consumed && Rank() < old(Rank()) && symbols == old(symbols)
        && !AfterNewline(consumed) && consumed[|old(consumed)|] == old(curToken)
        && consumed[|consumed| - 1].kind == CloseBracket
        && UsesDeclared(scheme, symbols, consumed, |old(consumed)|, |consumed|)
    {
      err := MatchSymbol(OpenBracket);
      if err.Some? {
        return;
      }
      ghost var afterOpen := consumed;
      err := PrintValue();
      if err.Some? {
        return;
      }
      UsesDeclaredAfter(scheme, symbols, afterOpen, consumed, |old(consumed)|);
      assert old(consumed) < consumed;
      err := CloseBracketAfter(|old(consumed)|);
    }

    /** What `印出` prints: a string literal, emitted in double quotes, or an expression. */
    method PrintValue() returns (err: Option<ParseError>)
      requires Valid() && InSync()
      modifies this, lexer, emitter
      decreases Rank(), 11
      ensures err.None? ==>
        && Valid() && InSync() && old(consumed) < consumed && Rank() < old(Rank()) && symbols == old(symbols)
        && UsesDeclared(scheme, symbols, consumed, |old(consumed)|, |consumed|)
    {
      if curToken.kind == String {
        err := Consume("\"" + curToken.text + "\"");
      } else {
        err := Expression();
      }
    }

    /**
     * `如果 expression : nl block`, then the `elif` clauses and the `else` clause at the same
     * width. Every block of the chain is deeper than `n` and is not a loop body.
     */
    method IfStatement(n: nat) returns (err: Option<ParseError>, ghost blocks: seq<Span>, ghost elseAt: Option<nat>)
      requires Valid() && InSync() && curToken.kind == If
      modifies this, lexer, emitter
      decreases Rank(), 15
      ensures err.None? ==>
        && Valid() && InSync() && old(consumed) < consumed && Rank() < old(Rank()) && old(symbols) <= symbols
        && AfterNewline(consumed)
        && consumed[|old(consumed)|] == old(curToken)
        && NestedIn(consumed, |old(consumed)|, |consumed|, n)
        && |blocks| >= 1 && BlocksAt(consumed, blocks, |old(consumed)|, n + 1, false)
      ensures err.None? && elseAt.None? ==> !ClauseAhead(Elif, n) && !ClauseAhead(Else, n)
      ensures err.None? && elseAt.Some? ==> |old(consumed)| < elseAt.value < |consumed| && consumed[elseAt.value].kind == Else
    {
      blocks := [];
      elseAt := None;
      err := Consume("if ");
      if err.Some? {
        return;
      }
      ghost var afterIf := consumed;
      assert afterIf[|old(consumed)|] == old(curToken);
      ghost var block: Span;
      err, block := ConditionAndBlock(n, false);
      if err.Some? {
        return;
      }
      IndentedAfter(afterIf, consumed, |old(consumed)|, n + 1);
      IndentedNested(consumed, |old(consumed)|, |consumed|, n);
      OneBlock(consumed, block, |old(consumed)|, n + 1, false);
      assert old(consumed) < consumed && consumed[|old(consumed)|] == old(curToken);
      ghost var afterBlock := consumed;
      ghost var more: seq<Span>;
      err, more, elseAt := OtherClauses(n);
      if err.Some? {
        return;
      }
      assert afterBlock <= consumed && consumed[|old(consumed)|] == old(curToken);
      ChainGrow(afterBlock, consumed, [block], more, |old(consumed)|, n);
      blocks := [block] + more;
    }

    /** The `elif` clauses and the optional `else` clause of an `if` at width `n`. */
    method OtherClauses(n: nat) returns (err: Option<ParseError>, ghost blocks: seq<Span>, ghost elseAt: Option<nat>)
      requires Valid() && InSync() && AfterNewline(consumed)
      modifies this, lexer, emitter
      decreases Rank(), 13
      ensures err.None? ==>
        && Valid() && InSync() && old(consumed) <= consumed && Rank() <= old(Rank()) && old(symbols) <= symbols
        && AfterNewline(consumed)
        && NestedIn(consumed, |old(consumed)|, |consumed|, n)
        && BlocksAt(consumed, blocks, |old(consumed)|, n + 1, false)
      ensures err.None? && elseAt.None? ==> !ClauseAhead(Elif, n) && !ClauseAhead(Else, n)
      ensures err.None? && elseAt.Some? ==> |old(consumed)| <= elseAt.value < |consumed| && consumed[elseAt.value].kind == Else
    {
      blocks := [];
      elseAt := None;
      ghost var elifBlocks: seq<Span>;
      err, elifBlocks := ElifClauses(n);
      if err.Some? {
        return;
      }
      ghost var afterElif := consumed;
      ghost var elseBlocks: seq<Span>;
      err, elseBlocks, elseAt := ElseClause(n);
      if err.Some? {
        return;
      }
      ChainGrow(afterElif, consumed, elifBlocks, elseBlocks, |old(consumed)|, n);
      blocks := elifBlocks + elseBlocks;
    }

    /** The `或则 expression : nl block` clauses that follow an `if` at width `n`. */
    method ElifClauses(n: nat) returns (err: Option<ParseError>, ghost blocks: seq<Span>)
      requires Valid() && InSync() && AfterNewline(consumed)
      modifies this, lexer, emitter
      decreases Rank(), 11
      ensures err.None? ==>
        && Valid() && InSync() && old(consumed) <= consumed && Rank() <= old(Rank()) && old(symbols) <= symbols
        && AfterNewline(consumed)
        && !ClauseAhead(Elif, n)
        && NestedIn(consumed, |old(consumed)|, |consumed|, n)
        && BlocksAt(consumed, blocks, |old(consumed)|, n + 1, false)
    {
      err := None;
      blocks := [];
      while ClauseAhead(Elif, n)
        invariant Valid() && InSync() && old(consumed) <= consumed && Rank() <= old(Rank()) && old(symbols) <= symbols
        invariant AfterNewline(consumed)
        invariant NestedIn(consumed, |old(consumed)|, |consumed|, n)
        invariant BlocksAt(consumed, blocks, |old(consumed)|, n + 1, false)
        decreases Rank()
      {
        err, blocks := ElifClause(n, |old(consumed)|, blocks);
        if err.Some? {
          return;
        }
      }
    }

    /**
     * One `或则 expression : nl block` clause of an `if` at width `n`, which adds its block to
     * the `blocks` of the clauses from `a` on.
     */
    method ElifClause(n: nat, ghost a: nat, ghost blocks: seq<Span>) returns (err: Option<ParseError>, ghost grown: seq<Span>)
      requires Valid() && InSync() && ClauseAhead(Elif, n)
      requires NestedIn(consumed, a, |consumed|, n) && BlocksAt(consumed, blocks, a, n + 1, false)
      modifies this, lexer, emitter
      decreases Rank(), 9
      ensures err.None? ==>
        && Valid() && InSync() && old(consumed) < consumed && Rank() < old(Rank()) && old(symbols) <= symbols
        && AfterNewline(consumed)
        && NestedIn(consumed, a, |consumed|, n)
        && |grown| == |blocks| + 1 && grown[..|blocks|] == blocks && |old(consumed)| <= grown[|blocks|].start
        && BlocksAt(consumed, grown, a, n + 1, false)
    {
      grown := blocks;
      err := ClauseKeyword(n, Elif);
      if err.Some? {
        return;
      }
      ghost var afterKeyword := consumed;
      ghost var block: Span;
      err, block := ConditionAndBlock(n, false);
      if err.Some? {
        return;
      }
      ClauseNested(afterKeyword, consumed, |old(consumed)|, n);
      OneBlock(consumed, block, |old(consumed)|, n + 1, false);
      ChainGrow(old(consumed), consumed, blocks, [block], a, n);
      grown := blocks + [block];
    }

    /**
     * The `否则 : nl block` clause that may close an `if` at width `n`; when none comes
     * next, nothing is consumed or emitted.
     */
    method ElseClause(n: nat) returns (err: Option<ParseError>, ghost blocks: seq<Span>, ghost elseAt: Option<nat>)
      requires Valid() && InSync() && AfterNewline(consumed)
      modifies this, lexer, emitter
      decreases Rank(), 11
      ensures !old(ClauseAhead(Else, n)) ==>
        && err.None? && consumed == old(consumed) && emitter.code == old(emitter.code) && blocks == []
        && curToken == old(curToken) && peekToken == old(peekToken)
      ensures err.None? ==>
        && Valid() && InSync() && old(consumed) <= consumed && Rank() <= old(Rank()) && old(symbols) <= symbols
        && AfterNewline(consumed)
        && NestedIn(consumed, |old(consumed)|, |consumed|, n)
        && |blocks| == (if old(ClauseAhead(Else, n)) then 1 else 0)
        && BlocksAt(consumed, blocks, |old(consumed)|, n + 1, false)
      ensures err.None? && elseAt.None? ==> !ClauseAhead(Else, n) && curToken == old(curToken) && peekToken == old(peekToken)
      ensures err.None? && elseAt.Some? ==> |old(consumed)| <= elseAt.value < |consumed| && consumed[elseAt.value].kind == Else
    {
      err := None;
      blocks := [];
      elseAt := None;
      if ClauseAhead(Else, n) {
        ghost var block: Span;
        err, block := ElseBranch(n);
        if err.Some? {
          return;
        }
        OneBlock(consumed, block, |old(consumed)|, n + 1, false);
        blocks := [block];
        elseAt := Some(|old(consumed)| + (if n > 0 then 1 else 0));
      }
    }

    /** The `否则 : nl block` clause itself, once it is known to come next. */
    method ElseBranch(n: nat) returns (err: Option<ParseError>, ghost block: Span)
      requires Valid() && InSync() && ClauseAhead(Else, n)
      modifies this, lexer, emitter
      decreases Rank(), 10
      ensures err.None? ==>
        && Valid() && InSync() && old(consumed) < consumed && Rank() < old(Rank()) && old(symbols) <= symbols
        && AfterNewline(consumed)
        && NestedIn(consumed, |old(consumed)|, |consumed|, n)
        && |old(consumed)| + (if n > 0 then 1 else 0) < |consumed|
        && consumed[|old(consumed)| + (if n > 0 then 1 else 0)].kind == Else
        && |old(consumed)| <= block.start && BlockAt(consumed, block, n + 1, false)
    {
      block := Span(0, 0);
      err := ClauseKeyword(n, Else);
      if err.Some? {
        return;
      }
      ghost var afterKeyword := consumed;
      ghost var keyword := |old(consumed)| + (if n > 0 then 1 else 0);
      assert keyword < |afterKeyword| && afterKeyword[keyword].kind == Else;
      err, block := ColonAndBlock(n, false);
      if err.Some? {
        return;
      }
      assert afterKeyword < consumed && consumed[keyword] == afterKeyword[keyword];
      ClauseNested(afterKeyword, consumed, |old(consumed)|, n);
    }

    /** `当 expression : nl block`, whose block is a loop body deeper than `n`. */
    method WhileStatement(n: nat) returns (err: Option<ParseError>, ghost block: Span)
      requires Valid() && InSync() && curToken.kind == While
      modifies this, lexer, emitter
      decreases Rank(), 15
      ensures err.None? ==>
        && Valid() && InSync() && old(consumed) < consumed && Rank() < old(Rank()) && old(symbols) <= symbols
        && AfterNewline(consumed)
        && consumed[|old(consumed)|] == old(curToken)
        && IndentedAtLeast(consumed, |old(consumed)|, |consumed|, n + 1)
        && |old(consumed)| < block.start && block.end == |consumed| && BlockAt(consumed, block, n + 1, true)
    {
      block := Span(0, 0);
      err := Consume("while ");
      if err.Some? {
        return;
      }
      ghost var afterWhile := consumed;
      assert afterWhile[|old(consumed)|] == old(curToken);
      err, block := ConditionAndBlock(n, true);
      if err.Some? {
        return;
      }
      IndentedAfter(afterWhile, consumed, |old(consumed)|, n + 1);
      assert old(consumed) < consumed && consumed[|old(consumed)|] == old(curToken);
    }

    /**
     * The `elif` or `else` keyword of a clause at width `n`, with the indentation token
     * before it when `n > 0`: emits the indentation and the keyword.
     */
    method ClauseKeyword(n: nat, kind: TokenKind) returns (err: Option<ParseError>)
      requires Valid() && InSync() && ClauseAhead(kind, n) && (kind == Elif || kind == Else)
      modifies this, lexer, emitter
      ensures err.None? ==>
        && Valid() && InSync() && old(consumed) < consumed && Rank() < old(Rank()) && symbols == old(symbols)
        && emitter.code == old(emitter.code) + Spaces(n) + (if kind == Elif then "elif " else "else")
        && consumed == old(consumed) + (if n > 0 then [old(curToken), old(peekToken)] else [old(curToken)])
        && NestedIn(consumed, |old(consumed)|, |consumed|, n)
    {
      if n > 0 {
        err := Consume(Spaces(n));
        if err.Some? {
          return;
        }
        assert consumed == old(consumed) + [old(curToken)] && curToken == old(peekToken);
      } else {
        assert old(emitter.code) + Spaces(n) == old(emitter.code);
      }
      err := Consume(if kind == Elif then "elif " else "else");
    }

    /** `expression : nl block`, after `if`, `elif` or `while`. */
    method ConditionAndBlock(n: nat, inLoop: bool) returns (err: Option<ParseError>, ghost block: Span)
      requires Valid() && InSync()
      modifies this, lexer, emitter
      decreases Rank(), 13
      ensures err.None? ==>
        && Valid() && InSync() && old(consumed) < consumed && Rank() < old(Rank()) && old(symbols) <= symbols
        && AfterNewline(consumed)
        && IndentedAtLeast(consumed, |old(consumed)|, |consumed|, n + 1)
        && |old(consumed)| < block.start && block.end == |consumed| && BlockAt(consumed, block, n + 1, inLoop)
    {
      block := Span(0, 0);
      err := Expression();
      if err.Some? {
        return;
      }
      UsesDeclaredNested(scheme, symbols, consumed, |old(consumed)|, |consumed|, n);
      ghost var afterCondition := consumed;
      err, block := ColonAndBlock(n, inLoop);
      if err.Some? {
        return;
      }
      IndentedExtend(afterCondition, consumed, |old(consumed)|, n + 1);
    }

    /**
     * `: nl block`: the colon, the line break and a block indented deeper than `n`, which
     * is parsed as a loop body exactly when `inLoop` holds.
     */
    method ColonAndBlock(n: nat, inLoop: bool) returns (err: Option<ParseError>, ghost block: Span)
      requires Valid() && InSync()
      modifies this, lexer, emitter
      decreases Rank(), 11
      ensures old(curToken).kind != Colon ==> err == Some(Expected(Colon, old(curToken).kind))
      ensures err.None? ==>
        && Valid() && InSync() && old(consumed) < consumed && Rank() < old(Rank()) && old(symbols) <= symbols
        && AfterNewline(consumed) && consumed[|old(consumed)|] == old(curToken)
        && |old(consumed)| + 1 < block.start && block.end == |consumed|
        && BlockAt(consumed, block, n + 1, inLoop)
        && (forall i :: |old(consumed)| < i < block.start ==> consumed[i].kind == Newline)
        && IndentedAtLeast(consumed, |old(consumed)|, |consumed|, n + 1)
    {
      block := Span(0, 0);
      err := MatchSymbol(Colon);
      if err.Some? {
        return;
      }
      err := Nl();
      if err.Some? {
        return;
      }
      assert consumed[|old(consumed)|] == old(curToken);
      ghost var beforeBlock := consumed;
      err := Block(n + 1, inLoop);
      if err.Some? {
        return;
      }
      assert consumed[|old(consumed)|] == old(curToken);
      block := Span(|beforeBlock|, |consumed|);
      BlockIndented(consumed, block, n + 1, inLoop);
      IndentedExtend(beforeBlock, consumed, |old(consumed)|, n + 1);
    }

    /**
     * `ident = expression nl`: the variable is declared only after its right-hand side is
     * parsed, so the right-hand side may only use variables declared before.
     */
    method AssignmentStatement() returns (err: Option<ParseError>)
      requires Valid() && InSync() && curToken.kind == Ident && peekToken.kind == Eq
      modifies this, lexer, emitter
      decreases Rank(), 15
      ensures err.None? ==>
        && Valid() && InSync() && old(consumed) < consumed && Rank() < old(Rank())
        && symbols == old(symbols) + {Mangle(scheme, old(curToken).text)}
        && AfterNewline(consumed)
        && consumed[|old(consumed)|] == old(curToken)
        && UsesDeclared(scheme, old(symbols), consumed, |old(consumed)| + 1, |consumed|)
    {
      var variable := Mangle(scheme, curToken.text);
      err := Consume(variable);
      if err.Some? {
        return;
      }
      ghost var afterTarget := consumed;
      err := AssignedValue();
      if err.Some? {
        return;
      }
      assert consumed[|old(consumed)|] == old(curToken);
      assert old(consumed) < consumed;
      if variable !in symbols {
        symbols := symbols + {variable};
      }
      err := NlAfter(|afterTarget|, old(symbols));
    }

    /** The `= expression` part of an assignment. */
    method AssignedValue() returns (err: Option<ParseError>)
      requires Valid() && InSync()
      modifies this, lexer, emitter
      decreases Rank(), 11
      ensures err.None? ==>
        && Valid() && InSync() && old(consumed) < consumed && Rank() < old(Rank()) && symbols == old(symbols)
        && !AfterNewline(consumed)
        && UsesDeclared(scheme, symbols, consumed, |old(consumed)|, |consumed|)
    {
      err := MatchSymbol(Eq);
      if err.Some? {
        return;
      }
      ghost var afterEq := consumed;
      err := Expression();
      if err.Some? {
        return;
      }
      UsesDeclaredExtend(scheme, symbols, afterEq, consumed, |old(consumed)|);
    }

    /** An operator between two terms: `与` and `或` are emitted as ` and ` and ` or `, any other is copied. */
    method ConsumeOperator() returns (err: Option<ParseError>)
      requires Valid() && InSync() && IsExpressionOperator(curToken.kind)
      modifies this, lexer, emitter
      ensures consumed == old(consumed) + [old(curToken)] && curToken == old(peekToken)
      ensures emitter.code == old(emitter.code) + (if old(curToken).kind == And then " and " else if old(curToken).kind == Or then " or " else old(curToken).text)
      ensures symbols == old(symbols)
      ensures err.None? ==> Valid() && InSync() && Rank() < old(Rank())
    {
      err := Consume(if curToken.kind == And then " and " else if curToken.kind == Or then " or " else curToken.text);
    }

    /** `expression`: terms joined by `+`, `-`, comparison operators, `与` and `或`. */
    method Expression() returns (err: Option<ParseError>)
      requires Valid() && InSync()
      modifies this, lexer, emitter
      decreases Rank(), 9
      ensures err.None? ==>
        && Valid() && InSync() && old(consumed) < consumed && Rank() < old(Rank()) && symbols == old(symbols)
        && !AfterNewline(consumed) && !IsExpressionOperator(curToken.kind)
        && consumed[|old(consumed)|] == old(curToken)
        && UsesDeclared(scheme, symbols, consumed, |old(consumed)|, |consumed|)
    {
      err := Term();
      if err.Some? {
        return;
      }
      while IsExpressionOperator(curToken.kind)
        invariant Valid() && InSync() && old(consumed) < consumed && Rank() < old(Rank()) && symbols == old(symbols)
        invariant !AfterNewline(consumed)
        invariant consumed[|old(consumed)|] == old(curToken)
        invariant UsesDeclared(scheme, symbols, consumed, |old(consumed)|, |consumed|)
        decreases Rank()
      {
        err := OperatorAndTerm(|old(consumed)|);
        if err.Some? {
          return;
        }
      }
    }

    /** One round of the loop of `expression`: an operator and the term after it. */
    method OperatorAndTerm(ghost a: nat) returns (err: Option<ParseError>)
      requires Valid() && InSync() && IsExpressionOperator(curToken.kind)
      requires UsesDeclared(scheme, symbols, consumed, a, |consumed|)
      modifies this, lexer, emitter
      decreases Rank(), 8
      ensures err.None? ==>
        && Valid() && InSync() && old(consumed) < consumed && Rank() < old(Rank()) && symbols == old(symbols)
        && !AfterNewline(consumed)
        && UsesDeclared(scheme, symbols, consumed, a, |consumed|)
    {
      ghost var before := consumed;
      err := ConsumeOperator();
      if err.Some? {
        return;
      }
      UsesDeclaredExtend(scheme, symbols, before, consumed, a);
      ghost var afterOperator := consumed;
      err := Term();
      if err.Some? {
        return;
      }
      UsesDeclaredExtend(scheme, symbols, afterOperator, consumed, a);
    }

    /** `term`: unary expressions joined by `*` and `/`. */
    method Term() returns (err: Option<ParseError>)
      requires Valid() && InSync()
      modifies this, lexer, emitter
      decreases Rank(), 7
      ensures err.None? ==>
        && Valid() && InSync() && old(consumed) < consumed && Rank() < old(Rank()) && symbols == old(symbols)
        && !AfterNewline(consumed) && curToken.kind != Asterisk && curToken.kind != Slash
        && consumed[|old(consumed)|] == old(curToken)
        && UsesDeclared(scheme, symbols, consumed, |old(consumed)|, |consumed|)
    {
      err := Unary();
      if err.Some? {
        return;
      }
      while curToken.kind == Asterisk || curToken.kind == Slash
        invariant Valid() && InSync() && old(consumed) < consumed && Rank() < old(Rank()) && symbols == old(symbols)
        invariant !AfterNewline(consumed)
        invariant consumed[|old(consumed)|] == old(curToken)
        invariant UsesDeclared(scheme, symbols, consumed, |old(consumed)|, |consumed|)
        decreases Rank()
      {
        err := OperatorAndUnary(|old(consumed)|);
        if err.Some? {
          return;
        }
      }
    }

    /** One round of the loop of `term`: `*` or `/` and the unary expression after it. */
    method OperatorAndUnary(ghost a: nat) returns (err: Option<ParseError>)
      requires Valid() && InSync() && (curToken.kind == Asterisk || curToken.kind == Slash)
      requires UsesDeclared(scheme, symbols, consumed, a, |consumed|)
      modifies this, lexer, emitter
      decreases Rank(), 6
      ensures err.None? ==>
        && Valid() && InSync() && old(consumed) < consumed && Rank() < old(Rank()) && symbols == old(symbols)
        && !AfterNewline(consumed)
        && UsesDeclared(scheme, symbols, consumed, a, |consumed|)
    {
      ghost var before := consumed;
      err := Consume(curToken.text);
      if err.Some? {
        return;
      }
      UsesDeclaredExtend(scheme, symbols, before, consumed, a);
      ghost var afterOperator := consumed;
      err := Unary();
      if err.Some? {
        return;
      }
      UsesDeclaredExtend(scheme, symbols, afterOperator, consumed, a);
    }

    /** `unary`: an optional `+`, `-` or `非` (emitted as `not `) before a primary. */
    method Unary() returns (err: Option<ParseError>)
      requires Valid() && InSync()
      modifies this, lexer, emitter
      decreases Rank(), 5
      ensures err.None? ==>
        && Valid() && InSync() && old(consumed) < consumed && Rank() < old(Rank()) && symbols == old(symbols)
        && !AfterNewline(consumed)
        && consumed[|old(consumed)|] == old(curToken)
        && UsesDeclared(scheme, symbols, consumed, |old(consumed)|, |consumed|)
    {
      if curToken.kind == Plus || curToken.kind == Minus || curToken.kind == Not {
        err := ConsumeSign();
        if err.Some? {
          return;
        }
        ghost var afterSign := consumed;
        err := Primary();
        if err.Some? {
          return;
        }
        UsesDeclaredAfter(scheme, symbols, afterSign, consumed, |old(consumed)|);
      } else {
        err := Primary();
      }
    }

    /** The optional sign of `unary`: `非` is emitted as `not `, `+` and `-` as themselves. */
    method ConsumeSign() returns (err: Option<ParseError>)
      requires Valid() && InSync() && (curToken.kind == Plus || curToken.kind == Minus || curToken.kind == Not)
      modifies this, lexer, emitter
      ensures consumed == old(consumed) + [old(curToken)] && curToken == old(peekToken)
      ensures emitter.code == old(emitter.code) + (if old(curToken).kind == Not then "not " else old(curToken).text)
      ensures symbols == old(symbols)
      ensures err.None? ==> Valid() && InSync() && Rank() < old(Rank())
    {
      err := Consume(if curToken.kind == Not then "not " else curToken.text);
    }

    /**
     * `primary`: a number, a declared variable, or a bracketed expression. A variable
     * whose mangled name is not declared, or any other token, aborts.
     */
    method Primary() returns (err: Option<ParseError>)
      requires Valid() && InSync()
      modifies this, lexer, emitter
      decreases Rank(), 3
      ensures old(curToken).kind == Ident && Mangle(scheme, old(curToken).text) !in symbols ==>
                err == Some(UndeclaredVariable(old(curToken).text))
      ensures old(curToken).kind !in {Number, Ident, OpenBracket} ==> err == Some(UnexpectedToken(old(curToken).text))
      ensures err.None? ==>
        && Valid() && InSync() && old(consumed) < consumed && Rank() < old(Rank()) && symbols == old(symbols)
        && !AfterNewline(consumed)
        && consumed[|old(consumed)|] == old(curToken)
        && UsesDeclared(scheme, symbols, consumed, |old(consumed)|, |consumed|)
    {
      if curToken.kind == Number {
        err := Consume(curToken.text);
      } else if curToken.kind == Ident {
        var variable := Mangle(scheme, curToken.text);
        if variable !in symbols {
          return Some(UndeclaredVariable(curToken.text));
        }
        err := Consume(variable);
      } else if curToken.kind == OpenBracket {
        err := Bracketed();
      } else {
        err := Some(UnexpectedToken(curToken.text));
      }
    }

    /** The bracketed case of `primary`: `(`, an expression, `)`. */
    method Bracketed() returns (err: Option<ParseError>)
      requires Valid() && InSync() && curToken.kind == OpenBracket
      modifies this, lexer, emitter
      decreases Rank(), 1
      ensures err.None? ==>
        && Valid() && InSync() && old(consumed) < consumed && Rank() < old(Rank()) && symbols == old(symbols)
        && !AfterNewline(consumed)
        && consumed[|old(consumed)|] == old(curToken)
        && UsesDeclared(scheme, symbols, consumed, |old(consumed)|, |consumed|)
    {
      err := MatchSymbol(OpenBracket);
      if err.Some? {
        return;
      }
      ghost var afterOpen := consumed;
      err := Expression();
      if err.Some? {
        return;
      }
      UsesDeclaredAfter(scheme, symbols, afterOpen, consumed, |old(consumed)|);
      assert old(consumed) < consumed;
      err := CloseBracketAfter(|old(consumed)|);
    }

    /**
     * `nl` at the end of a simple statement whose tokens from `a` on hold no indentation and
     * name only variables of `declared`; the newlines keep it so.
     */
    method NlAfter(ghost a: nat, ghost declared: set<string>) returns (err: Option<ParseError>)
      requires Valid() && InSync() && !AfterNewline(consumed)
      requires UsesDeclared(scheme, declared, consumed, a, |consumed|)
      modifies this, lexer, emitter
      ensures old(curToken).kind != Newline ==> err == Some(Expected(Newline, old(curToken).kind))
      ensures err.None? ==>
        && Valid() && InSync() && old(consumed) < consumed && Rank() < old(Rank()) && symbols == old(symbols)
        && AfterNewline(consumed)
        && UsesDeclared(scheme, declared, consumed, a, |consumed|)
    {
      ghost var before := consumed;
      err := Nl();
      if err.Some? {
        return;
      }
      NewlinesUseNothing(scheme, declared, consumed, |before|);
      UsesDeclaredExtend(scheme, declared, before, consumed, a);
    }

    /** The `)` that closes a bracket opened at or after `a`; it is not an indentation or a name. */
    method CloseBracketAfter(ghost a: nat) returns (err: Option<ParseError>)
      requires Valid() && InSync()
      requires UsesDeclared(scheme, symbols, consumed, a, |consumed|)
      modifies this, lexer, emitter
      ensures old(curToken).kind != CloseBracket ==> err == Some(Expected(CloseBracket, old(curToken).kind))
      ensures err.None? ==>
        && Valid() && InSync() && old(consumed) < consumed && Rank() < old(Rank()) && symbols == old(symbols)
        && consumed == old(consumed) + [old(curToken)] && old(curToken).kind == CloseBracket
        && UsesDeclared(scheme, symbols, consumed, a, |consumed|)
    {
      ghost var before := consumed;
      err := MatchSymbol(CloseBracket);
      if err.Some? {
        return;
      }
      UsesDeclaredExtend(scheme, symbols, before, consumed, a);
    }

    /** `nl`: one or more newlines, emitted as exactly one line break. */
    method Nl() returns (err: Option<ParseError>)
      requires Valid() && InSync() && !AfterNewline(consumed)
      modifies this, lexer, emitter
      ensures old(curToken).kind != Newline ==> err == Some(Expected(Newline, old(curToken).kind))
      ensures err.None? ==>
        && Valid() && InSync() && old(consumed) < consumed && Rank() < old(Rank()) && symbols == old(symbols)
        && (forall i :: |old(consumed)| <= i < |consumed| ==> consumed[i].kind == Newline)
        && emitter.code == old(emitter.code) + "\n"
        && curToken.kind != Newline
    {
      RenderedSnoc(scheme, consumed, curToken);
      err := Match(Newline);
      if err.Some? {
        return;
      }
      emitter.EmitLine("");
      assert consumed[|old(consumed)|].kind == Newline;
      err := SkipNewlines();
    }

    /** The loop of `nl`: the further newlines of the run, which emit nothing. */
    method SkipNewlines() returns (err: Option<ParseError>)
      requires Valid() && InSync() && AfterNewline(consumed)
      modifies this, lexer, emitter
      ensures err.None? ==>
        && Valid() && InSync() && old(consumed) <= consumed && Rank() <= old(Rank()) && symbols == old(symbols)
        && (forall i :: |old(consumed)| <= i < |consumed| ==> consumed[i].kind == Newline)
        && emitter.code == old(emitter.code) && curToken.kind != Newline
    {
      err := None;
      while curToken.kind == Newline
        invariant Valid() && InSync() && AfterNewline(consumed)
        invariant old(consumed) <= consumed && Rank() <= old(Rank()) && symbols == old(symbols)
        invariant forall i :: |old(consumed)| <= i < |consumed| ==> consumed[i].kind == Newline
        invariant emitter.code == old(emitter.code)
        decreases Rank()
      {
        err := Consume("");
        if err.Some? {
          return;
        }
      }
    }
  }
}
