# PyHan transpiler core in Dafny

PyHan compiles a small teaching language to Python. Its keywords are Chinese words: `印出` (print), `如果`/`或则`/`否则` (if/elif/else), `当` (while), `中断`/`继续` (break/continue), and `与`/`或`/`非` (and/or/not).

This project models the pipeline of `src/`:

- **the lexer** (`src/lex.py`): a cursor object that returns one token per `getToken` call;
- **the parser** (`src/parse.py`): indentation-sensitive recursive descent that writes Python text into the emitter as it recognises each production;
- **the emitter** (`src/emit.py`): two append-only buffers, `header` and `code`;
- **the identifier mangler** `getAlphaNumericVar` (`src/utils.py`);
- **the driver** `compile` (`src/compiler.py`), with its blank-line filter.

It also models the older prototype at the repository root. There, `lex.py` and `parse.py` form a lexer and a recognizer with a smaller grammar and no output.

| module | file | contents |
|---|---|---|
| `Results` | results.dfy | `Result` and `Option` |
| `Chars` | chars.dfy | the character classes of both lexers; `RunEnd`, the position a `while P(c): nextChar()` loop stops at |
| `Tokens` | tokens.dfy | `TokenType`, `Token`, the keyword and logical-operator tables and their lookups |
| `Lexing` | lexing.dfy | `Scan`, a function giving the result of one `getToken` call; `Tokenize`; the class `Lexer`, with its cursor fields and scanning loops, each method proved against `Scan` |
| `LexerProperties` | lexer_properties.dfy | what `Scan` promises: indentation tokens, comments, operators, string, number and word literals, unknown characters |
| `Emitting` | emitting.dfy | the class `Emitter` |
| `Naming` | naming.dfy | `getAlphaNumericVar` as `Mangle`; the pinyin conversion and the SHA-256 digest are parameters |
| `Rendering` | rendering.dfy | `Rendered`: the Python text the parser writes for a sequence of consumed tokens, token by token |
| `Parsing` | parsing.dfy | the class `Parser`, holding the live `Lexer` and `Emitter`, with one method per production |
| `Compiling` | compiling.dfy | the blank-line filter and `compile` |
| `ProtoLexing` | proto_lexing.dfy | the prototype lexer, and where it agrees with the `src/` lexer |
| `ProtoParsing` | proto_parsing.dfy | the prototype recognizer |

The parser keeps a ghost log `consumed` of the tokens it has moved past. Every production preserves two invariants:

- `Valid`: `consumed`, followed by the current and peek tokens, is exactly what that many `Scan` calls give from the start of the source.
- `InSync`: the emitter's `code` is `Rendered(consumed)`, and the header stays empty.

The productions also describe the tokens they consumed, as predicates over a range of `consumed`:

- `UsesDeclared`: no indentation token, and every identifier names a variable already in `symbols`. Expressions and the statements that hold no block satisfy it, so no variable is read before its first assignment.
- `IndentedAtLeast` and `NestedIn`: how wide the indentation tokens inside a statement are.
- `BlockAt`: a span that `parseStatementsInBlock` consumed. Its first token fixes the block's width, nothing inside is narrower, and outside a loop no statement of that width is `中断` or `继续`.

`Compiling.Compile` combines the two. When compilation succeeds, the text written is `Rendered` of `Tokenize` of the filtered program: the token stream determines the output.

An abort (`sys.exit`) is an error value: `LexError` in the lexer and `ParseError` in the parser. Each production returns `Option<ParseError>`, and every caller stops at the first error.

Points where the code's behaviour is easy to misread, and which the model follows:

- Whitespace at the very start of the input is an indentation token, as after a newline, because `peekBackward` gives `None` at position 0. A program that starts with whitespace is therefore refused with the unexpected-indentation error.
- A `SPACE` token's text is the last character of the run, and its count is the run's length.
- The adjacency guard of `nextToken` fires whenever the new current token is an arithmetic or comparison operator and the new peek token is `与`, `或` or `非`. It does not fire after `=`.
- The block of an `if`, `elif` or `else` is parsed as not inside a loop, even when the `if` itself is inside a `while`. So `中断` and `继续` there abort.
- The right-hand side of an assignment is parsed before the target joins `symbols`, so `x = x + 1` with `x` undeclared aborts.

The prototype never accepts a program that has no NUL character. After its `EOF` token, the parser's lookahead always asks the lexer for one more token, and the prototype's `peekBackward` has no upper bound, so that call indexes past the end of the source (`ProtoLexing.EofOnlyAtEnd`, `ProtoParsing.Recognize`). In addition, a top-level prototype statement that starts with any token other than indentation, `印出`, `如果`, `当` or an identifier consumes nothing, so `program` would loop forever. The model reports that as the outcome `Diverges`.

## Model

| member | source | states |
|---|---|---|
| Tokens.FindSpelling | src/lex.py:224-238 | a kind found is in the scanned range and its table spelling is the text; when none is found, no kind in the range is spelled that way |
| Tokens.CheckIfKeyword | src/lex.py:224-230 | a kind found is a keyword (the 1XX range) |
| Tokens.CheckIfKeywordFinds | src/lex.py:224-230 | a keyword is found exactly when the text is one of the seven keyword spellings, and it is the kind spelled that way |
| Tokens.CheckIfLogicalOperator | src/lex.py:232-238 | a kind found is a logical operator (the 3XX range) |
| Tokens.CheckIfLogicalOperatorFinds | src/lex.py:232-238 | a logical operator is found exactly when the text is `与`, `或` or `非`, and it is the kind spelled that way |
| Tokens.WordKind | src/lex.py:155-162 | an identifier-shaped run is a keyword, a logical operator or `IDENT` |
| Tokens.WordKindClassifies | src/lex.py:155-162 | keyword spellings win; otherwise logical-operator spellings; any other text is `IDENT` |
| Lexing.TokenStartBounds | src/lex.py:66-69 | skipping whitespace and a comment never moves the cursor back; it stays inside the text when it starts inside; it does nothing at or past the end |
| Lexing.ScanProgress | src/lex.py:62-184 | every successful `getToken` advances the cursor; one that starts inside the text ends at most one past its last character; at or past the end, every call returns an empty-text `EOF` |
| Lexing.Lexer.constructor | src/lex.py:6-10 | the source is the input plus one `'\n'`, the cursor is at 0 and the current character is the one under it |
| Lexing.Lexer.NextChar | src/lex.py:12-20 | the cursor moves by exactly one, and the current character stays the one under the cursor, `'\0'` past the end |
| Lexing.Lexer.PeekForward | src/lex.py:22-28 | the character after the cursor, `'\0'` past the end |
| Lexing.Lexer.PeekBackward | src/lex.py:30-36 | some character exactly when the cursor is in 1..len(source), and then the one before the cursor |
| Lexing.Lexer.SkipWhitespace | src/lex.py:47-52 | the cursor ends at the end of the run of spaces, tabs and carriage returns |
| Lexing.Lexer.SkipComment | src/lex.py:54-60 | on `#` the cursor ends on the next newline; otherwise it does not move |
| Lexing.Lexer.ReadString | src/lex.py:114-126 | the result and the final cursor agree with `ScanString` (see `LexerProperties.StringLiteral`) |
| Lexing.Lexer.ReadNumber | src/lex.py:127-144 | the result and the final cursor agree with `ScanNumber` (see `LexerProperties.NumberLiteral`) |
| Lexing.Lexer.SkipDigits | src/lex.py:131-132 | the cursor ends on the last digit of the run that follows it |
| Lexing.Lexer.ReadWord | src/lex.py:145-162 | the token and the final cursor are those of `ScanWord` (see `LexerProperties.WordToken`) |
| Lexing.Lexer.SkipWordChars | src/lex.py:150-151 | the cursor ends on the last CJK or alphanumeric character of the run that follows it |
| Lexing.Lexer.ReadSpaces | src/lex.py:167-172 | the token and the final cursor are those of `ScanSpaces`: one `SPACE` token counting the run |
| Lexing.Lexer.GetToken | src/lex.py:62-184 | the token or error, and the cursor after it, are exactly `Scan` of the cursor before |
| Lexing.Lexer.ReadOperator | src/lex.py:75-113 | the result and the final cursor agree with `ScanOperator` |
| Lexing.Lexer.ReadOther | src/lex.py:114-181 | the result and the final cursor agree with `ScanOther` |
| Lexing.Lexer.ReadLiteral | src/lex.py:114-162 | the string, number and word branches agree with `ScanOther` |
| LexerProperties.ScanSpelled | src/lex.py:75-178 | every token carries the fixed text of its kind (operators, brackets, colon, newline, empty `EOF`), and its count is 1 unless it is `SPACE` |
| LexerProperties.NoSpaceTokenMidLine | src/lex.py:66-67 | when the previous character is not a newline, no `SPACE` token is produced |
| LexerProperties.IndentationToken | src/lex.py:167-172 | at a line start, a whitespace run is one `SPACE` token whose count is the run's length; the run is maximal, and the token's text is its last character |
| LexerProperties.CommentSkippedToNewline | src/lex.py:54-60 | a `#` comment yields the `NEWLINE` token that ends it, with no newline inside the comment |
| LexerProperties.ComparisonOperators | src/lex.py:83-113 | `= > < !` followed by `=` give the two-character token of kind `EQEQ`, `GTEQ`, `LTEQ` or `NOTEQ`; alone, the first three give the one-character token `EQ`, `GT` or `LT`; a bare `!` is exactly the error case, and the error names the next character |
| LexerProperties.StringLiteral | src/lex.py:114-126 | the token text is exactly what lies between the quotes, with no illegal character; it fails exactly when an illegal character comes before the closing quote |
| LexerProperties.NumberLiteral | src/lex.py:127-144 | the text is the consumed substring: digits, or digits, a dot and digits; no digit follows it; it fails exactly when the digit run is followed by a dot and a non-digit |
| LexerProperties.WordToken | src/lex.py:145-162 | the text is the maximal CJK/alphanumeric run; its kind is a keyword, a logical operator or `IDENT`, exactly as the two tables say |
| LexerProperties.UnknownCharacter | src/lex.py:179-181 | a character no rule covers gives the unknown-token error naming it |
| Emitting.Emitter.constructor | src/emit.py:5-8 | both buffers start empty |
| Emitting.Emitter.Emit | src/emit.py:10-17 | `code` gets the text appended; `header` is unchanged |
| Emitting.Emitter.EmitLine | src/emit.py:19-26 | `code` gets the text and a newline appended; `header` is unchanged |
| Emitting.Emitter.HeaderLine | src/emit.py:28-35 | `header` gets the text and a newline appended; `code` is unchanged |
| Emitting.Emitter.WriteFile | src/emit.py:37-42 | the content written is `header` followed by `code`; the emitter is not changed |
| Naming.Mangle | src/utils.py:6-25 | a name with no CJK character is returned unchanged |
| Naming.MangleEndsWithDigest | src/utils.py:17-25 | a mangled CJK name ends in `_` followed by the digest of the original name |
| Naming.MangleSeparatesNames | src/utils.py:13-25 | two different identifier texts get different Python names, given distinct digests for distinct CJK names and 64-character hex digests |
| Rendering.Spaces | src/parse.py:180 | `" " * n`: exactly n characters, all spaces |
| Rendering.NewlineRunRendersOnce | src/parse.py:413-425 | a run of one or more newline tokens after a non-newline renders as exactly one line break |
| Parsing.Parser.Create | src/parse.py:16-25 | succeeds exactly when the first two tokens scan and the second fetch passes the adjacency guard; then nothing is consumed, nothing emitted and `symbols` is empty |
| Parsing.Parser.NextToken | src/parse.py:91-101 | the lookahead shifts by one and the new peek token is the next `Scan`; a lexing error aborts; the guard aborts exactly when the new current token is an arithmetic or comparison operator and the new peek token is `与`, `或` or `非` |
| Parsing.Parser.Match | src/parse.py:45-54 | aborts with the expected and found kinds when the current token differs; on success exactly that token is consumed |
| Parsing.Parser.HasIndentationOrAbort | src/parse.py:72-89 | at width 0, aborts on a `SPACE` token and consumes nothing; at width n > 0, aborts unless the token is a `SPACE` of count n, which it consumes; each failure has its own error |
| Parsing.Parser.Program | src/parse.py:149-161 | on success the parser stands at `EOF` and `code` is the rendering of every token consumed before it |
| Parsing.Parser.Block | src/parse.py:121-135 | aborts with the indented-block error unless the first token is a `SPACE` at least `minWidth` wide; on success everything consumed is one block starting at that token (`BlockAt`): no indentation in it is narrower than that token's width, and outside a loop no statement of that width is `中断` or `继续`; it stops, after a line break and in sync, at a token that is not an indentation of the block's width; `symbols` only grew |
| Parsing.Parser.BlockRest | src/parse.py:132-133 | the statement loop: every indentation it consumes is at least the block's width, outside a loop no statement of that width is `中断` or `继续`, and it stops at a token that is not an indentation of that width |
| Parsing.Parser.BlockStatement | src/parse.py:133 | one more statement keeps both facts over everything the block has consumed so far |
| Parsing.Parser.Statement | src/parse.py:164-321 | each indentation mismatch has its own error; with the right indentation, the first token of the body owes the aborts of `BodyErrors` (`或则`/`否则`, and `中断`/`继续` outside a loop); on success the output grew by n spaces and more, in sync, ending after a line break; no indentation consumed is narrower than n, and outside a loop the statement itself is not `中断` or `继续` |
| Parsing.Parser.Indentation | src/parse.py:179-180 | each indentation mismatch has its own error; on success, at n > 0 exactly the `SPACE` token is consumed (at 0 nothing), and `code` grows by exactly n spaces |
| Parsing.Parser.StatementBody | src/parse.py:185-321 | `或则`/`否则` abort with invalid syntax, `中断`/`继续` outside a loop with their own errors; an identifier followed by `=` is an assignment: `symbols` gains exactly its mangled name, and every identifier after the target was declared before the statement; any statement other than `如果`, `当` and an assignment leaves `symbols` unchanged and uses only declared variables; on success every indentation consumed is deeper than n, except one of width n that introduces an `或则` or `否则` clause |
| Parsing.Parser.SimpleStatement | src/parse.py:184-321 | the same errors and the same assignment and declared-use facts, for the statements that hold no block |
| Parsing.Parser.LoopControl | src/parse.py:297-317 | outside a loop, `break` and `continue` abort with their own errors; otherwise the keyword and its newlines are consumed, in sync, with no identifier or indentation among them |
| Parsing.Parser.PrintStatement | src/parse.py:184-204 | a keyword not followed by `(` is an error; on success the output stays in sync and ends after a line break, `symbols` is unchanged, and every identifier printed was declared |
| Parsing.Parser.PrintArgument | src/parse.py:189-201 | a missing `(` is the error `Expected(OpenBracket, …)`; on success the argument from `(` to a closing `)` is consumed, in sync, with no line break yet and only declared identifiers |
| Parsing.Parser.PrintValue | src/parse.py:191-199 | a string literal (re-quoted by `Rendered`) or an expression is consumed, in sync, with `symbols` unchanged and only declared identifiers |
| Parsing.Parser.IfStatement | src/parse.py:206-256 | on success the chain ends where no further clause of it is ahead: unless an `else` clause was parsed (`elseAt`), no `或则` or `否则` at width n follows, and otherwise `elseAt` is the position of the `否则` keyword, after the `如果`; the output stays in sync, ending after a line break, and `symbols` only grew; it has at least one block, and every block of the chain is at least n + 1 wide and parsed as not in a loop, so holds no `中断` or `继续` at its width; every other indentation is deeper than n, except those of the `或则`/`否则` clauses |
| Parsing.Parser.OtherClauses | src/parse.py:221-256 | the `elif` clauses and then the `else` clause: the same nesting and block facts for their blocks; without an `else` clause no `或则` or `否则` at width n is left ahead, and with one `elseAt` is the position of its `否则` keyword |
| Parsing.Parser.ElifClauses | src/parse.py:221-238 | stops only when no `或则` at width n is ahead; every clause's block is at least n + 1 wide and parsed as not in a loop; every indentation is deeper than n except the clauses' own |
| Parsing.Parser.ElifClause | src/parse.py:225-238 | one clause adds exactly one such block, after the blocks before it, and keeps the nesting |
| Parsing.Parser.ElseClause | src/parse.py:240-256 | with no `否则` at width n ahead, nothing is consumed or emitted and the lookahead is unchanged; otherwise exactly one block, at least n + 1 wide and parsed as not in a loop, with the same nesting, and `elseAt` is the position of the consumed `否则` keyword |
| Parsing.Parser.ElseBranch | src/parse.py:245-256 | the `否则` keyword is consumed (after its indentation when n > 0) together with one block at least n + 1 wide parsed as not in a loop; the output stays in sync, ending after a line break, with every indentation deeper than n except the clause's own |
| Parsing.Parser.ClauseKeyword | src/parse.py:227-230 | the clause keyword is consumed, and at width n > 0 also the indentation before it; the output grows by exactly n spaces and `elif ` or `else` |
| Parsing.Parser.ConditionAndBlock | src/parse.py:212-219 | a condition, `:`, newlines and a block are consumed, in sync, ending after a line break; the block is at least n + 1 wide, comes after the condition, ends the statement and is parsed with the given loop flag |
| Parsing.Parser.ColonAndBlock | src/parse.py:214-219 | a missing `:` is the error `Expected(Colon, …)`; on success `:` is followed only by newlines up to a block at least n + 1 wide that ends what was consumed, parsed with the given loop flag; nothing is indented n or less |
| Parsing.Parser.WhileStatement | src/parse.py:258-271 | on success the loop is consumed, in sync, ending after a line break; its body is one block at least n + 1 wide parsed as a loop body, and nothing is indented n or less |
| Parsing.Parser.AssignmentStatement | src/parse.py:273-291 | on success `symbols` gains exactly the mangled target name, and every identifier after the target was declared before the statement, so `x = x + 1` with `x` undeclared cannot succeed |
| Parsing.Parser.AssignedValue | src/parse.py:280-285 | the right-hand side is consumed with `symbols` unchanged and only declared identifiers |
| Parsing.Parser.ConsumeOperator | src/parse.py:341-347 | `与` and `或` emit ` and ` and ` or `; any other operator emits its own text; exactly that token is consumed |
| Parsing.Parser.Expression | src/parse.py:324-348 | on success it consumed tokens, in sync, with no line break and no indentation, `symbols` unchanged, every identifier declared, and it stopped at a token that is not an operator of the expression level |
| Parsing.Parser.OperatorAndTerm | src/parse.py:341-348 | one operator and term keep every identifier consumed since `a` declared |
| Parsing.Parser.Term | src/parse.py:351-362 | the same as `Expression`, for `*` and `/` chains: it stops at a token that is neither `*` nor `/` |
| Parsing.Parser.OperatorAndUnary | src/parse.py:360-362 | one `*` or `/` and unary keep every identifier consumed since `a` declared |
| Parsing.Parser.Unary | src/parse.py:365-380 | the same as `Expression`, for an optional `+`, `-` or `非` before a primary |
| Parsing.Parser.ConsumeSign | src/parse.py:372-379 | `非` emits `not `; `+` and `-` emit their own text; exactly that token is consumed |
| Parsing.Parser.Primary | src/parse.py:383-410 | an undeclared identifier aborts with its text; a token that is not a number, identifier or `(` aborts; otherwise it consumed tokens, in sync, every identifier among them declared |
| Parsing.Parser.Bracketed | src/parse.py:400-407 | `( expression )` is consumed, in sync, every identifier declared |
| Parsing.Parser.CloseBracketAfter | src/parse.py:406-407 | a missing `)` is the error `Expected(CloseBracket, …)`; otherwise exactly the `)` is consumed |
| Parsing.Parser.Nl | src/parse.py:413-425 | aborts unless the token is a newline; consumes every newline in the run and emits exactly one `'\n'` |
| Parsing.Parser.NlAfter | src/parse.py:413-425 | the same error; the declared-use fact carries over the newlines |
| Parsing.Parser.SkipNewlines | src/parse.py:424-425 | consumes newline tokens until the current token is not one, emitting nothing |
| Compiling.RemoveBlankLines | src/compiler.py:17-22 | the source is `KeptText` of the lines |
| Compiling.KeptTextAppend | src/compiler.py:20-22 | filtering distributes over joining two runs of lines |
| Compiling.BlankLineDropped | src/compiler.py:20-22 | a non-empty whitespace-only line contributes nothing |
| Compiling.KeptLineStays | src/compiler.py:20-22 | any other line is kept verbatim, in place |
| Compiling.ParsedTokensAreTokenized | src/parse.py:91-101 | the tokens the parser consumed before `EOF` are exactly `Tokenize` of the source |
| Compiling.Compile | src/compiler.py:17-30 | a successful compilation writes `Rendered` of `Tokenize` of the filtered input plus `'\n'` |
| ProtoLexing.CheckIfKeyword | lex.py:184-189 | a kind found is one of the prototype's keywords, spelled as the text |
| ProtoLexing.OnlyThreeKeywords | lex.py:218-222 | only `印出`, `如果` and `当` are keywords; the other `src/` keyword spellings are identifiers here |
| ProtoLexing.TokenStartBounds | lex.py:53-56 | skipping whitespace and a comment never moves the cursor back and stays inside the text |
| ProtoLexing.ScanProgress | lex.py:52-165 | a successful `getToken` starts no further than the end of the text and advances the cursor, at most one past the text |
| ProtoLexing.EofOnlyAtEnd | lex.py:31-34 | in a NUL-free source, `EOF` is produced only at the very end, and the next call indexes past the end |
| ProtoLexing.LexNLength | lex.py:52-165 | k successive successful `getToken` calls give k tokens |
| ProtoLexing.LexNPrefix | lex.py:52-165 | when k successive calls succeed, so do the first j of them, and their tokens begin the k calls' tokens |
| ProtoLexing.FullWidthColon | lex.py:150-151 | the full-width colon is a `COLON` token |
| ProtoLexing.BracketsAreUnknown | lex.py:158-162 | `(` and `)` are unknown tokens |
| ProtoLexing.IndentationRun | lex.py:152-157 | where no spaces are skipped, an `isspace` run is one `SPACE` token counting it, maximal, with its last character as text, and it takes in every newline reached through whitespace only |
| ProtoLexing.SpaceRunTakesNewline | lex.py:152-157 | on the blank line of `"x\n \ny\n"` the indentation token is `\n`, counting both the space and the newline |
| ProtoLexing.ArithmeticOperatorsAgree | lex.py:62-69 | `+ - * /` lex as in `src/` |
| ProtoLexing.AssignOrLessAgree | lex.py:70-93 | `=`, `==`, `<` and `<=` lex as in `src/` |
| ProtoLexing.GreaterOrBangAgree | lex.py:78-100 | `>`, `>=`, `!=` and the bare `!` error lex as in `src/` |
| ProtoLexing.StringsAgree | lex.py:101-114 | string literals lex as in `src/` |
| ProtoLexing.NumbersAgree | lex.py:115-132 | number literals lex as in `src/` |
| ProtoLexing.SharedBranchesAgree | lex.py:62-132 | wherever a token starts with an operator, a quote or a digit, both lexers give the same token and cursor, or the same error |
| ProtoLexing.Lexer.Init | lex.py:6-10 | the source is the input plus one `'\n'` and the cursor is at 0 |
| ProtoLexing.Lexer.Create | lex.py:6-14 | construction fails with the indentation error exactly when the first character of the input plus `'\n'` is whitespace |
| ProtoLexing.Lexer.NextChar | lex.py:17-22 | the cursor moves by exactly one |
| ProtoLexing.Lexer.PeekForward | lex.py:25-28 | the character after the cursor, `'\0'` past the end |
| ProtoLexing.Lexer.PeekBackward | lex.py:31-34 | nothing at position 0, the previous character up to one past the text, and an index error beyond that |
| ProtoLexing.Lexer.SkipWhitespace | lex.py:41-43 | the cursor ends at the end of the run of spaces, tabs and carriage returns |
| ProtoLexing.Lexer.SkipComment | lex.py:46-49 | on `#` the cursor ends on the next newline; otherwise it does not move |
| ProtoLexing.Lexer.ReadString | lex.py:101-114 | agrees with the prototype's `ScanString` |
| ProtoLexing.Lexer.ReadNumber | lex.py:115-132 | agrees with the prototype's `ScanNumber` |
| ProtoLexing.Lexer.SkipDigits | lex.py:119-120 | the cursor ends on the last digit of the run that follows it |
| ProtoLexing.Lexer.ReadWord | lex.py:133-147 | the token and cursor are those of the prototype's `ScanWord` |
| ProtoLexing.Lexer.ReadSpaces | lex.py:152-157 | the token and cursor are those of the prototype's `ScanSpaces` |
| ProtoLexing.Lexer.GetToken | lex.py:52-165 | the token or error, and the cursor after it, are exactly the prototype's `Scan` |
| ProtoLexing.Lexer.ReadOperator | lex.py:62-100 | agrees with the prototype's `ScanOperator` |
| ProtoLexing.Lexer.ReadOther | lex.py:101-162 | agrees with the prototype's `ScanOther` |
| ProtoParsing.Parser.Init | parse.py:6-14 | holds the given lexer and first two tokens, with nothing consumed |
| ProtoParsing.Parser.Create | parse.py:6-14 | succeeds exactly when the first two tokens scan; then `curToken` is the first scanned token, `peekToken` the second, the lexer's cursor is where the second scan ended, nothing is consumed, and the invariant holds: the consumed tokens, the current one and the peeked one are what the successive `getToken` calls from the start gave |
| ProtoParsing.Parser.NextToken | parse.py:42-45 | the lookahead shifts by one, with no adjacency guard; it fails exactly on a lexing error; on success the new peek token is the next scan's and the consumed log stays the lexer's token sequence |
| ProtoParsing.ScannedPrefixExtend | parse.py:42-45 | one more successful `getToken` call extends the token sequence scanned from the start by its token |
| ProtoParsing.ScannedLog | parse.py:42-45 | every prefix of the parser's token sequence is exactly what that many `getToken` calls from the start of the source give |
| ProtoParsing.Parser.Match | parse.py:25-28 | aborts and consumes nothing when the kind differs; otherwise consumes exactly that token |
| ProtoParsing.Parser.CheckIndentation | parse.py:30-39 | passes exactly when `hasIndentation` holds, with a distinct error for each failure |
| ProtoParsing.Parser.Program | parse.py:58-67 | accepts only at `EOF`; diverges only on a statement that would consume nothing; never accepts a NUL-free source |
| ProtoParsing.Parser.Statement | parse.py:70-138 | an indentation error comes first and consumes nothing; an unrecognised first token at width 0 changes nothing; otherwise success consumes tokens, and at width n > 0 the first of them is the indentation it started on |
| ProtoParsing.Parser.PrintStatement | parse.py:81-94 | `印出` takes a string or an expression without brackets, and the statement ends with its newlines |
| ProtoParsing.Parser.IfStatement | parse.py:97-112 | on success the `:` comes after a non-empty condition that holds a comparison operator and only number, identifier and operator tokens; between the `:` and the body there are only newlines, and the body starts with an indentation deeper than n |
| ProtoParsing.Parser.WhileStatement | parse.py:115-130 | `当` is followed directly by the `:`; then only newlines up to a body that starts with an indentation deeper than n |
| ProtoParsing.Parser.ColonAndBlock | parse.py:102-112 | a missing colon aborts; on success the first token consumed is the `:`, then only newlines, then a body line whose indentation is deeper than n |
| ProtoParsing.Parser.Block | parse.py:105-112 | aborts, consuming nothing, unless the next line is strictly deeper; on success its first token consumed is the indentation it started on; stops at a line of another width |
| ProtoParsing.Parser.AssignmentStatement | parse.py:133-138 | the identifier is followed by `=`, and the statement ends with its newlines |
| ProtoParsing.Parser.Comparison | parse.py:141-155 | it consumed at least one comparison operator and only number, identifier and operator tokens, and it stops at a token that is not a comparison operator |
| ProtoParsing.Parser.ComparisonStep | parse.py:147-148 | from a comparison operator, consumes that operator first and then an expression, keeping only number, identifier and operator tokens in the condition so far |
| ProtoParsing.Parser.Expression | parse.py:158-165 | a token that cannot start an expression aborts; it stops at a token that is not `+ - * /`; it consumes only number, identifier and operator tokens, the last a number or identifier |
| ProtoParsing.Parser.AdditiveStep | parse.py:163-165 | from a `+` or `-`, consumes tokens up to a number or identifier, keeps only number, identifier and operator tokens in the condition so far, and stops at a token that is not `*` or `/` |
| ProtoParsing.Parser.Term | parse.py:168-175 | the same as `Expression`, for `*` and `/` chains |
| ProtoParsing.Parser.MultiplicativeStep | parse.py:173-175 | from a `*` or `/`, consumes tokens up to a number or identifier, keeping only number, identifier and operator tokens in the condition so far |
| ProtoParsing.Parser.Unary | parse.py:179-185 | a token that cannot start an expression aborts; it consumes only number, identifier and operator tokens, the last a number or identifier |
| ProtoParsing.Parser.Primary | parse.py:188-197 | only a number or identifier is accepted, and it is consumed; anything else aborts and consumes nothing |
| ProtoParsing.Parser.Nl | parse.py:200-207 | aborts unless the token is a newline, then consumes the whole run |
| ProtoParsing.Recognize | compiler.py:22-26 | running the prototype never accepts a NUL-free input, and rejects input that starts with whitespace with the indentation error |

## Left out

- File input and output: `compile` takes the file's lines as a sequence, and `writeFile` returns the text it would write. The empty-argument check and the `sys.exit` messages are not modelled; an abort is an error value without its message text.
- The logger calls (`parseLogger.info`, and `print` in the prototype) are observational only.
- `cli/pyhan_cli.py`, `src/lexer.py`, the tester scripts, `setup.py` and `log/` are not part of this model: argument handling, subprocesses and packaging.
- pypinyin and `hashlib.sha256` are the `pinyin` and `digest` fields of `Naming.NameScheme`. They are not defined here, so that different CJK names get different digests is an assumption of `Naming.MangleSeparatesNames`, not a proved fact.
- Python's `isalpha`, `isdigit` and `isalnum` are modelled on ASCII; `ischinese` is U+4E00..U+9FFF; the prototype's `isspace` is Python's full whitespace set.
- Parsing.Parser.Statement and the other productions do not fix the order of `emit` calls within a statement, only the final `code` buffer, which is the same. When the source aborts midway, the buffer is never written.
- Parsing.Parser.PrintStatement, IfStatement, WhileStatement and the other productions state that the output is the rendering of the tokens consumed, their error cases, and what the consumed tokens satisfy: declared identifiers, indentation depth, block spans and where `中断`/`继续` may stand. They do not restate the full sequence of tokens each production accepts: for example, that `印出` is followed by `(`, an argument, `)` and newlines in that order is not an ensures of PrintStatement, and an expression is not shown to be `term {operator term}`.
- Parsing.Parser.Statement states the indentation-width and loop-control facts about the statement it parses, but not that `symbols` changes only through assignments; that is stated per production (StatementBody, SimpleStatement, AssignmentStatement).
- Compiling.Compile and Parsing.Parser.Program state the output of a successful compilation only. Which inputs are rejected is stated by the error cases of the individual productions (Statement, StatementBody, Block, ColonAndBlock, Primary and the others), and is not lifted to a whole-program characterisation.
- The prototype parser's `symbols` set is never read or written, and is left out.
- The root `compiler.py` passes two arguments to the prototype `Parser`, which takes one, so it cannot run as written; `ProtoParsing.Recognize` runs the prototype lexer and parser directly.
- ProtoParsing.Parser.Program: an endless `program` loop is reported as the outcome `Diverges` instead of running forever.
