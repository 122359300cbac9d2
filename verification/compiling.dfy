/**
 * `compile` of src/compiler.py without its file handling: the input's lines go through
 * the blank-line filter, then a lexer, an emitter and a parser are set up over the
 * filtered text, the program is parsed, and `writeFile` produces the output text.
 */
module Compiling {
  import opened Results
  import opened Chars
  import opened Tokens
  import opened Lexing
  import opened Emitting
  import opened Naming
  import opened Rendering
  import opened Parsing
  import LexerProperties

  /** Python's `line.isspace()`: a non-empty line made of whitespace characters only. */
  predicate IsBlankLine(line: string)
  {
    |line| > 0 && forall i :: 0 <= i < |line| ==> IsPythonSpace(line[i])
  }

  /** The lines that are not blank, joined in order. */
  function KeptText(lines: seq<string>): string
  {
    if lines == [] then ""
    else
      var last := lines[|lines| - 1];
      KeptText(lines[..|lines| - 1]) + (if IsBlankLine(last) then "" else last)
  }

  /** The filtering loop of `compile`: appends every line that is not blank. */
  method RemoveBlankLines(lines: seq<string>) returns (source: string)
    ensures source == KeptText(lines)
  {
    source := "";
    for i := 0 to |lines|
      invariant source == KeptText(lines[..i])
    {
      assert lines[..i + 1][..i] == lines[..i];
      if !IsBlankLine(lines[i]) {
        source := source + lines[i];
      }
    }
    assert lines[..|lines|] == lines;
  }

  /** Filtering distributes over joining two runs of lines. */
  lemma {:induction false} KeptTextAppend(xs: seq<string>, ys: seq<string>)
    ensures KeptText(xs + ys) == KeptText(xs) + KeptText(ys)
    decreases |ys|
  {
    if ys == [] {
      assert xs + ys == xs;
    } else {
      var init := ys[..|ys| - 1];
      assert (xs + ys)[..|xs + ys| - 1] == xs + init;
      KeptTextAppend(xs, init);
    }
  }

  /** A blank line anywhere in the input makes no difference to the filtered text. */
  lemma BlankLineDropped(xs: seq<string>, line: string, ys: seq<string>)
    requires IsBlankLine(line)
    ensures KeptText(xs + [line] + ys) == KeptText(xs + ys)
  {
    KeptTextAppend(xs + [line], ys);
    KeptTextAppend(xs, [line]);
    KeptTextAppend(xs, ys);
    assert KeptText([line]) == "" by {
      assert [line][..0] == [];
    }
  }

  /** Any other line is kept whole, in its place. */
  lemma KeptLineStays(xs: seq<string>, line: string, ys: seq<string>)
    requires !IsBlankLine(line)
    ensures KeptText(xs + [line] + ys) == KeptText(xs) + line + KeptText(ys)
  {
    KeptTextAppend(xs + [line], ys);
    KeptTextAppend(xs, [line]);
    assert KeptText([line]) == line by {
      assert [line][..0] == [];
    }
  }

  /**
   * When the parser stops at `Eof`, the tokens it consumed are exactly the tokens
   * `Tokenize` gives for the whole source.
   */
  lemma ParsedTokensAreTokenized(s: string, ts: seq<Token>, eof: Token, peek: Token, pos: nat)
    requires WellFormedSource(s)
    requires LexedPrefix(s, ts + [eof, peek], pos)
    requires eof.kind == Eof && forall i :: 0 <= i < |ts| ==> ts[i].kind != Eof
    ensures Tokenize(s, 0) == Ok(ts)
  {
    var k := |ts| + 1;
    assert LexN(s, 0, k + 1) == Ok(Lexed(ts + [eof, peek], pos));
    assert LexN(s, 0, k).Ok?;
    var l := LexN(s, 0, k).value;
    assert Scan(s, l.next).Ok?;
    var x := Scan(s, l.next).value;
    assert l.tokens + [x.token] == ts + [eof, peek];
    assert l.tokens == ts + [eof] by {
      assert l.tokens == (l.tokens + [x.token])[..|l.tokens|];
      LexerProperties.LexNLength(s, 0, k);
      assert (ts + [eof, peek])[..k] == ts + [eof];
    }
    LexerProperties.TokenizeFromLexN(s, 0, ts, eof, l.next);
  }

  /**
   * `compile`: a successful compilation writes exactly the rendering of the program's
   * tokens, the tokens of the filtered text with the lexer's newline appended.
   */
  method Compile(lines: seq<string>, outputPath: string, scheme: NameScheme) returns (r: Result<string, ParseError>)
    ensures var s := KeptText(lines) + "\n";
      r.Ok? ==> Tokenize(s, 0).Ok? && r.value == Rendered(scheme, Tokenize(s, 0).value)
  {
    var source := RemoveBlankLines(lines);
    var lexer := new Lexer(source);
    var emitter := new Emitter(outputPath);
    var created := Parser.Create(lexer, emitter, scheme);
    if created.Err? {
      return Err(created.error);
    }
    var parser := created.value;
    var err := parser.Program();
    if err.Some? {
      return Err(err.value);
    }
    var contents := emitter.WriteFile();
    ParsedTokensAreTokenized(lexer.source, parser.consumed, parser.curToken, parser.peekToken, lexer.curPos);
    assert emitter.code == Rendered(scheme, parser.consumed);
    r := Ok(contents);
  }
}
