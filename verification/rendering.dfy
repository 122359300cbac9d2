/**
 * The Python text the parser of src/parse.py writes, stated token by token: each token
 * it consumes contributes a fixed piece of output, and a run of newlines becomes one
 * line break. The parser is proved to keep the emitter's code equal to `Rendered` of the
 * tokens consumed so far (see `Parsing.Parser.InSync`).
 */
module Rendering {
  import opened Tokens
  import opened Naming

  /** `" " * n`. */
  function Spaces(n: nat): (r: string)
    ensures |r| == n
    ensures forall i :: 0 <= i < n ==> r[i] == ' '
  {
    if n == 0 then "" else Spaces(n - 1) + " "
  }

  /** Whether the token just before lies at the start of the text or is a newline. */
  predicate AfterNewline(ts: seq<Token>)
  {
    |ts| == 0 || ts[|ts| - 1].kind == Newline
  }

  /**
   * The output for one consumed token: keywords become their Python spelling, `与`, `或`
   * and `非` become ` and `, ` or ` and `not `, identifiers their mangled name, strings
   * are quoted again, indentation is as many spaces as the source had, a newline ends the
   * line unless it follows another newline, and any other token is copied.
   */
  function Out(scheme: NameScheme, afterNewline: bool, t: Token): string
  {
    match t.kind
    case Newline => if afterNewline then "" else "\n"
    case Space => Spaces(t.count)
    case Print => "print"
    case If => "if "
    case Elif => "elif "
    case Else => "else"
    case While => "while "
    case Break => "break"
    case Continue => "continue"
    case And => " and "
    case Or => " or "
    case Not => "not "
    case Ident => Mangle(scheme, t.text)
    case String => "\"" + t.text + "\""
    case Eof => ""
    case _ => t.text
  }

  /** The output for a sequence of consumed tokens. */
  function Rendered(scheme: NameScheme, ts: seq<Token>): string
    decreases |ts|
  {
    if ts == [] then ""
    else
      var init := ts[..|ts| - 1];
      Rendered(scheme, init) + Out(scheme, AfterNewline(init), ts[|ts| - 1])
  }

  /** Consuming one more token appends its output. */
  lemma RenderedSnoc(scheme: NameScheme, ts: seq<Token>, t: Token)
    ensures Rendered(scheme, ts + [t]) == Rendered(scheme, ts) + Out(scheme, AfterNewline(ts), t)
  {
    assert (ts + [t])[..|ts|] == ts;
  }

  /** Output already written is never taken back: rendering more tokens extends the text. */
  lemma {:induction false} RenderedPrefix(scheme: NameScheme, ts: seq<Token>, us: seq<Token>)
    requires ts <= us
    ensures Rendered(scheme, ts) <= Rendered(scheme, us)
    decreases |us|
  {
    if |ts| < |us| {
      var init := us[..|us| - 1];
      assert ts <= init;
      RenderedPrefix(scheme, ts, init);
    } else {
      assert ts == us;
    }
  }

  /** After a token that is not a newline, a run of `k >= 1` newlines renders as exactly one line break. */
  lemma {:induction false} NewlineRunRendersOnce(scheme: NameScheme, ts: seq<Token>, newlines: seq<Token>)
    requires !AfterNewline(ts) && |newlines| >= 1
    requires forall i :: 0 <= i < |newlines| ==> newlines[i].kind == Newline
    ensures Rendered(scheme, ts + newlines) == Rendered(scheme, ts) + "\n"
    decreases |newlines|
  {
    var last := newlines[|newlines| - 1];
    var init := newlines[..|newlines| - 1];
    assert ts + newlines == (ts + init) + [last];
    RenderedSnoc(scheme, ts + init, last);
    if init == [] {
      assert ts + init == ts;
    } else {
      NewlineRunRendersOnce(scheme, ts, init);
      assert (ts + init)[|ts + init| - 1] == init[|init| - 1];
    }
  }
}
