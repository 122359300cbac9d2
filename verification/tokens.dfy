/**
 * Tokens of the src/ pipeline: the `TokenType` enumeration, the `Token` record and
 * the two spelling tables `ChineseKeywords` and `ChineseLogicalOperators` of src/lex.py.
 */
module Tokens {
  import opened Results

  /**
   * `TokenType`. The source numbers the kinds so that keywords are 1XX, operators 2XX
   * and logical operators 3XX; here those ranges are the predicates below.
   */
  datatype TokenKind =
    | Eof | Newline | Space | Colon | OpenBracket | CloseBracket | Number | Ident | String
    // Keywords.
    | Print | If | Elif | Else | While | Break | Continue
    // Operators.
    | Eq | Plus | Minus | Asterisk | Slash | EqEq | NotEq | Lt | LtEq | Gt | GtEq
    // Logical operators.
    | And | Or | Not
  {
    /** The 1XX range that `checkIfKeyword` scans. */
    predicate IsKeyword()
    {
      Print? || If? || Elif? || Else? || While? || Break? || Continue?
    }

    /** The 3XX range that `checkIfLogicalOperator` scans. */
    predicate IsLogicalOperator()
    {
      And? || Or? || Not?
    }
  }

  /** A token: its text, its kind, and a count that is the indentation width for `Space`. */
  datatype Token = Token(text: string, kind: TokenKind, count: nat)

  /** The keyword kinds in the enumeration's declaration order. */
  const KeywordKinds: seq<TokenKind> := [Print, If, Elif, Else, While, Break, Continue]

  /** The logical-operator kinds in the enumeration's declaration order. */
  const LogicalKinds: seq<TokenKind> := [And, Or, Not]

  const ChineseKeywords: map<TokenKind, string> := map[
    Print := "印出",
    If := "如果",
    Elif := "或则",
    Else := "否则",
    While := "当",
    Break := "中断",
    Continue := "继续"
  ]

  const ChineseLogicalOperators: map<TokenKind, string> := map[
    And := "与",
    Or := "或",
    Not := "非"
  ]

  /**
   * The enumeration scan of `checkIfKeyword` and `checkIfLogicalOperator`: the first kind,
   * in order, whose spelling in `table` is `text`.
   */
  function FindSpelling(kinds: seq<TokenKind>, table: map<TokenKind, string>, text: string): (r: Option<TokenKind>)
    requires forall k :: k in kinds ==> k in table
    ensures r.Some? ==> r.value in kinds && table[r.value] == text
    ensures r.None? ==> forall k :: k in kinds ==> table[k] != text
  {
    if kinds == [] then None
    else if table[kinds[0]] == text then Some(kinds[0])
    else FindSpelling(kinds[1..], table, text)
  }

  /** `Token.checkIfKeyword`: the keyword spelled `text`, if any. */
  function CheckIfKeyword(text: string): (r: Option<TokenKind>)
    ensures r.Some? ==> r.value.IsKeyword()
  {
    FindSpelling(KeywordKinds, ChineseKeywords, text)
  }

  /** `checkIfKeyword` finds a keyword exactly when `text` is one of the Chinese keyword spellings, and then its kind. */
  lemma CheckIfKeywordFinds(text: string)
    ensures CheckIfKeyword(text).Some? <==> text in ChineseKeywords.Values
    ensures CheckIfKeyword(text).Some? ==> ChineseKeywords[CheckIfKeyword(text).value] == text
  {
  }

  /** `Token.checkIfLogicalOperator`: the logical operator spelled `text`, if any. */
  function CheckIfLogicalOperator(text: string): (r: Option<TokenKind>)
    ensures r.Some? ==> r.value.IsLogicalOperator()
  {
    FindSpelling(LogicalKinds, ChineseLogicalOperators, text)
  }

  /** `checkIfLogicalOperator` finds an operator exactly when `text` is one of the Chinese logical-operator spellings. */
  lemma CheckIfLogicalOperatorFinds(text: string)
    ensures CheckIfLogicalOperator(text).Some? <==> text in ChineseLogicalOperators.Values
    ensures CheckIfLogicalOperator(text).Some? ==> ChineseLogicalOperators[CheckIfLogicalOperator(text).value] == text
  {
  }

  /**
   * The kind `getToken` gives an identifier-shaped run: its keyword if it spells one,
   * otherwise its logical operator if it spells one, otherwise `Ident`.
   */
  function WordKind(text: string): (k: TokenKind)
    ensures k.IsKeyword() || k.IsLogicalOperator() || k == Ident
  {
    match CheckIfKeyword(text)
    case Some(keyword) => keyword
    case None =>
      match CheckIfLogicalOperator(text)
      case Some(operator) => operator
      case None => Ident
  }

  /** Keyword spellings win over logical-operator spellings, and any other word is an identifier. */
  lemma WordKindClassifies(text: string)
    ensures text in ChineseKeywords.Values ==> WordKind(text).IsKeyword() && ChineseKeywords[WordKind(text)] == text
    ensures text !in ChineseKeywords.Values && text in ChineseLogicalOperators.Values ==>
              WordKind(text).IsLogicalOperator() && ChineseLogicalOperators[WordKind(text)] == text
    ensures text !in ChineseKeywords.Values && text !in ChineseLogicalOperators.Values ==> WordKind(text) == Ident
  {
    CheckIfKeywordFinds(text);
    CheckIfLogicalOperatorFinds(text);
  }
}
