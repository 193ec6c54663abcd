/** The token model of the current front end (src/ponkey/token.py): the
    closed kind enumeration, whose string values double as display text in
    diagnostics, the token record, and the keyword lookup table. */
module Tokens {
  import opened Wrappers

  /** `TokenType`, a string enumeration. */
  datatype TokenKind =
    | ASSIGN
    | PLUS | MINUS | BANG | ASTERISK | SLASH | LT | GT | EQ | NEQ
    | FUNCTION | LET | TRUE | FALSE | IF | ELSE | RETURN
    | INT
    | LPAREN | RPAREN | LBRACE | RBRACE
    | SEMICOLON | COMMA
    | IDENT | EOF
    | ILLEGAL

  /** The string value of a kind, which is also what a diagnostic prints for it.
      The end-of-input kind is the only one whose value is empty. */
  function Value(k: TokenKind): (v: string)
    ensures v == "" <==> k == EOF
  {
    match k
    case ASSIGN => "="
    case PLUS => "+"
    case MINUS => "-"
    case BANG => "!"
    case ASTERISK => "*"
    case SLASH => "/"
    case LT => "<"
    case GT => ">"
    case EQ => "=="
    case NEQ => "!="
    case FUNCTION => "func"
    case LET => "let"
    case TRUE => "true"
    case FALSE => "false"
    case IF => "if"
    case ELSE => "else"
    case RETURN => "return"
    case INT => "INT"
    case LPAREN => "("
    case RPAREN => ")"
    case LBRACE => "{"
    case RBRACE => "}"
    case SEMICOLON => ";"
    case COMMA => ","
    case IDENT => "IDENT"
    case EOF => ""
    case ILLEGAL => "ILLEGAL"
  }

  /** The values diagnostics print for the kinds a parser error names most
      often: an assignment, an integer, an identifier and the end of input. */
  lemma DisplayValues()
    ensures Value(ASSIGN) == "=" && Value(INT) == "INT"
    ensures Value(IDENT) == "IDENT" && Value(EOF) == ""
  {
  }

  /** Construction of a kind from its value, `TokenType(s)`: the inverse of Value. */
  function FromValue(s: string): (r: Option<TokenKind>)
  {
    if s == "=" then Some(ASSIGN)
    else if s == "+" then Some(PLUS)
    else if s == "-" then Some(MINUS)
    else if s == "!" then Some(BANG)
    else if s == "*" then Some(ASTERISK)
    else if s == "/" then Some(SLASH)
    else if s == "<" then Some(LT)
    else if s == ">" then Some(GT)
    else if s == "==" then Some(EQ)
    else if s == "!=" then Some(NEQ)
    else if s == "func" then Some(FUNCTION)
    else if s == "let" then Some(LET)
    else if s == "true" then Some(TRUE)
    else if s == "false" then Some(FALSE)
    else if s == "if" then Some(IF)
    else if s == "else" then Some(ELSE)
    else if s == "return" then Some(RETURN)
    else if s == "INT" then Some(INT)
    else if s == "(" then Some(LPAREN)
    else if s == ")" then Some(RPAREN)
    else if s == "{" then Some(LBRACE)
    else if s == "}" then Some(RBRACE)
    else if s == ";" then Some(SEMICOLON)
    else if s == "," then Some(COMMA)
    else if s == "IDENT" then Some(IDENT)
    else if s == "" then Some(EOF)
    else if s == "ILLEGAL" then Some(ILLEGAL)
    else None
  }

  /** Every kind is recovered from its value. */
  lemma FromValueInvertsValue(k: TokenKind)
    ensures FromValue(Value(k)) == Some(k)
  {
  }

  /** The values are pairwise distinct: a value determines its kind. */
  lemma ValueInjective(a: TokenKind, b: TokenKind)
    requires Value(a) == Value(b)
    ensures a == b
  {
    FromValueInvertsValue(a);
    FromValueInvertsValue(b);
  }

  /** `Token`: a kind and the literal text it was read from. Equality of two
      tokens is the datatype's structural equality: same kind, same literal. */
  datatype Token = Token(kind: TokenKind, literal: string)

  /** The seven reserved words. */
  predicate IsKeyword(k: TokenKind)
  {
    k in {FUNCTION, LET, TRUE, FALSE, IF, ELSE, RETURN}
  }

  /** `PreservedKeywords`: each reserved word with its kind, in the
      dictionary's order. */
  const PreservedKeywords: seq<(string, TokenKind)> :=
    [("func", FUNCTION), ("let", LET), ("true", TRUE), ("false", FALSE),
     ("if", IF), ("else", ELSE), ("return", RETURN)]

  /** `dict.get(literal, TokenType.IDENT)` on a table of entries: the kind
      of the first entry for `literal`, IDENT when there is none. */
  function GetOrIdent(entries: seq<(string, TokenKind)>, literal: string): TokenKind
    decreases |entries|
  {
    if entries == [] then IDENT
    else if entries[0].0 == literal then entries[0].1
    else GetOrIdent(entries[1..], literal)
  }

  /** In a table without IDENT entries, the lookup answers IDENT exactly
      when no entry has the word, and otherwise answers an entry's kind. */
  lemma {:induction false} GetOrIdentFinds(entries: seq<(string, TokenKind)>, literal: string)
    requires forall i | 0 <= i < |entries| :: entries[i].1 != IDENT
    ensures GetOrIdent(entries, literal) != IDENT <==>
              exists i | 0 <= i < |entries| :: entries[i].0 == literal
    ensures GetOrIdent(entries, literal) != IDENT ==>
              exists i | 0 <= i < |entries| :: entries[i] == (literal, GetOrIdent(entries, literal))
    decreases |entries|
  {
    if entries != [] && entries[0].0 != literal {
      GetOrIdentFinds(entries[1..], literal);
      if exists i | 0 <= i < |entries| :: entries[i].0 == literal {
        var i :| 0 <= i < |entries| && entries[i].0 == literal;
        assert entries[1..][i - 1].0 == literal;
      }
      if GetOrIdent(entries, literal) != IDENT {
        var i :| 0 <= i < |entries[1..]| && entries[1..][i] == (literal, GetOrIdent(entries, literal));
        assert entries[i + 1] == entries[1..][i];
      }
    }
  }

  /** `Token.lookup_table`: the keyword kind of a reserved word, IDENT for anything else. */
  function LookupTable(literal: string): (k: TokenKind)
    ensures k == IDENT || IsKeyword(k)
  {
    GetOrIdent(PreservedKeywords, literal)
  }

  /** The table answers a keyword exactly for the reserved words of
      `PreservedKeywords`, and the keyword's value is the word itself. */
  lemma LookupTableKeywords(literal: string)
    ensures LookupTable(literal) != IDENT <==>
              exists i | 0 <= i < |PreservedKeywords| :: PreservedKeywords[i].0 == literal
    ensures LookupTable(literal) != IDENT ==> Value(LookupTable(literal)) == literal
  {
    PreservedKeywordsSpellings();
    GetOrIdentFinds(PreservedKeywords, literal);
  }

  /** Each entry of the table is a keyword kind under its own value. */
  lemma PreservedKeywordsSpellings()
    ensures forall i | 0 <= i < |PreservedKeywords| ::
              IsKeyword(PreservedKeywords[i].1) && Value(PreservedKeywords[i].1) == PreservedKeywords[i].0
  {
    var t := PreservedKeywords;
    assert t[0] == ("func", FUNCTION) && t[1] == ("let", LET) && t[2] == ("true", TRUE);
    assert t[3] == ("false", FALSE) && t[4] == ("if", IF) && t[5] == ("else", ELSE) && t[6] == ("return", RETURN);
  }

  /** Every keyword kind is what the table gives for its own value. */
  lemma KeywordValueLooksUpToItself(k: TokenKind)
    requires IsKeyword(k)
    ensures LookupTable(Value(k)) == k
  {
  }
}
