/** The Rust stub (ronkey/src/token.rs): a token enumeration and a single
    mapping from a piece of source text to its token. The enumeration
    derives `PartialEq`, which compares variants only; a Dafny datatype of
    nullary constructors has exactly that equality. */
module RonkeyToken {
  import opened Wrappers

  /** `Token`, with its variants in declaration order. */
  datatype Token =
    | ILLEGAL | EOF | IDENT | INT
    | ASSIGN | PLUS | COMMA | SEMICOLON
    | LPAREN | RPAREN | LBRACE | RBRACE
    | FUNCTION | LET

  /** The text `tokenize` maps to a variant, for the ten variants it can
      produce other than ILLEGAL; None for the rest. */
  function Spelling(t: Token): Option<string>
  {
    match t
    case ASSIGN => Some("=")
    case PLUS => Some("+")
    case FUNCTION => Some("func")
    case LET => Some("let")
    case LPAREN => Some("(")
    case RPAREN => Some(")")
    case LBRACE => Some("{")
    case RBRACE => Some("}")
    case SEMICOLON => Some(";")
    case COMMA => Some(",")
    case _ => None
  }

  /** `Token::tokenize`: the variant spelled by the whole string, or ILLEGAL.
      It never yields EOF, IDENT or INT, and whatever it recognises is
      spelled exactly by its input. */
  function Tokenize(s: string): (t: Token)
    ensures t != EOF && t != IDENT && t != INT
    ensures t != ILLEGAL ==> Spelling(t) == Some(s)
  {
    match s
    case "=" => ASSIGN
    case "+" => PLUS
    case "func" => FUNCTION
    case "let" => LET
    case "(" => LPAREN
    case ")" => RPAREN
    case "{" => LBRACE
    case "}" => RBRACE
    case ";" => SEMICOLON
    case "," => COMMA
    case _ => ILLEGAL
  }

  /** Every spelling tokenizes back to its variant, and the variants with
      no spelling are exactly ILLEGAL, EOF, IDENT and INT. */
  lemma SpellingTokenizes(t: Token)
    ensures Spelling(t).Some? ==> Tokenize(Spelling(t).value) == t
    ensures Spelling(t).None? <==> t == ILLEGAL || t == EOF || t == IDENT || t == INT
  {
  }

  /** ILLEGAL is the answer exactly for the strings that spell no variant. */
  lemma IllegalExactly(s: string)
    ensures Tokenize(s) == ILLEGAL <==> forall t: Token :: Spelling(t) != Some(s)
  {
    if Tokenize(s) == ILLEGAL {
      forall t: Token ensures Spelling(t) != Some(s) {
        SpellingTokenizes(t);
      }
    } else {
      assert Spelling(Tokenize(s)) == Some(s);
    }
  }

  /** Two strings with the same recognised variant are the same string. */
  lemma TokenizeInjective(a: string, b: string)
    requires Tokenize(a) == Tokenize(b) != ILLEGAL
    ensures a == b
  {
    assert Spelling(Tokenize(a)) == Some(a);
  }

  /** The eleven arms of the match, one by one. */
  lemma TokenizeArms()
    ensures Tokenize("=") == ASSIGN && Tokenize("+") == PLUS
    ensures Tokenize("func") == FUNCTION && Tokenize("let") == LET
    ensures Tokenize("(") == LPAREN && Tokenize(")") == RPAREN
    ensures Tokenize("{") == LBRACE && Tokenize("}") == RBRACE
    ensures Tokenize(";") == SEMICOLON && Tokenize(",") == COMMA
    ensures Tokenize("") == ILLEGAL && Tokenize("fn") == ILLEGAL && Tokenize("==") == ILLEGAL
  {
  }
}
