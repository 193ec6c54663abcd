/** The token model of the earlier snapshot (ponkey/src/ponkey/token.py).
    Its `TokenType` has the same members with the same values as the
    current one, so the kind datatype and its values are shared with module
    Tokens; the snapshot declares its own keyword table, `TokenKeywords`. */
module LegacyTokens {
  import opened Tokens

  /** `TokenKeywords`: each reserved word with its kind, in the dictionary's
      order. */
  const TokenKeywords: seq<(string, TokenKind)> :=
    [("func", FUNCTION), ("let", LET), ("true", TRUE), ("false", FALSE),
     ("if", IF), ("else", ELSE), ("return", RETURN)]

  /** Each entry of the table is a keyword kind under its own value. */
  lemma TokenKeywordsSpellings()
    ensures forall i | 0 <= i < |TokenKeywords| ::
              IsKeyword(TokenKeywords[i].1) && Value(TokenKeywords[i].1) == TokenKeywords[i].0
  {
    var t := TokenKeywords;
    assert t[0] == ("func", FUNCTION) && t[1] == ("let", LET) && t[2] == ("true", TRUE);
    assert t[3] == ("false", FALSE) && t[4] == ("if", IF) && t[5] == ("else", ELSE) && t[6] == ("return", RETURN);
  }

  /** `Token.lookup_table`: `TokenKeywords.get(ident, TokenType.IDENT)`. */
  function LookupTable(ident: string): (k: TokenKind)
    ensures k == IDENT || IsKeyword(k)
  {
    GetOrIdent(TokenKeywords, ident)
  }

  /** The table answers a keyword exactly for the seven reserved words,
      and the keyword's value is the word itself. */
  lemma LookupTableKeywords(ident: string)
    ensures LookupTable(ident) != IDENT <==>
              exists i | 0 <= i < |TokenKeywords| :: TokenKeywords[i].0 == ident
    ensures LookupTable(ident) != IDENT ==> Value(LookupTable(ident)) == ident
  {
    TokenKeywordsSpellings();
    GetOrIdentFinds(TokenKeywords, ident);
  }

  /** Both snapshots classify every word the same way. */
  lemma LookupTableAgrees(ident: string)
    ensures LookupTable(ident) == Tokens.LookupTable(ident)
  {
    assert TokenKeywords == PreservedKeywords;
  }
}
