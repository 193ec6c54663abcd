/** The syntax tree of the earlier snapshot (ponkey/src/ponkey/ast.py):
    let and return statements, identifiers, and the program root. That
    snapshot has no expression node at all, so the slot for a statement's
    value holds an identifier or nothing, and nothing ever fills it. */
module LegacyAst {
  import opened Wrappers
  import opened Tokens

  /** `Identifier`: a token and a name, with no check on the token's kind. */
  datatype Identifier = Identifier(token: Token, value: string)

  /** `LetStatement` (`name` and `value` are filled in later by the parser)
      and `ReturnStatement`. */
  datatype Statement =
    | LetStatement(token: Token, name: Option<Identifier>, value: Option<Identifier>)
    | ReturnStatement(token: Token, returnValue: Option<Identifier>)

  /** `Program`: the root of every tree. */
  datatype Program = Program(statements: seq<Statement>)

  /** `LetStatement(token)`: raises `ValueError` unless the token's literal
      is the value of LET. The message names RETURN, as the source writes it. */
  function NewLetStatement(token: Token): (r: Result<Statement>)
    ensures r.Ok? <==> token.literal == "let"
    ensures r.Ok? ==> r.value == LetStatement(token, None, None)
    ensures r.Err? ==> r.error == "token.literal is not TokenType.RETURN let"
  {
    if token.literal != Value(LET) then Err("token.literal is not TokenType.RETURN " + Value(LET))
    else Ok(LetStatement(token, None, None))
  }

  /** `ReturnStatement(token)`: raises `ValueError` unless the token's
      literal is the value of RETURN. */
  function NewReturnStatement(token: Token): (r: Result<Statement>)
    ensures r.Ok? <==> token.literal == "return"
    ensures r.Ok? ==> r.value == ReturnStatement(token, None)
    ensures r.Err? ==> r.error == "token.literal is not TokenType.RETURN return"
  {
    if token.literal != Value(RETURN) then Err("token.literal is not TokenType.RETURN " + Value(RETURN))
    else Ok(ReturnStatement(token, None))
  }

  /** `token_literal` of an identifier. */
  function IdentifierTokenLiteral(id: Identifier): string
  {
    id.token.literal
  }

  /** `token_literal` of a statement: the literal of the token it was built from. */
  function StatementTokenLiteral(s: Statement): string
  {
    s.token.literal
  }

  /** An identifier answers its token's literal whatever the token's kind,
      and a let or return statement built by its constructor answers its
      keyword. */
  lemma TokenLiterals(t: Token, v: string)
    ensures IdentifierTokenLiteral(Identifier(t, v)) == t.literal
    ensures NewLetStatement(t).Ok? ==> StatementTokenLiteral(NewLetStatement(t).value) == "let"
    ensures NewReturnStatement(t).Ok? ==> StatementTokenLiteral(NewReturnStatement(t).value) == "return"
  {
  }

  /** `Program.token_literal`: the first statement's literal, or "" for an
      empty program. It reads as Ast.ProgramTokenLiteral does, but over this
      snapshot's own Program and Statement types, whose statements hold no
      expressions; the two snapshots share no code, and neither do their
      models. */
  function ProgramTokenLiteral(p: Program): (r: string)
    ensures p.statements == [] ==> r == ""
    ensures p.statements != [] ==> r == StatementTokenLiteral(p.statements[0])
  {
    if |p.statements| > 0 then StatementTokenLiteral(p.statements[0]) else ""
  }
}
