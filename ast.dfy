/** The syntax-tree nodes of the current front end (src/ponkey/ast.py).

    Nodes are values. Each checked node has a constructor function that
    performs the source's construction-time check and yields Err (the
    ValueError) when it fails. `token_literal` and `string` are functions;
    `string` is a Result because it raises for a let statement without a
    name and for an expression node that has no `string()` of its own. */
module Ast {
  import opened Wrappers
  import opened Tokens

  datatype Identifier = Identifier(token: Token, value: string)

  /** The expression nodes. ast.py defines no PrefixExpression, although
      the parser and its tests import one; the constructor here is the node
      the parser evidently means, with the fields it sets (token, operator,
      operand). No `string()` is written for it. */
  datatype Expression =
    | IdentifierExpr(id: Identifier)
    | IntegerLiteral(token: Token, value: Option<int>)
    | PrefixExpression(token: Token, operator: string, right: Option<Expression>)

  datatype Statement =
    | LetStatement(token: Token, name: Option<Identifier>, value: Option<Expression>)
    | ReturnStatement(token: Token, returnValue: Option<Expression>)
    | ExpressionStatement(firstToken: Option<Token>, expression: Option<Expression>)

  datatype Program = Program(statements: seq<Statement>)

  /** `Identifier(token, value)`: the token must be an IDENT. */
  function NewIdentifier(token: Token, value: string): (r: Result<Identifier>)
    ensures r.Ok? <==> token.kind == IDENT
    ensures r.Ok? ==> r.value.token == token && r.value.value == value
  {
    if token.kind != IDENT then Err("token.type is not TokenType.IDENT IDENT")
    else Ok(Identifier(token, value))
  }

  /** `IntegerLiteral(token, value)`: the token must be an INT. */
  function NewIntegerLiteral(token: Token, value: Option<int>): (r: Result<Expression>)
    ensures r.Ok? <==> token.kind == INT
    ensures r.Ok? ==> r.value == IntegerLiteral(token, value)
  {
    if token.kind != INT then Err("token.type is not TokenType.INT INT")
    else Ok(IntegerLiteral(token, value))
  }

  /** `LetStatement(token, name, value)`: the token's literal must be `let`. */
  function NewLetStatement(token: Token, name: Option<Identifier>, value: Option<Expression>): (r: Result<Statement>)
    ensures r.Ok? <==> token.literal == Value(LET)
    ensures r.Ok? ==> r.value == LetStatement(token, name, value)
  {
    if token.literal != Value(LET) then Err("token.literal is not TokenType.LET let")
    else Ok(LetStatement(token, name, value))
  }

  /** `ReturnStatement(token)`: the token's literal must be `return`; the
      value starts absent. */
  function NewReturnStatement(token: Token): (r: Result<Statement>)
    ensures r.Ok? <==> token.literal == Value(RETURN)
    ensures r.Ok? ==> r.value == ReturnStatement(token, None)
  {
    if token.literal != Value(RETURN) then Err("token.literal is not TokenType.RETURN return")
    else Ok(ReturnStatement(token, None))
  }

  /** Every node in the expression passed its constructor check. */
  predicate ExpressionChecked(e: Expression)
  {
    match e
    case IdentifierExpr(id) => id.token.kind == IDENT
    case IntegerLiteral(t, _) => t.kind == INT
    case PrefixExpression(_, _, right) => right.None? || ExpressionChecked(right.value)
  }

  /** Every node in the statement passed its constructor check. */
  predicate StatementChecked(s: Statement)
  {
    match s
    case LetStatement(t, name, value) =>
      t.literal == Value(LET) &&
      (name.Some? ==> name.value.token.kind == IDENT) &&
      (value.Some? ==> ExpressionChecked(value.value))
    case ReturnStatement(t, value) =>
      t.literal == Value(RETURN) && (value.Some? ==> ExpressionChecked(value.value))
    case ExpressionStatement(_, expression) =>
      expression.Some? ==> ExpressionChecked(expression.value)
  }

  /** `token_literal` of a statement. */
  function StatementTokenLiteral(s: Statement): string
  {
    match s
    case LetStatement(t, _, _) => t.literal
    case ReturnStatement(t, _) => t.literal
    case ExpressionStatement(t, _) => if t.None? then "" else t.value.literal
  }

  /** `Program.token_literal`: the first statement's literal, or empty. */
  function ProgramTokenLiteral(p: Program): (r: string)
    ensures p.statements == [] ==> r == ""
    ensures p.statements != [] ==> r == StatementTokenLiteral(p.statements[0])
  {
    if |p.statements| > 0 then StatementTokenLiteral(p.statements[0]) else ""
  }

  /** `string()` of an expression. */
  function ExpressionString(e: Expression): Result<string>
  {
    match e
    case IdentifierExpr(id) => Ok(id.value)
    case IntegerLiteral(t, _) => Ok(t.literal)
    case PrefixExpression(_, _, _) => Err("PrefixExpression has no string()")
  }

  /** The rendering of an optional child: absent renders as nothing. */
  function OptionalString(e: Option<Expression>): Result<string>
  {
    if e.None? then Ok("") else ExpressionString(e.value)
  }

  /** `string()` of a statement. */
  function StatementString(s: Statement): Result<string>
  {
    match s
    case LetStatement(t, name, value) =>
      if name.None? then Err("self.name is None")
      else
        var v := OptionalString(value);
        if v.Err? then Err(v.error)
        else Ok(t.literal + " " + name.value.value + " = " + v.value + ";")
    case ReturnStatement(t, value) =>
      var v := OptionalString(value);
      if v.Err? then Err(v.error) else Ok(t.literal + v.value + ";")
    case ExpressionStatement(_, expression) =>
      OptionalString(expression)
  }

  /** `Program.string`: the statements' renderings joined in order; the
      first statement that raises makes the whole rendering raise. */
  function StatementsString(ss: seq<Statement>): (r: Result<string>)
    ensures r.Ok? <==> forall i | 0 <= i < |ss| :: StatementString(ss[i]).Ok?
    ensures r.Err? ==> exists i | 0 <= i < |ss| :: StatementString(ss[i]) == Err(r.error)
  {
    if ss == [] then Ok("")
    else
      var head := StatementString(ss[0]);
      if head.Err? then head
      else
        var tail := StatementsString(ss[1..]);
        if tail.Err? then tail else Ok(head.value + tail.value)
  }

  function ProgramString(p: Program): Result<string>
  {
    StatementsString(p.statements)
  }

  /** Rendering a program made of two parts is rendering each part and
      concatenating, with the first failure winning. */
  lemma {:induction false} StatementsStringAppend(a: seq<Statement>, b: seq<Statement>)
    ensures StatementsString(a + b) ==
              if StatementsString(a).Err? then StatementsString(a)
              else if StatementsString(b).Err? then StatementsString(b)
              else Ok(StatementsString(a).value + StatementsString(b).value)
  {
    if a == [] {
      assert a + b == b;
      if StatementsString(b).Ok? {
        assert "" + StatementsString(b).value == StatementsString(b).value;
      }
    } else {
      assert (a + b)[0] == a[0];
      assert (a + b)[1..] == a[1..] + b;
      StatementsStringAppend(a[1..], b);
      var head, restA := StatementString(a[0]), StatementsString(a[1..]);
      if head.Ok? && restA.Ok? && StatementsString(b).Ok? {
        var x, y, z := head.value, restA.value, StatementsString(b).value;
        assert x + (y + z) == (x + y) + z;
      }
    }
  }

  /** A checked let statement with a name renders as
      `let <name> = <value>;`, and with `let <name> = ;` when the value is
      absent; without a name it raises. */
  lemma LetStatementString(t: Token, name: Option<Identifier>, value: Option<Expression>)
    requires NewLetStatement(t, name, value).Ok?
    ensures var s := StatementString(NewLetStatement(t, name, value).value);
            && (name.None? <==> s == Err("self.name is None"))
            && (name.Some? && value.None? ==> s == Ok("let " + name.value.value + " = ;"))
            && (name.Some? && value.Some? && ExpressionString(value.value).Ok? ==>
                  s == Ok("let " + name.value.value + " = " + ExpressionString(value.value).value + ";"))
  {
    if name.Some? {
      var n := name.value.value;
      var v := OptionalString(value);
      if v.Ok? {
        assert t.literal + " " + n + " = " + v.value + ";" == "let " + n + " = " + v.value + ";";
        if value.None? {
          assert v.value == "";
          assert "let " + n + " = " + "" + ";" == "let " + n + " = ;";
        }
      }
    }
  }

  /** A checked return statement renders as `return` directly followed by
      its value's rendering, then `;`. */
  lemma ReturnStatementString(t: Token, value: Option<Expression>)
    requires NewReturnStatement(t).Ok?
    ensures StatementString(ReturnStatement(t, value)) ==
              if value.None? then Ok("return;")
              else if ExpressionString(value.value).Err? then ExpressionString(value.value)
              else Ok("return" + ExpressionString(value.value).value + ";")
  {
    assert t.literal == "return";
    if value.None? {
      assert t.literal + "" + ";" == "return;";
    }
  }

  /** The leaf renderings: an identifier renders as its name, an integer
      literal as its token's literal whether or not its value is known, and
      an expression statement without a token or an expression as "". */
  lemma LeafRenderings(id: Identifier, t: Token, value: Option<int>)
    ensures ExpressionString(IdentifierExpr(id)) == Ok(id.value)
    ensures ExpressionString(IntegerLiteral(t, value)) == Ok(t.literal)
    ensures StatementTokenLiteral(ExpressionStatement(None, None)) == ""
    ensures StatementString(ExpressionStatement(Some(t), None)) == Ok("")
  {
  }

  /** The rendering in tests/test_ast.py. */
  lemma RenderLetMyVar()
    ensures var name := Identifier(Token(IDENT, "myVar"), "myVar");
            var value := IdentifierExpr(Identifier(Token(IDENT, "anotherVar"), "anotherVar"));
            ProgramString(Program([LetStatement(Token(LET, "let"), Some(name), Some(value))]))
              == Ok("let myVar = anotherVar;")
  {
    var name := Identifier(Token(IDENT, "myVar"), "myVar");
    var value := IdentifierExpr(Identifier(Token(IDENT, "anotherVar"), "anotherVar"));
    var stmt := LetStatement(Token(LET, "let"), Some(name), Some(value));
    LetStatementString(Token(LET, "let"), Some(name), Some(value));
    var rendered := "let " + "myVar" + " = " + "anotherVar" + ";";
    assert rendered == "let myVar = anotherVar;";
    assert StatementString(stmt) == Ok("let myVar = anotherVar;");
    assert [stmt][1..] == [];
    assert StatementsString([stmt][1..]) == Ok("");
    assert "let myVar = anotherVar;" + "" == "let myVar = anotherVar;";
  }
}
