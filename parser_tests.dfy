/** The error-message test of the current parser (tests/test_parser.py):
    three let statements, each missing a part, parsed from the tokenizer's
    output. The lemmas below follow the tokenizer call by call and then the
    parse round by round, and the method builds the parser as the test does. */
module ParserTests {
  import opened Wrappers
  import opened Tokens
  import opened Lexing
  import opened Ast
  import opened Parsing

  /** The line break and indentation before each line of the test's program. */
  const Indent: string := "\n        "

  /** The test's program. */
  const ErrorLets: string :=
    Indent + "let x 5;" + Indent + "let = 10;" + Indent + "let 838838;" + Indent

  /** The four messages the test expects, in order. */
  const ErrorLetsMessages: seq<string> :=
    ["expected next token to be =, got INT instead",
     "expected next token to be IDENT, got = instead",
     "no prefix parse function for = found",
     "expected next token to be IDENT, got INT instead"]

  /** The expression statements the parse keeps: the operands the broken
      lets leave behind, `5`, `=`, `10` and `838838`. */
  const ErrorLetsStatements: seq<Statement> :=
    [ExpressionStatement(Some(Token(INT, "5")), Some(IntegerLiteral(Token(INT, "5"), Some(5)))),
     ExpressionStatement(Some(Token(ASSIGN, "=")), None),
     ExpressionStatement(Some(Token(INT, "10")), Some(IntegerLiteral(Token(INT, "10"), Some(10)))),
     ExpressionStatement(Some(Token(INT, "838838")), Some(IntegerLiteral(Token(INT, "838838"), Some(838838))))]

  /** Call 0 of `next_token` on ErrorLets reads the first line's `let`. */
  lemma ErrorLetsScan0()
    ensures Scan(ErrorLets, 0) == Emit(Token(LET, "let"), 12)
  {
    ScanLetters(ErrorLets, 0, 9, 12);
    assert ErrorLets[9..12] == "let";
  }

  /** Call 1 reads its name `x`. */
  lemma ErrorLetsScan1()
    ensures Scan(ErrorLets, 12) == Emit(Token(IDENT, "x"), 14)
  {
    ScanLetters(ErrorLets, 12, 13, 14);
    assert ErrorLets[13..14] == "x";
  }

  /** Call 2 reads the value `5` where the `=` belongs. */
  lemma ErrorLetsScan2()
    ensures Scan(ErrorLets, 14) == Emit(Token(INT, "5"), 16)
  {
    ScanDigits(ErrorLets, 14, 15, 16);
    assert ErrorLets[15..16] == "5";
  }

  /** Call 3 reads the first line's `;`. */
  lemma ErrorLetsScan3()
    ensures Scan(ErrorLets, 16) == Emit(Token(SEMICOLON, ";"), 17)
  {
    ScanSingle(ErrorLets, 16, 16);
  }

  /** Call 4 reads the second line's `let`. */
  lemma ErrorLetsScan4()
    ensures Scan(ErrorLets, 17) == Emit(Token(LET, "let"), 29)
  {
    ScanLetters(ErrorLets, 17, 26, 29);
    assert ErrorLets[26..29] == "let";
  }

  /** Call 5 reads the `=` where the name belongs. */
  lemma ErrorLetsScan5()
    ensures Scan(ErrorLets, 29) == Emit(Token(ASSIGN, "="), 31)
  {
    ScanAssign(ErrorLets, 29, 30);
  }

  /** Call 6 reads the value `10`. */
  lemma ErrorLetsScan6()
    ensures Scan(ErrorLets, 31) == Emit(Token(INT, "10"), 34)
  {
    ScanDigits(ErrorLets, 31, 32, 34);
    assert ErrorLets[32..34] == "10";
  }

  /** Call 7 reads the second line's `;`. */
  lemma ErrorLetsScan7()
    ensures Scan(ErrorLets, 34) == Emit(Token(SEMICOLON, ";"), 35)
  {
    ScanSingle(ErrorLets, 34, 34);
  }

  /** Call 8 reads the third line's `let`. */
  lemma ErrorLetsScan8()
    ensures Scan(ErrorLets, 35) == Emit(Token(LET, "let"), 47)
  {
    ScanLetters(ErrorLets, 35, 44, 47);
    assert ErrorLets[44..47] == "let";
  }

  /** Call 9 reads the number `838838` where the name belongs. */
  lemma ErrorLetsScan9()
    ensures Scan(ErrorLets, 47) == Emit(Token(INT, "838838"), 54)
  {
    ScanDigits(ErrorLets, 47, 48, 54);
    assert ErrorLets[48..54] == "838838";
  }

  /** Call 10 reads the third line's `;`. */
  lemma ErrorLetsScan10()
    ensures Scan(ErrorLets, 54) == Emit(Token(SEMICOLON, ";"), 55)
  {
    ScanSingle(ErrorLets, 54, 54);
  }

  /** Call 11 reads the end of the input, past the last indentation. */
  lemma ErrorLetsScan11()
    ensures Scan(ErrorLets, 55) == Emit(Token(EOF, ""), 65)
  {
    ScanEnd(ErrorLets, 55);
  }

  /** The cursor after each of the first twelve calls, from cursor 0. */
  lemma ErrorLetsCursors()
    ensures PosAfter(ErrorLets, 0, 1) == Some(12) && PosAfter(ErrorLets, 0, 2) == Some(14)
    ensures PosAfter(ErrorLets, 0, 3) == Some(16) && PosAfter(ErrorLets, 0, 4) == Some(17)
    ensures PosAfter(ErrorLets, 0, 5) == Some(29) && PosAfter(ErrorLets, 0, 6) == Some(31)
    ensures PosAfter(ErrorLets, 0, 7) == Some(34) && PosAfter(ErrorLets, 0, 8) == Some(35)
    ensures PosAfter(ErrorLets, 0, 9) == Some(47) && PosAfter(ErrorLets, 0, 10) == Some(54)
    ensures PosAfter(ErrorLets, 0, 11) == Some(55) && PosAfter(ErrorLets, 0, 12) == Some(65)
  {
    ErrorLetsScan0();
    ErrorLetsScan1();
    ErrorLetsScan2();
    ErrorLetsScan3();
    ErrorLetsScan4();
    ErrorLetsScan5();
    ErrorLetsScan6();
    ErrorLetsScan7();
    ErrorLetsScan8();
    ErrorLetsScan9();
    ErrorLetsScan10();
    ErrorLetsScan11();
  }

  /** The facts about a stream of the test's program that its parse
      depends on: the twelve tokens up to EOF, and EOF again after it. */
  predicate ErrorLetsShape(ts: seq<Token>)
  {
    && Fetch(ts, 0) == Some(Token(LET, "let")) && Fetch(ts, 1) == Some(Token(IDENT, "x"))
    && Fetch(ts, 2) == Some(Token(INT, "5")) && Fetch(ts, 3) == Some(Token(SEMICOLON, ";"))
    && Fetch(ts, 4) == Some(Token(LET, "let")) && Fetch(ts, 5) == Some(Token(ASSIGN, "="))
    && Fetch(ts, 6) == Some(Token(INT, "10")) && Fetch(ts, 7) == Some(Token(SEMICOLON, ";"))
    && Fetch(ts, 8) == Some(Token(LET, "let")) && Fetch(ts, 9) == Some(Token(INT, "838838"))
    && Fetch(ts, 10) == Some(Token(SEMICOLON, ";")) && Fetch(ts, 11) == Some(Token(EOF, ""))
    && Fetch(ts, 12) == Some(Token(EOF, ""))
  }

  /** Any sequence that holds the tokenizer's stream of the test's program
      from cursor 0 has that shape. */
  lemma ErrorLetsStream(ts: seq<Token>)
    requires IsStream(ErrorLets, 0, ts)
    ensures ErrorLetsShape(ts)
  {
    ErrorLetsCursors();
    ErrorLetsStreamFirst(ts);
    ErrorLetsStreamLast(ts);
  }

  /** The first six tokens of the stream. */
  lemma ErrorLetsStreamFirst(ts: seq<Token>)
    requires IsStream(ErrorLets, 0, ts)
    requires PosAfter(ErrorLets, 0, 1) == Some(12) && PosAfter(ErrorLets, 0, 2) == Some(14)
    requires PosAfter(ErrorLets, 0, 3) == Some(16) && PosAfter(ErrorLets, 0, 4) == Some(17)
    requires PosAfter(ErrorLets, 0, 5) == Some(29)
    ensures Fetch(ts, 0) == Some(Token(LET, "let")) && Fetch(ts, 1) == Some(Token(IDENT, "x"))
    ensures Fetch(ts, 2) == Some(Token(INT, "5")) && Fetch(ts, 3) == Some(Token(SEMICOLON, ";"))
    ensures Fetch(ts, 4) == Some(Token(LET, "let")) && Fetch(ts, 5) == Some(Token(ASSIGN, "="))
  {
    ErrorLetsScan0();
    assert TokenAt(ErrorLets, 0, 0) == Fetch(ts, 0);
    ErrorLetsScan1();
    assert TokenAt(ErrorLets, 0, 1) == Fetch(ts, 1);
    ErrorLetsScan2();
    assert TokenAt(ErrorLets, 0, 2) == Fetch(ts, 2);
    ErrorLetsScan3();
    assert TokenAt(ErrorLets, 0, 3) == Fetch(ts, 3);
    ErrorLetsScan4();
    assert TokenAt(ErrorLets, 0, 4) == Fetch(ts, 4);
    ErrorLetsScan5();
    assert TokenAt(ErrorLets, 0, 5) == Fetch(ts, 5);
  }

  /** The tokens from the seventh on: the rest of the program, then EOF twice. */
  lemma ErrorLetsStreamLast(ts: seq<Token>)
    requires IsStream(ErrorLets, 0, ts)
    requires PosAfter(ErrorLets, 0, 6) == Some(31) && PosAfter(ErrorLets, 0, 7) == Some(34)
    requires PosAfter(ErrorLets, 0, 8) == Some(35) && PosAfter(ErrorLets, 0, 9) == Some(47)
    requires PosAfter(ErrorLets, 0, 10) == Some(54) && PosAfter(ErrorLets, 0, 11) == Some(55)
    requires PosAfter(ErrorLets, 0, 12) == Some(65)
    ensures Fetch(ts, 6) == Some(Token(INT, "10")) && Fetch(ts, 7) == Some(Token(SEMICOLON, ";"))
    ensures Fetch(ts, 8) == Some(Token(LET, "let")) && Fetch(ts, 9) == Some(Token(INT, "838838"))
    ensures Fetch(ts, 10) == Some(Token(SEMICOLON, ";")) && Fetch(ts, 11) == Some(Token(EOF, ""))
    ensures Fetch(ts, 12) == Some(Token(EOF, ""))
  {
    ErrorLetsScan6();
    assert TokenAt(ErrorLets, 0, 6) == Fetch(ts, 6);
    ErrorLetsScan7();
    assert TokenAt(ErrorLets, 0, 7) == Fetch(ts, 7);
    ErrorLetsScan8();
    assert TokenAt(ErrorLets, 0, 8) == Fetch(ts, 8);
    ErrorLetsScan9();
    assert TokenAt(ErrorLets, 0, 9) == Fetch(ts, 9);
    ErrorLetsScan10();
    assert TokenAt(ErrorLets, 0, 10) == Fetch(ts, 10);
    ErrorLetsScan11();
    assert TokenAt(ErrorLets, 0, 11) == Fetch(ts, 11);
    ScanPastEnd(ErrorLets, 65);
    assert TokenAt(ErrorLets, 0, 12) == Fetch(ts, 12);
  }

  /** The messages the parse records are the ones the test expects. */
  lemma ErrorLetsMessagesSpelled()
    ensures [ExpectedMessage(ASSIGN, INT), ExpectedMessage(IDENT, ASSIGN),
             NoPrefixMessage(ASSIGN), ExpectedMessage(IDENT, INT)] == ErrorLetsMessages
  {
    assert Value(ASSIGN) == "=" && Value(INT) == "INT" && Value(IDENT) == "IDENT";
    assert ExpectedMessage(ASSIGN, INT) == ErrorLetsMessages[0];
    assert ExpectedMessage(IDENT, ASSIGN) == ErrorLetsMessages[1];
    assert NoPrefixMessage(ASSIGN) == ErrorLetsMessages[2];
    assert ExpectedMessage(IDENT, INT) == ErrorLetsMessages[3];
  }

  /** The integer operands parse to their values. */
  lemma ErrorLetsLeaves()
    ensures Leaf(Token(INT, "5")) == Some(IntegerLiteral(Token(INT, "5"), Some(5)))
    ensures Leaf(Token(INT, "10")) == Some(IntegerLiteral(Token(INT, "10"), Some(10)))
    ensures Leaf(Token(INT, "838838")) == Some(IntegerLiteral(Token(INT, "838838"), Some(838838)))
    ensures LeafErrors(Token(INT, "5")) == [] && LeafErrors(Token(INT, "10")) == []
    ensures LeafErrors(Token(INT, "838838")) == []
  {
    ParseIntDigit('5');
    ParseIntDigit('1');
    ParseIntAppendDigit("1", '0');
    assert "1" + ['0'] == "10";
    ParseIntDigit('8');
    ParseIntAppendDigit("8", '3');
    assert "8" + ['3'] == "83";
    ParseIntAppendDigit("83", '8');
    assert "83" + ['8'] == "838";
    ParseIntAppendDigit("838", '8');
    assert "838" + ['8'] == "8388";
    ParseIntAppendDigit("8388", '3');
    assert "8388" + ['3'] == "83883";
    ParseIntAppendDigit("83883", '8');
    assert "83883" + ['8'] == "838838";
  }

  /** The first line, `let x 5;`: the let lacks its `=`, so its name
      stays current and `5;` becomes an expression statement. */
  lemma ErrorLetsFirstLine(ts: seq<Token>)
    requires ErrorLetsShape(ts)
    ensures Run(ts, 0, [], []) == Run(ts, 4, ErrorLetsStatements[..1], ErrorLetsMessages[..1])
  {
    ErrorLetsMessagesSpelled();
    ErrorLetsLeaves();
    var e1 := [ExpectedMessage(ASSIGN, INT)];
    LetWithoutAssign(ts, 0);
    RoundGoesOn(ts, 0, [], [], Round(Running, None, e1, 1), 2, [], e1);
    var s1 := ExpressionStatement(Some(Token(INT, "5")), Leaf(Token(INT, "5")));
    OperandStatement(ts, 2);
    RoundGoesOn(ts, 2, [], e1, Round(Running, Some(s1), [], 3), 4, [s1], e1);
    assert [s1] == ErrorLetsStatements[..1] && e1 == ErrorLetsMessages[..1];
  }

  /** The second line, `let = 10;`: the let lacks its name, so `=` and
      then `10;` are parsed as expression statements, and `=` has no
      prefix parse function. */
  lemma ErrorLetsSecondLine(ts: seq<Token>)
    requires ErrorLetsShape(ts)
    ensures Run(ts, 4, ErrorLetsStatements[..1], ErrorLetsMessages[..1]) ==
              Run(ts, 8, ErrorLetsStatements[..3], ErrorLetsMessages[..3])
  {
    ErrorLetsMessagesSpelled();
    ErrorLetsLeaves();
    var t5 := Token(ASSIGN, "=");
    var m2 := [ExpectedMessage(IDENT, ASSIGN)];
    LetWithoutName(ts, 4);
    RoundGoesOn(ts, 4, ErrorLetsStatements[..1], ErrorLetsMessages[..1], Round(Running, None, m2, 4),
                5, ErrorLetsStatements[..1], ErrorLetsMessages[..2]);
    var s2 := ExpressionStatement(Some(t5), Leaf(t5));
    OperandAlone(ts, 5);
    RoundGoesOn(ts, 5, ErrorLetsStatements[..1], ErrorLetsMessages[..2], Round(Running, Some(s2), LeafErrors(t5), 5),
                6, ErrorLetsStatements[..2], ErrorLetsMessages[..3]);
    var s3 := ExpressionStatement(Some(Token(INT, "10")), Leaf(Token(INT, "10")));
    OperandStatement(ts, 6);
    RoundGoesOn(ts, 6, ErrorLetsStatements[..2], ErrorLetsMessages[..3], Round(Running, Some(s3), [], 7),
                8, ErrorLetsStatements[..3], ErrorLetsMessages[..3]);
  }

  /** The third line, `let 838838;`: the let lacks its name, so `838838;`
      becomes an expression statement; then EOF ends the loop. */
  lemma ErrorLetsThirdLine(ts: seq<Token>)
    requires ErrorLetsShape(ts)
    ensures Run(ts, 8, ErrorLetsStatements[..3], ErrorLetsMessages[..3]) ==
              Outcome(Running, ErrorLetsStatements, ErrorLetsMessages)
  {
    ErrorLetsMessagesSpelled();
    ErrorLetsLeaves();
    var m4 := [ExpectedMessage(IDENT, INT)];
    LetWithoutName(ts, 8);
    RoundGoesOn(ts, 8, ErrorLetsStatements[..3], ErrorLetsMessages[..3], Round(Running, None, m4, 8),
                9, ErrorLetsStatements[..3], ErrorLetsMessages);
    var s4 := ExpressionStatement(Some(Token(INT, "838838")), Leaf(Token(INT, "838838")));
    OperandStatement(ts, 9);
    RoundGoesOn(ts, 9, ErrorLetsStatements[..3], ErrorLetsMessages, Round(Running, Some(s4), [], 10),
                11, ErrorLetsStatements, ErrorLetsMessages);
  }

  /** `parse_program` on the test's program, from its first token, keeps
      the four operands as expression statements and records the four
      messages the test expects, in order; the loop ends at EOF. */
  lemma ErrorLetsParse(ts: seq<Token>)
    requires IsStream(ErrorLets, 0, ts)
    ensures ErrorLetsShape(ts) && Run(ts, 0, [], []) == Outcome(Running, ErrorLetsStatements, ErrorLetsMessages)
  {
    ErrorLetsStream(ts);
    ErrorLetsFirstLine(ts);
    ErrorLetsSecondLine(ts);
    ErrorLetsThirdLine(ts);
  }

  /** `test_error_messages`: a tokenizer and a parser on the test's
      program, then `parse_program`. The parser ends with the four errors
      the test expects and the program with the four operands. */
  method TestErrorMessages() returns (statements: seq<Statement>, errors: seq<string>)
    ensures errors == ErrorLetsMessages
    ensures statements == ErrorLetsStatements
  {
    var tokenizer := new Tokenizer(ErrorLets);
    var parser := new Parser(tokenizer);
    ErrorLetsParse(parser.ts);
    var program := parser.ParseProgram();
    return program.statements, parser.errors;
  }
}
