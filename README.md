# Ponkey front end, modelled in Dafny

Ponkey is a Python interpreter for the Monkey language, written while
following "Writing An Interpreter In Go". Its front end turns source text
into a syntax tree in three stages:

- a **tokenizer** reads characters into tokens;
- a **parser** with two tokens of lookahead builds a `Program` of let,
  return and expression statements;
- the **syntax tree** renders itself back to text.

The repository holds two Python snapshots of this front end:

- the current one, under `src/ponkey/`;
- an earlier one, under `ponkey/src/ponkey/`. Its lexer always reads `=` as
  ASSIGN, and its parser knows only let statements and records
  `UnexpectedToken` errors.

It also holds the start of a Rust port, `ronkey/src/token.rs`: a token
enumeration and one `tokenize` function.

## How the model is organised

| module | file | models |
|---|---|---|
| `Wrappers` | wrappers.dfy | `Option` and `Result`. A Python `ValueError` becomes an `Err`. |
| `Tokens` | tokens.dfy | src/ponkey/token.py |
| `Lexing` | lexing.dfy | src/ponkey/tokenizer.py |
| `Ast` | ast.dfy | src/ponkey/ast.py |
| `Parsing` | parsing.dfy | src/ponkey/parser.py |
| `LegacyTokens` | legacy_tokens.dfy | ponkey/src/ponkey/token.py |
| `LegacyLexing` | legacy_lexing.dfy | ponkey/src/ponkey/lexer.py |
| `LegacyAst` | legacy_ast.dfy | ponkey/src/ponkey/ast.py |
| `LegacyParsing` | legacy_parsing.dfy | ponkey/src/ponkey/parser.py and ponkey/src/ponkey/exception.py |
| `RonkeyToken` | ronkey_token.dfy | ronkey/src/token.rs |
| `ParserTests` | parser_tests.dfy | the error-message test of tests/test_parser.py |

Pure code is modelled by datatypes and functions: token kinds, the keyword
tables, the tree and its rendering, and Rust's `tokenize`.

Code that changes objects field by field is modelled by classes:

- the tokenizer and the lexer (classes `Lexing.Tokenizer` and `LegacyLexing.Lexer`);
- the two parsers (classes `Parsing.Parser` and `LegacyParsing.Parser`).

Each such class is proved against a specification function.

- **Lexers.** `Scan(input, pos)` says what one `next_token` call returns and
  where it leaves the cursor. `TokenAt(input, origin, n)` is the token that
  call number `n` returns.
- **Current parser.** Ghost constants name the tokenizer's whole output
  once: `ts` holds the tokens its calls return, and `ps` its cursor after
  each call. A ghost counter `fetched` says how many calls were made. Each
  parsing method is proved against a function of `ts`: `StatementRound`
  for one `parse_statement` call, and `Run` for the whole `parse_program`
  loop. Two outcomes are made explicit in the field `halted`:
  - a `ValueError` from the tokenizer propagates (`Raised`);
  - a let or return statement whose `;` never comes loops forever in the
    source, because EOF repeats (`Diverged`).
- **Earlier parser.** It is specified in full. `Run`, a function of the
  lexer's token stream, fixes the statements that `parse_program` returns,
  the errors it records and how it ends.

## Model

| member | source | states |
|---|---|---|
| Tokens.Value | src/ponkey/token.py:5-40 | The string value of every kind. EOF is the only kind whose value is empty. |
| Tokens.DisplayValues | src/ponkey/token.py:8-38 | Diagnostics print `=` for ASSIGN, `INT`, `IDENT`, and the empty string for EOF. |
| Tokens.FromValueInvertsValue | src/ponkey/token.py:5-40 | Looking up a kind by its value gives the kind back, so `TokenType(value)` round-trips. |
| Tokens.ValueInjective | src/ponkey/token.py:5-40 | No two kinds share a value. |
| Tokens.GetOrIdentFinds | src/ponkey/token.py:65 | `dict.get(literal, IDENT)` over an entry list answers a non-IDENT kind exactly when some entry has that key, and then answers the first such entry's kind. |
| Tokens.LookupTable | src/ponkey/token.py:60-65 | `lookup_table` always answers IDENT or a keyword kind. |
| Tokens.LookupTableKeywords | src/ponkey/token.py:60-76 | `lookup_table` answers a keyword exactly for the seven spellings in `PreservedKeywords`, and that keyword's value is the literal looked up. |
| Tokens.PreservedKeywordsSpellings | src/ponkey/token.py:68-76 | Every entry of `PreservedKeywords` maps a keyword's own value to that keyword. |
| Tokens.KeywordValueLooksUpToItself | src/ponkey/token.py:60-76 | The value of every keyword looks up to that keyword. |
| Lexing.WhitespaceEnd | src/ponkey/tokenizer.py:170-173 | The end of the maximal run of whitespace from a position. |
| Lexing.LetterRunEnd | src/ponkey/tokenizer.py:63-68 | The end of the maximal run of letters from a position. |
| Lexing.DigitRunEnd | src/ponkey/tokenizer.py:56-61 | The end of the maximal run of digits from a position. |
| Lexing.ScanEndOfInput | src/ponkey/tokenizer.py:130-131 | `next_token` answers EOF with an empty literal exactly when nothing but whitespace is left. The cursor then moves past the end. |
| Lexing.ScanProgress | src/ponkey/tokenizer.py:70-150 | Every token other than EOF consumes at least one character and leaves the cursor inside the input. |
| Lexing.ScanEqualsAndBang | src/ponkey/tokenizer.py:84-109 | `==` and `!=` are single two-character tokens EQ and NEQ. A lone `=` or `!` is ASSIGN or BANG. |
| Lexing.ScanIdentifier | src/ponkey/tokenizer.py:135-142 | An identifier or keyword token is the maximal letter run after the whitespace, classified by `lookup_table`. That run does not reach the end of the input. |
| Lexing.ScanNumber | src/ponkey/tokenizer.py:143-146 | An INT token is the maximal digit run after the whitespace, and that run does not reach the end of the input. |
| Lexing.ScanIllegal | src/ponkey/tokenizer.py:147-149 | Any other character is an ILLEGAL token holding just that character, and the cursor moves past it. |
| Lexing.ScanRaises | src/ponkey/tokenizer.py:152-168 | `next_token` raises exactly when the letter or digit run after the whitespace reaches the end of the input. The cursor is then at the end. |
| Lexing.ScanLiteralIsValue | src/ponkey/tokenizer.py:84-131 | Every token other than IDENT, INT and ILLEGAL carries its kind's value as its literal. |
| Lexing.EofIsSticky | src/ponkey/tokenizer.py:130-131 | Once `next_token` has answered EOF, every later call answers EOF. |
| Lexing.WhitespaceOnlyInputIsEof | src/ponkey/tokenizer.py:130-131 | On empty or whitespace-only input, every call answers EOF. |
| Lexing.TokenAtLiteral | src/ponkey/tokenizer.py:84-131 | Every token of the stream other than IDENT, INT and ILLEGAL is spelled by its kind's value. |
| Lexing.Tokenizer.constructor | src/ponkey/tokenizer.py:29-32 | The cursor starts at position 0, with the first character (if any) current. |
| Lexing.Tokenizer.PeekChar | src/ponkey/tokenizer.py:34-38 | The character after the current one, or None past the end. The cursor does not move. |
| Lexing.Tokenizer.ReadChar | src/ponkey/tokenizer.py:40-54 | Advances the cursor by one and makes the character there (or None) current. |
| Lexing.Tokenizer.IsLetter | src/ponkey/tokenizer.py:152-161 | Raises exactly when there is no current character. |
| Lexing.Tokenizer.IsNumber | src/ponkey/tokenizer.py:163-168 | Raises exactly when there is no current character. |
| Lexing.Tokenizer.ReadNumber | src/ponkey/tokenizer.py:56-61 | Consumes the maximal digit run and returns it. Raises when the run reaches the end of the input. |
| Lexing.Tokenizer.ReadIdentifier | src/ponkey/tokenizer.py:63-68 | Consumes the maximal letter run and returns it. Raises when the run reaches the end of the input. |
| Lexing.Tokenizer.SkipWhitespace | src/ponkey/tokenizer.py:170-173 | Moves the cursor to the end of the whitespace run. |
| Lexing.Tokenizer.NextToken | src/ponkey/tokenizer.py:70-150 | Returns the token `Scan` specifies and leaves the cursor where `Scan` says, or raises where `Scan` raises. |
| Ast.NewIdentifier | src/ponkey/ast.py:93-97 | The constructor succeeds exactly for an IDENT token and keeps the token and the name. |
| Ast.NewIntegerLiteral | src/ponkey/ast.py:227-231 | The constructor succeeds exactly for an INT token. |
| Ast.NewLetStatement | src/ponkey/ast.py:135-145 | The constructor succeeds exactly when the token's literal is `let`. |
| Ast.NewReturnStatement | src/ponkey/ast.py:171-177 | The constructor succeeds exactly when the token's literal is `return`. It starts without a value. |
| Ast.ProgramTokenLiteral | src/ponkey/ast.py:76-86 | The first statement's token literal, or "" for an empty program. |
| Ast.StatementsString | src/ponkey/ast.py:88-89 | `Program.string` succeeds exactly when every statement renders. When it raises, it raises with some statement's own error. |
| Ast.StatementsStringAppend | src/ponkey/ast.py:88-89 | Rendering two programs joined is the first rendering followed by the second, and the first failure wins. |
| Ast.LetStatementString | src/ponkey/ast.py:153-160 | A let statement renders as `let <name> = <value>;`, or `let <name> = ;` without a value. It raises exactly when it has no name. |
| Ast.ReturnStatementString | src/ponkey/ast.py:185-190 | A return statement renders as `return` directly followed by its value's rendering and `;`, or `return;` without a value. |
| Ast.LeafRenderings | src/ponkey/ast.py:102-240 | An identifier renders as its name. An integer literal renders as its token's literal. An empty expression statement has literal "" and renders as "". |
| Ast.RenderLetMyVar | tests/test_ast.py:6-15 | The test's program renders as `let myVar = anotherVar;`. |
| Parsing.Rank | src/ponkey/parser.py:22-31 | Priorities count 1 to 7 from LOWEST to CALL, as `IntEnum` with `auto()` numbers them. |
| Parsing.ParseInt | src/ponkey/parser.py:178-188 | `int(literal)` succeeds exactly on a non-empty string of ASCII digits, with a non-negative value. |
| Parsing.ParseIntAppendDigit | src/ponkey/parser.py:178-188 | Appending a digit multiplies the value by ten and adds the digit. |
| Parsing.ParseIntDigit | src/ponkey/parser.py:178-188 | A single digit is its own value. |
| Parsing.StreamIntegersParse | src/ponkey/parser.py:178-188 | Every INT token from the tokenizer converts, so "could not parse" is never recorded on tokenizer output. |
| Parsing.TokenizerStream | src/ponkey/parser.py:65-68 | Some sequence holds the tokenizer's whole stream: the tokens up to the first EOF, which then repeats, or up to the call that raises. |
| Parsing.RaiseIsFinal | src/ponkey/tokenizer.py:152-168 | Once a call of `next_token` has raised, no later call returns a token. |
| Parsing.StreamStep | src/ponkey/parser.py:65-68 | The call after n calls scans token n of the stream and leaves the cursor where call n+1 starts, or raises exactly where the stream has no token n. |
| Parsing.ScanPastEnd | src/ponkey/tokenizer.py:130-131 | Past the end of the input every call answers EOF and moves the cursor by one. |
| Parsing.TokenizerCursors | src/ponkey/parser.py:65-68 | The cursor after each call up to the end of the stream exists, and is past the end of the input once EOF has been returned. |
| Parsing.CursorStep | src/ponkey/parser.py:65-68 | With n tokens fetched, the next call returns token n and moves the cursor to the next recorded one, or raises exactly where the stream has no token n. |
| Parsing.StreamLiteral | src/ponkey/parser.py:123-147 | Stream tokens other than IDENT, INT and ILLEGAL are spelled by their kind's value, so a LET or RETURN token passes its statement's check. |
| Parsing.StreamEofIsSticky | src/ponkey/tokenizer.py:130-131 | Once the stream has reached EOF, every later token is EOF. |
| Parsing.SkipEnd | src/ponkey/parser.py:131-132 | The skip ends at or after its start. It goes on only from a `;` with a token after it; otherwise it diverges at EOF or stops where the tokenizer raises. |
| Parsing.SkipEndStopsAtFirst | src/ponkey/parser.py:131-132 | A skip that goes on stops at the first `;` from its start. |
| Parsing.SkipEndDivergesHeld | src/ponkey/parser.py:131-132 | The skip diverges exactly when every later token is present and none is a `;`. |
| Parsing.SkipEndDiverges | src/ponkey/parser.py:131-132 | On the tokenizer's stream the skip diverges exactly when no later call returns `;` and none raises, so the source's loop never ends. |
| Parsing.ExpressionAt | src/ponkey/parser.py:152-160 | Parsing an expression ends on an operand token at or after the start, with the token after it fetched, unless the tokenizer raises. |
| Parsing.ExpressionShape | src/ponkey/parser.py:152-160 | The tokens passed over are `!`/`-` operators and the operand is not one. The errors are the operand's. The result is None exactly for a lone operand other than IDENT and INT, and every node passes its constructor's check. |
| Parsing.StreamOperandErrors | src/ponkey/parser.py:152-188 | On the tokenizer's stream an operand records no error, except the one "no prefix parse function" error of a kind that has none. |
| Parsing.ExpressionRound | src/ponkey/parser.py:162-171 | A round that goes on ends at or after its start with the next token fetched; a round that halts gives no statement. |
| Parsing.ReturnRound | src/ponkey/parser.py:135-150 | A round that goes on ends at or after its start with the next token fetched; a round that halts gives no statement. |
| Parsing.LetRound | src/ponkey/parser.py:102-133 | A round that goes on ends at or after its start with the next token fetched; a round that halts gives no statement. |
| Parsing.LetRoundNamed | src/ponkey/parser.py:123-128 | A let that passes its check with an IDENT after it ends as the round from that name. |
| Parsing.NameRound | src/ponkey/parser.py:126-133 | A round that goes on ends at or after the name with the next token fetched; a round that halts gives no statement. |
| Parsing.StatementRound | src/ponkey/parser.py:77-100 | A round that goes on ends at or after its start with the next token fetched; a round that halts gives no statement. |
| Parsing.RoundStep | src/ponkey/parser.py:235-239 | A round that halts ends the program with the statements and errors so far and its own errors. A round whose following `next_token` raises ends it with its statement appended. |
| Parsing.RoundGoesOn | src/ponkey/parser.py:235-239 | A round that goes on leaves the rest of the parse to the run from the token after its last, with its statement and errors added. |
| Parsing.RoundShape | src/ponkey/parser.py:77-100 | A round's statement passes its constructor's checks and answers the literal of the token it started at. LET gives a let or nothing, RETURN a return statement, anything else an expression statement. |
| Parsing.StreamRoundChecks | src/ponkey/parser.py:77-150 | On the tokenizer's stream no round fails a constructor's check. |
| Parsing.RunShape | src/ponkey/parser.py:229-240 | On the tokenizer's stream `parse_program` never fails a constructor's check, and every statement it adds passes all of them. |
| Parsing.LetWithoutName | src/ponkey/parser.py:123-125 | A `let` not followed by an identifier records one "expected IDENT" error, gives no statement and leaves the `let` current. |
| Parsing.LetWithoutAssign | src/ponkey/parser.py:123-130 | A `let name` not followed by `=` records one "expected =" error, gives no statement and leaves the name current. |
| Parsing.OperandStatement | src/ponkey/parser.py:162-171 | An operand followed by `;` is an expression statement of its own, with the operand's errors, and the `;` ends the round. |
| Parsing.OperandAlone | src/ponkey/parser.py:162-171 | An operand not followed by `;` is an expression statement of its own, with the operand's errors, and ends the round itself. |
| Parsing.Parser.constructor | src/ponkey/parser.py:35-63 | The prefix table holds IDENT, INT, `!` and `-`, and the infix table is empty. There are no errors. The first two stream tokens are current and peek, unless the tokenizer raised. |
| Parsing.Parser.NextToken | src/ponkey/parser.py:65-68 | The peek token becomes current and the next stream token becomes peek; it raises exactly where the stream has no next token. Errors are unchanged. |
| Parsing.Parser.Pull | src/ponkey/parser.py:68 | The tokenizer call returns the next stream token and moves the cursor to the next recorded one, or raises exactly where the stream has no next token. |
| Parsing.Parser.InitTokens | src/ponkey/parser.py:70-75 | Fetches the first two tokens of the stream. |
| Parsing.Parser.RegisterPrefix | src/ponkey/parser.py:242-243 | Maps a kind to its prefix parse function and leaves the other entries alone. |
| Parsing.Parser.RegisterInfix | src/ponkey/parser.py:245-246 | Adds a kind to the infix table. |
| Parsing.Parser.PeekError | src/ponkey/parser.py:210-215 | Appends exactly one "expected next token to be …, got … instead" message naming the wanted kind and the peek kind. |
| Parsing.Parser.NoPrefixParserError | src/ponkey/parser.py:248-249 | Appends exactly one "no prefix parse function" message for the kind. |
| Parsing.Parser.ExpectPeek | src/ponkey/parser.py:202-208 | Advances exactly when the peek token has the wanted kind. Otherwise it records one peek error and moves nothing. |
| Parsing.Parser.AdvanceToSemicolon | src/ponkey/parser.py:131-132 | Ends exactly as `SkipEnd`: on the first `;`, or Diverged when no `;` ever comes, or Raised where the tokenizer raises. |
| Parsing.Parser.ParseLetStatement | src/ponkey/parser.py:102-133 | Statement, errors recorded, end token and halting are exactly `LetRound`'s. |
| Parsing.Parser.ParseLetName | src/ponkey/parser.py:126-133 | Statement, errors recorded, end token and halting are exactly `NameRound`'s. |
| Parsing.Parser.ParseReturnStatement | src/ponkey/parser.py:135-150 | Statement, end token and halting are exactly `ReturnRound`'s, and nothing is recorded. |
| Parsing.Parser.ParseIdentifier | src/ponkey/parser.py:173-176 | An identifier expression for the current token, built exactly when that token is IDENT. |
| Parsing.Parser.ParseIntegerLiteral | src/ponkey/parser.py:178-188 | An integer literal exactly for an INT current token. It holds `int(literal)` when that converts; otherwise it records one "could not parse" error. |
| Parsing.Parser.ParseExpression | src/ponkey/parser.py:152-160 | Ends exactly as `ExpressionAt` at the current token: `!`/`-` operators wrapped around the operand, the operand now current and its one error (if any) appended; or Raised where the tokenizer raises, with nothing recorded. |
| Parsing.Parser.InvokePrefix | src/ponkey/parser.py:156-160 | Calling the registered prefix parse function yields that same parsed expression. |
| Parsing.Parser.ParsePrefixExpression | src/ponkey/parser.py:251-258 | A prefix node whose operator is the current token's literal, with the expression after it as its right operand. |
| Parsing.Parser.ParseExpressionStatement | src/ponkey/parser.py:162-171 | An expression statement at the current token. Statement, errors recorded, end token and halting are exactly `ExpressionRound`'s. |
| Parsing.Parser.ParseStatement | src/ponkey/parser.py:77-100 | Statement, errors recorded, end token and halting are exactly `StatementRound`'s. No constructor check fails, and a statement returned is checked and answers the current token's literal. |
| Parsing.Parser.ParseProgramRound | src/ponkey/parser.py:235-239 | One loop round leaves `Run` of the rest unchanged, counting the statement appended and the errors recorded; a round that halts ends the parse as `Run` says. |
| Parsing.Parser.ParseProgram | src/ponkey/parser.py:229-240 | The statements returned, the errors recorded and how the parse ends are exactly `Run`'s from the current token. No check fails, every statement is checked, and a parse that is not halted ends at EOF. |
| LegacyTokens.TokenKeywordsSpellings | ponkey/src/ponkey/token.py:64-72 | Every entry of `TokenKeywords` maps a keyword's own value to that keyword. |
| LegacyTokens.LookupTable | ponkey/src/ponkey/token.py:58-61 | `lookup_table` always answers IDENT or a keyword kind. |
| LegacyTokens.LookupTableKeywords | ponkey/src/ponkey/token.py:58-72 | It answers a keyword exactly for the seven keyword spellings, and the keyword's value is the identifier looked up. |
| LegacyTokens.LookupTableAgrees | ponkey/src/ponkey/token.py:58-72 | The earlier table answers as the current one does on every string. |
| LegacyLexing.ScanEndOfInput | ponkey/src/ponkey/lexer.py:70-71 | EOF with an empty literal exactly when nothing but whitespace is left. |
| LegacyLexing.ScanProgress | ponkey/src/ponkey/lexer.py:51-87 | Every token other than EOF consumes at least one character. |
| LegacyLexing.ScanKeywordLiteral | ponkey/src/ponkey/lexer.py:73-79 | A keyword token carries its keyword as its literal. |
| LegacyLexing.ScanIdentifier | ponkey/src/ponkey/lexer.py:73-79 | An identifier is the maximal letter run after the whitespace, classified by `lookup_table`, even when it ends the input. |
| LegacyLexing.ScanNumber | ponkey/src/ponkey/lexer.py:80-83 | A number is the maximal digit run after the whitespace, of kind INT. |
| LegacyLexing.ScanIllegal | ponkey/src/ponkey/lexer.py:84-86 | Any other character is an ILLEGAL token holding that character. |
| LegacyLexing.ScanLetters | ponkey/src/ponkey/lexer.py:73-79 | The call that skips whitespace to a given letter run returns that run, classified, and stops after it. |
| LegacyLexing.ScanDigits | ponkey/src/ponkey/lexer.py:80-83 | The call that skips whitespace to a given digit run returns that run as INT and stops after it. |
| LegacyLexing.ScanPunctuation | ponkey/src/ponkey/lexer.py:54-69 | The call that skips whitespace to a punctuation character returns it and stops after it. |
| LegacyLexing.ScanEnd | ponkey/src/ponkey/lexer.py:70-71 | With only whitespace left, the call returns EOF. |
| LegacyLexing.EofIsSticky | ponkey/src/ponkey/lexer.py:70-71 | Once the lexer has answered EOF, it answers EOF forever. |
| LegacyLexing.DoubleEqualsIsTwoAssigns | ponkey/src/ponkey/lexer.py:54-56 | `==` lexes as two ASSIGN tokens here, where the current tokenizer reads one EQ. |
| LegacyLexing.IdentifierAtEndOfInput | ponkey/src/ponkey/lexer.py:44-49 | An identifier that ends the input is a token here, where the current tokenizer raises. |
| LegacyLexing.Lexer.constructor | ponkey/src/ponkey/lexer.py:7-11 | After `__init__` the first character (or "") is current at position 0. |
| LegacyLexing.Lexer.ToNextChar | ponkey/src/ponkey/lexer.py:13-19 | Advances by one and makes the character there, or "" past the end, current. |
| LegacyLexing.Lexer.IsLetter | ponkey/src/ponkey/lexer.py:25-32 | True exactly for one ASCII letter or `_`. |
| LegacyLexing.Lexer.IsNumber | ponkey/src/ponkey/lexer.py:34-36 | True exactly for one ASCII digit. |
| LegacyLexing.Lexer.SkipWhitespace | ponkey/src/ponkey/lexer.py:21-23 | Moves to the end of the whitespace run. |
| LegacyLexing.Lexer.ReadNumber | ponkey/src/ponkey/lexer.py:38-42 | Consumes and returns the maximal digit run. |
| LegacyLexing.Lexer.ReadIdentifier | ponkey/src/ponkey/lexer.py:44-49 | Consumes and returns the maximal letter run. |
| LegacyLexing.Lexer.NextToken | ponkey/src/ponkey/lexer.py:51-87 | Returns the token `Scan` specifies and leaves the cursor where `Scan` says. |
| LegacyAst.NewLetStatement | ponkey/src/ponkey/ast.py:60-65 | Succeeds exactly for the literal `let`. Its error message names RETURN, as the source writes it. |
| LegacyAst.NewReturnStatement | ponkey/src/ponkey/ast.py:82-88 | Succeeds exactly for the literal `return`. |
| LegacyAst.TokenLiterals | ponkey/src/ponkey/ast.py:70-71 | A statement built by its constructor answers its keyword. An identifier answers its token's literal. |
| LegacyAst.ProgramTokenLiteral | ponkey/src/ponkey/ast.py:45-49 | The first statement's literal, or "" for an empty program. |
| LegacyParsing.MessageNamesExpected | ponkey/src/ponkey/exception.py:1-7 | Two errors about the same unexpected kind print the same message exactly when they expected the same kind. |
| LegacyParsing.StepDown | ponkey/src/ponkey/lexer.py:51-87 | Each token before EOF shrinks the input left to read. |
| LegacyParsing.EventuallyEof | ponkey/src/ponkey/lexer.py:70-71 | The lexer's stream reaches EOF. |
| LegacyParsing.StreamsAgree | ponkey/src/ponkey/parser.py:35-38 | Two traces from the same cursor agree token by token. |
| LegacyParsing.LexerStream | ponkey/src/ponkey/parser.py:35-38 | The stream the parser reads exists, up to its first EOF and one token beyond. |
| LegacyParsing.LexerFetches | ponkey/src/ponkey/parser.py:35-38 | Each token of that stream is what the lexer returns from the preceding cursor. |
| LegacyParsing.FetchAt | ponkey/src/ponkey/lexer.py:51-87 | Call n of `next_token` returns token n and leaves the cursor where call n+1 starts. |
| LegacyParsing.LexerLetsSpelled | ponkey/src/ponkey/lexer.py:73-79 | Every LET token the lexer produces is spelled `let`. |
| LegacyParsing.SkipEnd | ponkey/src/ponkey/parser.py:61-62 | The skip stops on the first `;`, and never passes an EOF. |
| LegacyParsing.SkipEndStep | ponkey/src/ponkey/parser.py:61-62 | A token other than `;` and EOF is skipped. |
| LegacyParsing.SkipEndNone | ponkey/src/ponkey/parser.py:61-62 | The skip finds no `;` exactly when none ever follows in the lexer's stream, which is then an endless loop. |
| LegacyParsing.SkipEndReachesEof | ponkey/src/ponkey/parser.py:61-62 | When no `;` is found, an EOF comes first. |
| LegacyParsing.StatementRound | ponkey/src/ponkey/parser.py:40-48 | A round ends on a token at or after its start, before EOF. |
| LegacyParsing.LetRound | ponkey/src/ponkey/parser.py:50-63 | A let round ends on a token at or after the `let`, before EOF. |
| LegacyParsing.NameRound | ponkey/src/ponkey/parser.py:50-63 | The rest of a let round ends at or after the name, before EOF. |
| LegacyParsing.RoundStep | ponkey/src/ponkey/parser.py:88-101 | One round of `parse_program` adds that round's statement and errors and goes on after its last token. A round that halts ends the program. |
| LegacyParsing.RunPassesOver | ponkey/src/ponkey/parser.py:40-48 | A token other than LET and EOF is passed over with nothing returned or recorded. |
| LegacyParsing.RunPassesOverAll | ponkey/src/ponkey/parser.py:88-101 | A stretch of tokens with no LET and no EOF is passed over entirely. |
| LegacyParsing.RunLetWithoutName | ponkey/src/ponkey/parser.py:50-58 | A `let` not followed by an identifier records one "expected IDENT" error and resumes at the next token. |
| LegacyParsing.RunLetWithoutAssign | ponkey/src/ponkey/parser.py:50-60 | A `let name` not followed by `=` records one "expected ASSIGN" error and resumes after the name. |
| LegacyParsing.RunShape | ponkey/src/ponkey/parser.py:50-101 | On a stream whose LET tokens are spelled `let`: the parse never raises, every statement is a let with an IDENT name and no value, and every error expected IDENT or ASSIGN. |
| LegacyParsing.LexerProgramNeverRaises | ponkey/src/ponkey/parser.py:88-101 | On the lexer's own stream, `parse_program` never raises. |
| LegacyParsing.Parser.constructor | ponkey/src/ponkey/parser.py:10-33 | No errors; the first two stream tokens are current and peek. |
| LegacyParsing.Parser.NextToken | ponkey/src/ponkey/parser.py:35-38 | Peek becomes current, and the next stream token becomes peek. |
| LegacyParsing.Parser.PeekError | ponkey/src/ponkey/parser.py:85-86 | Appends exactly one `UnexpectedToken` of the wanted and the peek kind. |
| LegacyParsing.Parser.ExpectPeek | ponkey/src/ponkey/parser.py:77-83 | Advances exactly when the peek token has the wanted kind. Otherwise it records one `UnexpectedToken` and moves nothing. |
| LegacyParsing.Parser.SkipToSemicolon | ponkey/src/ponkey/parser.py:61-62 | Ends on the token `SkipEnd` names, or diverges exactly when `SkipEnd` finds none. |
| LegacyParsing.Parser.ParseLetStatement | ponkey/src/ponkey/parser.py:50-63 | Statement, errors, end token and halting are exactly `LetRound`'s. |
| LegacyParsing.Parser.ParseLetName | ponkey/src/ponkey/parser.py:56-63 | Statement, errors, end token and halting are exactly `NameRound`'s. |
| LegacyParsing.Parser.ParseStatement | ponkey/src/ponkey/parser.py:40-48 | Statement, errors, end token and halting are exactly `StatementRound`'s. |
| LegacyParsing.Parser.ParseRound | ponkey/src/ponkey/parser.py:92-100 | One loop round leaves `Run` of the rest unchanged, counting the statement returned and the errors recorded. |
| LegacyParsing.Parser.ParseProgram | ponkey/src/ponkey/parser.py:88-101 | The statements returned, the errors recorded and how the parse ends are exactly `Run`'s. A parse that is not halted ends at EOF. |
| LegacyParsing.MalformedLetsLexed | ponkey/tests/test_parser.py:16-20 | The lexer's first twelve calls on the test's program return `let x 5 ; let = 10 ; let 838838 ;` and EOF, at the cursors listed. |
| LegacyParsing.MalformedLetsStream | ponkey/tests/test_parser.py:16-20 | Any stream of that program matches those tokens up to its EOF. |
| LegacyParsing.MalformedLetsParse | ponkey/tests/test_parser.py:15-41 | The test's program parses to no statements and three errors: expected ASSIGN got INT, expected IDENT got ASSIGN, expected IDENT got INT. So `check_parser_errors` fails the test. |
| RonkeyToken.Tokenize | ronkey/src/token.rs:20-34 | `tokenize` never gives EOF, IDENT or INT. Whatever else it recognises is spelled exactly by its input. |
| RonkeyToken.SpellingTokenizes | ronkey/src/token.rs:20-34 | Every spelling tokenizes back to its variant. The variants without a spelling are exactly ILLEGAL, EOF, IDENT and INT. |
| RonkeyToken.IllegalExactly | ronkey/src/token.rs:32 | ILLEGAL is the answer exactly for strings that spell no variant. |
| RonkeyToken.TokenizeInjective | ronkey/src/token.rs:20-34 | Two strings that give the same recognised variant are equal. |
| RonkeyToken.TokenizeArms | ronkey/src/token.rs:22-32 | The eleven arms of the match, one by one, plus three strings that fall to ILLEGAL. |
| ParserTests.ErrorLetsStream | tests/test_parser.py:44-48 | Any sequence holding the tokenizer's stream of the test's program is `let x 5 ; let = 10 ; let 838838 ;` and then EOF, repeated. |
| ParserTests.ErrorLetsMessagesSpelled | tests/test_parser.py:49-55 | The parser's messages for the three malformed lets spell exactly the four lines the test expects. |
| ParserTests.ErrorLetsLeaves | tests/test_parser.py:44-48 | The integer operands left behind parse to 5, 10 and 838838 and record no error. |
| ParserTests.ErrorLetsFirstLine | tests/test_parser.py:45 | `let x 5;` records "expected =, got INT" and keeps the statement `5`. |
| ParserTests.ErrorLetsSecondLine | tests/test_parser.py:46 | `let = 10;` records "expected IDENT, got =", then "no prefix parse function for =", and keeps the statements `=` (empty) and `10`. |
| ParserTests.ErrorLetsThirdLine | tests/test_parser.py:47 | `let 838838;` records "expected IDENT, got INT", keeps the statement `838838`, and the parse ends at EOF. |
| ParserTests.ErrorLetsParse | tests/test_parser.py:43-66 | `parse_program` on the test's program ends normally with exactly the four errors of the test, in order, and four expression statements. |
| ParserTests.TestErrorMessages | tests/test_parser.py:57-66 | A tokenizer and a parser on the test's program, as the test builds them: `parse_program` records exactly the four expected messages. |

## Left out

- The REPLs (`src/ponkey/repl.py`, `ponkey/src/ponkey/repl.py`), `src/ponkey/main.py` and `ronkey/src/main.rs` read and print on a terminal, so they are not modelled.
- The abstract base classes (`Node`, `Statement`, `Expression`) and their `statement_node` / `expression_node` markers only raise `NotImplementedError`. They become datatype constructors here.
- The `Token.__repr__` text in both snapshots is not modelled. Token equality is datatype equality, as with `@dataclass`.
- The parser's many `raise ValueError("current_token is None")` / `"peek_token is None"` guards are not modelled as error paths. Each class invariant (`Valid`/`Ready`) states that both lookahead tokens are present after `__init__`, so these guards never fire.
- Infix parsing: `Priority` is defined, but `parse_expression` never compares priorities, and no infix parse function is ever registered. `Parsing.Parser.ParseExpression` takes the priority and ignores it; `RegisterInfix` records the kind only.
- `PrefixExpression` is not defined in `src/ponkey/ast.py`, although `src/ponkey/parser.py:10` and `tests/test_parser.py:3` import it. As written, importing `ponkey.parser` fails with `ImportError`, and the test file notes the missing node at `tests/test_parser.py:139`. The model supplies the evidently intended node, `Ast.PrefixExpression(token, operator, right)`, with the fields `parse_prefix_expression` sets (`src/ponkey/parser.py:251-258`). No `string()` is written for it, so `Ast.ExpressionString` gives an `Err` for it.
- `Parsing.ParseInt`: models `int()` on strings of ASCII digits, without bounds. Python's `int()` also accepts signs, underscores, surrounding spaces and non-ASCII digits. The tokenizer never produces those in an INT literal.
- `Lexing.Tokenizer.constructor`: takes the input only. The dataclass fields `position` and `read_position` (`src/ponkey/tokenizer.py:25-26`) can also be passed to `__init__`. The model always starts from their default, 0, which is how the parser and the tests build a tokenizer.
- `Parsing.Parser.ParseExpression` and `ParsePrefixExpression`: each `!` or `-` is parsed by a nested call, so a long enough chain of them exceeds Python's recursion limit and raises `RecursionError`. The model has no recursion limit and parses chains of any length.
- Diverged: the source loops forever when a let or return statement has no `;` before EOF. The model stops at that point and records the endless loop as `Diverged`. It proves no `;` would ever come (`SkipEndDiverges`, `SkipEndNone`).
- `LegacyParsing.Parser.NextToken` and `ExpectPeek`: they require that the stream has not been read past one token beyond its first EOF. Every path of the earlier parser meets this, except the endless loop above, which the model stops.
- The let statement's right-hand side is never parsed in either snapshot; both skip to `;`. The model does the same, so `value` stays None.
- Python's string and integer widths are unbounded, and Dafny's `int` and `seq<char>` match them. Characters are compared as code points; no Unicode classes are involved, because the source tests ASCII ranges only.
- The test suites (`tests/test_chapter1.py`, the rest of `tests/test_parser.py`, `ponkey/tests/test_token.py`, `ronkey/tests/test_token.rs`) are not modelled one by one. Their properties are covered by the general lemmas above, except where a row names a test. `check_parser_errors` prints the errors; `ParserTests.TestErrorMessages` compares the error list itself, not the printed text.
