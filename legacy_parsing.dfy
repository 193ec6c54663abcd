/** The parser of the earlier snapshot (ponkey/src/ponkey/parser.py), with
    its error record (ponkey/src/ponkey/exception.py).

    It knows let statements only, and skips their right-hand side. The
    whole of `parse_program` is specified by Run, a function of the lexer's
    token stream (LegacyLexing.TokenAt) built from one Round per statement:
    the statements it returns, the errors it records and how it ends are
    exactly the function's. The
    parser never fails a check of its own (the lexer only gives a LET token
    the literal "let"), but a `let x =` with no `;` after it loops forever
    at EOF; the model stops there with Diverged. */
module LegacyParsing {
  import opened Wrappers
  import opened Tokens
  import opened LegacyAst
  import opened LegacyLexing
  import Lexing

  /** `UnexpectedToken`: the kind `expect_peek` wanted and the kind it saw. */
  datatype UnexpectedToken = UnexpectedToken(expected: TokenKind, got: TokenKind)

  /** `UnexpectedToken.__str__`. */
  function Message(e: UnexpectedToken): string
  {
    "expected next token to be " + Value(e.expected) + ", got " + Value(e.got) + " instead"
  }

  /** Two records about the same unexpected kind render differently
      exactly when they expected different kinds. */
  lemma MessageNamesExpected(a: UnexpectedToken, b: UnexpectedToken)
    requires a.got == b.got
    ensures Message(a) == Message(b) <==> a == b
  {
    if Message(a) == Message(b) {
      StripAround("expected next token to be ", Value(a.expected), Value(b.expected), ", got ", Value(a.got), " instead");
      ValueInjective(a.expected, b.expected);
    }
  }

  /** Equal strings with the same text around the middle have equal middles. */
  lemma StripAround(p: string, u: string, v: string, q1: string, q2: string, q3: string)
    requires p + u + q1 + q2 + q3 == p + v + q1 + q2 + q3
    ensures u == v
  {
    assert |u| == |v|;
    assert u == (p + u + q1 + q2 + q3)[|p|..|p| + |u|];
    assert v == (p + v + q1 + q2 + q3)[|p|..|p| + |v|];
  }

  /** Characters the lexer has yet to read once it has produced `i` tokens:
      what every token other than EOF lowers. */
  function Measure(input: string, origin: nat, i: nat): nat
  {
    Lexing.Remaining(input, PosAfter(input, origin, i))
  }

  lemma StepDown(input: string, origin: nat, i: nat)
    ensures TokenAt(input, origin, i).kind != EOF ==>
              Measure(input, origin, i + 1) < Measure(input, origin, i)
  {
    if TokenAt(input, origin, i).kind != EOF {
      ScanProgress(input, PosAfter(input, origin, i));
    }
  }

  /** The lexer's stream reaches EOF. */
  lemma {:induction false} EventuallyEof(input: string, origin: nat, i: nat)
    ensures exists n | i <= n :: TokenAt(input, origin, n).kind == EOF
    decreases Measure(input, origin, i)
  {
    if TokenAt(input, origin, i).kind != EOF {
      StepDown(input, origin, i);
      EventuallyEof(input, origin, i + 1);
    }
  }

  /** `ts` and `ps` are the first tokens a lexer returns from cursor
      `origin` on, and the cursor before each of them. Stated one
      `next_token` call at a time, so that only the calls at hand are ever
      unfolded. */
  ghost predicate StreamOf(input: string, origin: nat, ts: seq<Token>, ps: seq<nat>)
  {
    && |ps| == |ts| + 1 && ps[0] == origin
    && forall n | 0 <= n < |ts| :: Fetches(input, ts, ps, n)
  }

  ghost predicate Fetches(input: string, ts: seq<Token>, ps: seq<nat>, n: nat)
    requires n < |ts| && |ps| == |ts| + 1
  {
    Scan(input, ps[n]) == Step(ts[n], ps[n + 1])
  }

  /** `ts` holds the first tokens of the lexer's stream from `origin`. */
  ghost predicate LexedBy(ts: seq<Token>, input: string, origin: nat)
  {
    forall n | 0 <= n < |ts| :: ts[n] == TokenAt(input, origin, n)
  }

  /** Two streams from the same cursor agree on their common part. */
  lemma {:induction false} StreamsAgree(input: string, origin: nat, ts: seq<Token>, ps: seq<nat>,
                                        ts': seq<Token>, ps': seq<nat>, n: nat)
    requires StreamOf(input, origin, ts, ps) && StreamOf(input, origin, ts', ps') && n <= |ts| && n <= |ts'|
    ensures ps[n] == ps'[n]
    ensures forall k | 0 <= k < n :: ts[k] == ts'[k]
    decreases n
  {
    if n > 0 {
      StreamsAgree(input, origin, ts, ps, ts', ps', n - 1);
      assert Fetches(input, ts, ps, n - 1) && Fetches(input, ts', ps', n - 1);
    }
  }

  /** The lexer's stream up to its first EOF, and one token beyond. */
  lemma LexerStream(input: string, origin: nat) returns (ts: seq<Token>, ps: seq<nat>, eof: nat)
    ensures StreamOf(input, origin, ts, ps) && |ts| == eof + 2 && ts[eof].kind == EOF
    ensures LexedBy(ts, input, origin)
  {
    EventuallyEof(input, origin, 0);
    eof :| TokenAt(input, origin, eof).kind == EOF;
    ts := seq(eof + 2, n requires 0 <= n => TokenAt(input, origin, n));
    ps := seq(eof + 3, n requires 0 <= n => PosAfter(input, origin, n));
    LexerFetches(input, origin, ts, ps);
  }

  lemma LexerFetches(input: string, origin: nat, ts: seq<Token>, ps: seq<nat>)
    requires |ps| == |ts| + 1 && LexedBy(ts, input, origin)
    requires forall n | 0 <= n < |ps| :: ps[n] == PosAfter(input, origin, n)
    ensures forall n | 0 <= n < |ts| :: Fetches(input, ts, ps, n)
  {
    forall n | 0 <= n < |ts|
      ensures Fetches(input, ts, ps, n)
    {
      FetchAt(input, origin, n);
    }
  }

  /** Call `n` of `next_token` returns token `n` and leaves the cursor
      where call `n + 1` starts. */
  lemma FetchAt(input: string, origin: nat, n: nat)
    ensures Scan(input, PosAfter(input, origin, n)) == Step(TokenAt(input, origin, n), PosAfter(input, origin, n + 1))
  {
  }

  /** Every LET token of a stream up to `eof` is spelled "let". */
  ghost predicate LetsSpelled(ts: seq<Token>, eof: nat)
  {
    forall j | 0 <= j <= eof && j < |ts| :: ts[j].kind == LET ==> ts[j].literal == "let"
  }

  /** The lexer's own stream spells its LET tokens "let". */
  lemma LexerLetsSpelled(input: string, origin: nat, ts: seq<Token>, eof: nat)
    requires LexedBy(ts, input, origin)
    ensures LetsSpelled(ts, eof)
  {
    forall j | 0 <= j <= eof && j < |ts| && ts[j].kind == LET
      ensures ts[j].literal == "let"
    {
      ScanKeywordLiteral(input, PosAfter(input, origin, j));
    }
  }

  /** The loop of `parse_let_statement` from token `k` of stream `ts`,
      whose token `eof` is EOF: the index of the first `;` at or after
      `k`, or None when EOF comes first, after which the loop never ends. */
  function SkipEnd(ts: seq<Token>, eof: nat, k: nat): (r: Option<nat>)
    requires k <= eof && eof + 1 < |ts| && ts[eof].kind == EOF
    ensures r.Some? ==> k <= r.value < eof && ts[r.value].kind == SEMICOLON
    ensures r.Some? ==> forall j | k <= j < r.value :: ts[j].kind != SEMICOLON && ts[j].kind != EOF
    decreases eof - k
  {
    if ts[k].kind == SEMICOLON then Some(k)
    else if ts[k].kind == EOF then None
    else SkipEnd(ts, eof, k + 1)
  }

  /** A token other than EOF comes before the stream's EOF. */
  lemma BeforeEof(ts: seq<Token>, eof: nat, i: nat)
    requires i <= eof < |ts| && ts[eof].kind == EOF && ts[i].kind != EOF
    ensures i < eof
  {
  }

  /** A token other than `;` and EOF is passed over. */
  lemma SkipEndStep(ts: seq<Token>, eof: nat, k: nat)
    requires k <= eof && eof + 1 < |ts| && ts[eof].kind == EOF && ts[k].kind != SEMICOLON && ts[k].kind != EOF
    ensures k < eof && SkipEnd(ts, eof, k) == SkipEnd(ts, eof, k + 1)
  {
  }

  /** On the lexer's stream, the skip finds no `;` exactly when none ever
      comes: the source's loop then runs forever. */
  lemma SkipEndNone(input: string, origin: nat, ts: seq<Token>, eof: nat, k: nat)
    requires LexedBy(ts, input, origin) && k <= eof && eof + 1 < |ts| && ts[eof].kind == EOF
    ensures SkipEnd(ts, eof, k).None? <==> forall j | k <= j :: TokenAt(input, origin, j).kind != SEMICOLON
  {
    SkipEndReachesEof(ts, eof, k);
    var r := SkipEnd(ts, eof, k);
    if r.None? {
      var e :| k <= e <= eof && ts[e].kind == EOF && forall i | k <= i < e :: ts[i].kind != SEMICOLON;
      forall j | k <= j
        ensures TokenAt(input, origin, j).kind != SEMICOLON
      {
        if e <= j {
          EofIsSticky(input, origin, e, j);
        } else {
          assert ts[j].kind != SEMICOLON;
        }
      }
    } else {
      assert TokenAt(input, origin, r.value).kind == SEMICOLON;
    }
  }

  /** When the skip finds no `;`, an EOF comes first. */
  lemma {:induction false} SkipEndReachesEof(ts: seq<Token>, eof: nat, k: nat)
    requires k <= eof && eof + 1 < |ts| && ts[eof].kind == EOF
    ensures SkipEnd(ts, eof, k).None? ==>
              exists e | k <= e <= eof :: ts[e].kind == EOF && forall i | k <= i < e :: ts[i].kind != SEMICOLON
    decreases eof - k
  {
    if ts[k].kind != SEMICOLON && ts[k].kind != EOF {
      SkipEndReachesEof(ts, eof, k + 1);
      if SkipEnd(ts, eof, k).None? {
        var e :| k + 1 <= e <= eof && ts[e].kind == EOF && forall i | k + 1 <= i < e :: ts[i].kind != SEMICOLON;
        assert forall i | k <= i < e :: ts[i].kind != SEMICOLON;
      }
    }
  }

  /** How a whole `parse_program` call ends: how the run ended, the
      statements of the returned program and the errors recorded. */
  datatype Outcome = Outcome(halt: Halt, statements: seq<Statement>, errors: seq<UnexpectedToken>)

  /** How one round of the loop of `parse_program` ends, from its call of
      `parse_statement` on: whether the run goes on, the statement returned,
      the errors recorded, and the stream index of the current token when
      `parse_statement` returns. */
  datatype Round = Round(halt: Halt, statement: Option<Statement>, errors: seq<UnexpectedToken>, last: nat)

  function Listed(s: Option<Statement>): seq<Statement>
  {
    if s.Some? then [s.value] else []
  }

  /** `parse_statement` with token `i` as its current token: only a let
      statement is parsed; any other token gives nothing, and the round
      ends where it started. */
  function StatementRound(ts: seq<Token>, eof: nat, i: nat): (r: Round)
    requires i < eof && eof + 1 < |ts| && ts[eof].kind == EOF
    ensures r.halt.Running? ==> i <= r.last < eof
  {
    if ts[i].kind == LET then LetRound(ts, eof, i) else Round(Running, None, [], i)
  }

  /** `parse_let_statement` from the LET token `i`: the constructor's
      check, then an IDENT, or an error recorded with the LET token still
      current. */
  function LetRound(ts: seq<Token>, eof: nat, i: nat): (r: Round)
    requires i < eof && eof + 1 < |ts| && ts[eof].kind == EOF
    ensures r.halt.Running? ==> i <= r.last < eof
  {
    match NewLetStatement(ts[i])
    case Err(message) => Round(Raised(message), None, [], i)
    case Ok(stmt) =>
      if ts[i + 1].kind != IDENT then Round(Running, None, [UnexpectedToken(IDENT, ts[i + 1].kind)], i)
      else NameRound(ts, eof, i + 1, stmt)
  }

  /** The rest of `parse_let_statement` once its name, token `j`, is
      current: an `=`, or an error recorded with the name still current;
      then the skip to `;`, which never ends when EOF comes first. */
  function NameRound(ts: seq<Token>, eof: nat, j: nat, stmt: Statement): (r: Round)
    requires j < eof && eof + 1 < |ts| && ts[eof].kind == EOF && stmt.LetStatement?
    ensures r.halt.Running? ==> j <= r.last < eof
  {
    if ts[j + 1].kind != ASSIGN then Round(Running, None, [UnexpectedToken(ASSIGN, ts[j + 1].kind)], j)
    else
      match SkipEnd(ts, eof, j + 1)
      case None => Round(Diverged, None, [], j)
      case Some(k) => Round(Running, Some(stmt.(name := Some(Identifier(ts[j], ts[j].literal)))), [], k)
  }

  /** `parse_program` from token `i` of `ts`, having returned `stmts` and
      recorded `errors` so far: a round for each statement until the
      current token is EOF; a round that stops the run ends it there. */
  function Run(ts: seq<Token>, eof: nat, i: nat, stmts: seq<Statement>, errors: seq<UnexpectedToken>): Outcome
    requires i <= eof && eof + 1 < |ts| && ts[eof].kind == EOF
    decreases eof - i
  {
    if ts[i].kind == EOF then Outcome(Running, stmts, errors)
    else
      var r := StatementRound(ts, eof, i);
      if r.halt.Running? then Run(ts, eof, r.last + 1, stmts + Listed(r.statement), errors + r.errors)
      else Outcome(r.halt, stmts, errors + r.errors)
  }

  /** One round of `parse_program`: the round at token `i` adds its
      statement and its errors to those before, and the run goes on after
      its last token, or ends. */
  lemma RoundStep(ts: seq<Token>, eof: nat, i: nat, stmts: seq<Statement>, errors: seq<UnexpectedToken>, r: Round)
    requires i < eof && eof + 1 < |ts| && ts[eof].kind == EOF && ts[i].kind != EOF && StatementRound(ts, eof, i) == r
    ensures r.halt.Running? ==>
              r.last + 1 <= eof && Run(ts, eof, i, stmts, errors) == Run(ts, eof, r.last + 1, stmts + Listed(r.statement), errors + r.errors)
    ensures !r.halt.Running? ==> Run(ts, eof, i, stmts, errors) == Outcome(r.halt, stmts, errors + r.errors)
  {
  }

  /** `parse_statement` returns None and records nothing for a token
      other than LET; `parse_program` then moves to the next token. */
  lemma RunPassesOver(ts: seq<Token>, eof: nat, i: nat, stmts: seq<Statement>, errors: seq<UnexpectedToken>)
    requires i < eof && eof + 1 < |ts| && ts[eof].kind == EOF
    requires ts[i].kind != LET && ts[i].kind != EOF
    ensures Run(ts, eof, i, stmts, errors) == Run(ts, eof, i + 1, stmts, errors)
  {
    assert stmts + Listed(None) == stmts;
    assert errors + [] == errors;
  }

  /** A stretch of tokens none of which is LET or EOF passes without a
      statement or an error. */
  lemma {:induction false} RunPassesOverAll(ts: seq<Token>, eof: nat, i: nat, j: nat, stmts: seq<Statement>, errors: seq<UnexpectedToken>)
    requires i <= j <= eof && eof + 1 < |ts| && ts[eof].kind == EOF
    requires forall k | i <= k < j :: ts[k].kind != LET && ts[k].kind != EOF
    ensures Run(ts, eof, i, stmts, errors) == Run(ts, eof, j, stmts, errors)
    decreases j - i
  {
    if i < j {
      RunPassesOver(ts, eof, i, stmts, errors);
      RunPassesOverAll(ts, eof, i + 1, j, stmts, errors);
    }
  }

  /** A let whose next token is not an identifier records one error,
      expecting IDENT, and adds no statement; the loop resumes after the
      LET token. */
  lemma RunLetWithoutName(ts: seq<Token>, eof: nat, i: nat, stmts: seq<Statement>, errors: seq<UnexpectedToken>)
    requires i < eof && eof + 1 < |ts| && ts[eof].kind == EOF
    requires ts[i] == Token(LET, "let") && ts[i + 1].kind != IDENT
    ensures Run(ts, eof, i, stmts, errors) == Run(ts, eof, i + 1, stmts, errors + [UnexpectedToken(IDENT, ts[i + 1].kind)])
  {
    assert stmts + Listed(None) == stmts;
  }

  /** A let with a name but no `=` after it records one error, expecting
      ASSIGN, and adds no statement; the loop resumes after the name. */
  lemma RunLetWithoutAssign(ts: seq<Token>, eof: nat, i: nat, stmts: seq<Statement>, errors: seq<UnexpectedToken>)
    requires i + 1 < eof && eof + 1 < |ts| && ts[eof].kind == EOF
    requires ts[i] == Token(LET, "let") && ts[i + 1].kind == IDENT && ts[i + 2].kind != ASSIGN
    ensures Run(ts, eof, i, stmts, errors) == Run(ts, eof, i + 2, stmts, errors + [UnexpectedToken(ASSIGN, ts[i + 2].kind)])
  {
    assert stmts + Listed(None) == stmts;
  }

  /** A let statement as the parser builds it from the lexer's tokens: its
      token is `let`, its name an IDENT token and its value absent. */
  ghost predicate LetShaped(s: Statement)
  {
    && s.LetStatement? && s.token == Token(LET, "let") && s.value.None?
    && s.name.Some? && s.name.value.token.kind == IDENT
    && s.name.value.value == s.name.value.token.literal
  }

  /** What `parse_program` adds on a stream that spells its LET tokens
      "let", as the lexer's does: it never raises; each statement it adds is
      LetShaped; each error it adds is a missing name or `=`. */
  lemma {:induction false} RunShape(ts: seq<Token>, eof: nat, i: nat, stmts: seq<Statement>, errors: seq<UnexpectedToken>)
    requires i <= eof && eof + 1 < |ts| && ts[eof].kind == EOF && LetsSpelled(ts, eof)
    ensures Run(ts, eof, i, stmts, errors).halt.Running? || Run(ts, eof, i, stmts, errors).halt.Diverged?
    ensures forall s | s in Run(ts, eof, i, stmts, errors).statements :: s in stmts || LetShaped(s)
    ensures forall e | e in Run(ts, eof, i, stmts, errors).errors :: e in errors || e.expected in {IDENT, ASSIGN}
    decreases eof - i
  {
    if ts[i].kind != EOF {
      var r := StatementRound(ts, eof, i);
      if ts[i].kind == LET {
        assert ts[i].literal == "let";
      }
      if r.halt.Running? {
        RunShape(ts, eof, r.last + 1, stmts + Listed(r.statement), errors + r.errors);
      }
    }
  }

  /** On the lexer's own stream `parse_program` never raises: it ends at
      EOF, or loops forever in a let statement with no `;`. */
  lemma LexerProgramNeverRaises(input: string, origin: nat, ts: seq<Token>, eof: nat)
    requires LexedBy(ts, input, origin) && eof + 1 < |ts| && ts[eof].kind == EOF
    ensures !Run(ts, eof, 0, [], []).halt.Raised?
  {
    LexerLetsSpelled(input, origin, ts, eof);
    RunShape(ts, eof, 0, [], []);
  }

  /** `Parser`: a lexer with two tokens of lookahead and the errors found
      so far. */
  class Parser {
    const lexer: Lexer
    ghost const origin: nat
    /** The tokens the lexer returns from `origin` on, and its cursor
        before each of them. */
    ghost const ts: seq<Token>
    ghost const ps: seq<nat>
    /** An index at which the stream is EOF. */
    ghost const eof: nat
    var currentToken: Option<Token>
    var peekToken: Option<Token>
    var errors: seq<UnexpectedToken>
    var halted: Halt
    /** How many tokens have been fetched from the lexer. */
    ghost var fetched: nat

    /** The lookahead tokens are the last two tokens of the stream that
        have been fetched. */
    ghost predicate Valid()
      reads this, lexer
    {
      && lexer.Valid()
      && StreamOf(lexer.input, origin, ts, ps) && |ts| == eof + 2 && ts[eof].kind == EOF
      && fetched <= eof + 2 && lexer.position == ps[fetched]
      && peekToken == (if fetched >= 1 then Some(ts[fetched - 1]) else None)
      && currentToken == (if fetched >= 2 then Some(ts[fetched - 2]) else None)
    }

    /** A primed parser, not halted, not past the stream's EOF: the state
        every parsing method starts from. */
    ghost predicate Ready()
      reads this, lexer
    {
      Valid() && fetched >= 2 && halted.Running? && fetched - 2 <= eof
    }

    /** The stream index of the current token. */
    ghost function Current(): nat
      reads this
      requires fetched >= 2
    {
      fetched - 2
    }

    /** `__init__`: no errors, and the first two tokens of the lexer as
        current and peek token. */
    constructor (lexer: Lexer)
      requires lexer.Valid()
      modifies lexer
      ensures this.lexer == lexer && origin == old(lexer.position)
      ensures LexedBy(ts, lexer.input, origin)
      ensures Ready() && Current() == 0 && errors == []
      ensures currentToken == Some(ts[0]) && peekToken == Some(ts[1])
    {
      this.lexer := lexer;
      var o: nat := lexer.position;
      origin := o;
      ghost var t, q, e := LexerStream(lexer.input, o);
      ts, ps, eof := t, q, e;
      currentToken := None;
      peekToken := None;
      errors := [];
      halted := Running;
      fetched := 0;
      new;
      NextToken();
      NextToken();
    }

    /** `next_token`: shift the lookahead by one token. */
    method NextToken()
      requires Valid() && fetched < eof + 2
      modifies this`currentToken, this`peekToken, this`fetched, lexer
      ensures Valid() && fetched == old(fetched) + 1
      ensures currentToken == old(peekToken)
    {
      currentToken := peekToken;
      assert Fetches(lexer.input, ts, ps, fetched);
      var t := lexer.NextToken();
      peekToken := Some(t);
      fetched := fetched + 1;
    }

    /** `current_token_is`. */
    function CurrentTokenIs(k: TokenKind): bool
      reads this
      requires peekToken.Some? && currentToken.Some?
    {
      currentToken.value.kind == k
    }

    /** `peek_token_is`. */
    function PeekTokenIs(k: TokenKind): bool
      reads this
      requires peekToken.Some?
    {
      peekToken.value.kind == k
    }

    /** `peek_error`: record that the peek token is not of kind `k`. */
    method PeekError(k: TokenKind)
      requires peekToken.Some?
      modifies this`errors
      ensures errors == old(errors) + [UnexpectedToken(k, peekToken.value.kind)]
    {
      errors := errors + [UnexpectedToken(k, peekToken.value.kind)];
    }

    /** `expect_peek`: advance when the peek token has kind `k`, otherwise
        record an error and stay. */
    method ExpectPeek(k: TokenKind) returns (ok: bool)
      requires Valid() && 2 <= fetched < eof + 2
      modifies this, lexer
      ensures Valid() && halted == old(halted)
      ensures ok <==> old(peekToken).value.kind == k
      ensures ok ==> fetched == old(fetched) + 1 && errors == old(errors)
      ensures !ok ==> fetched == old(fetched) &&
                      errors == old(errors) + [UnexpectedToken(k, old(peekToken).value.kind)]
    {
      if PeekTokenIs(k) {
        NextToken();
        ok := true;
      } else {
        PeekError(k);
        ok := false;
      }
    }

    /** The loop of `parse_let_statement`: advance until the current token
        is `;`. At EOF the source loops forever; the model stops with
        Diverged. The current token starts at stream index `k` and ends at
        index `r`. */
    method SkipToSemicolon(ghost k: nat) returns (ghost r: nat)
      requires Ready() && Current() == k
      modifies this`currentToken, this`peekToken, this`fetched, this`halted, lexer
      ensures Valid() && fetched >= old(fetched)
      ensures halted == (if SkipEnd(ts, eof, k).Some? then Running else Diverged)
      ensures halted.Running? ==> Ready() && Current() == r && SkipEnd(ts, eof, k) == Some(r)
    {
      r := k;
      while currentToken.value.kind != SEMICOLON
        invariant Ready() && fetched >= old(fetched) && Current() == r && k <= r
        invariant SkipEnd(ts, eof, r) == SkipEnd(ts, eof, k)
        decreases eof - r
      {
        if currentToken.value.kind == EOF {
          halted := Diverged;
          return;
        }
        SkipEndStep(ts, eof, r);
        NextToken();
        r := r + 1;
      }
    }

    /** `parse_let_statement`, from the LET token at stream index `i`: it
        ends as LetRound at `i`, with the current token at index `r`. */
    method ParseLetStatement(ghost i: nat) returns (s: Option<Statement>, ghost added: seq<UnexpectedToken>, ghost r: nat)
      requires Ready() && Current() == i && currentToken.value.kind == LET
      modifies this, lexer
      ensures i < eof && Valid() && fetched >= old(fetched) && errors == old(errors) + added
      ensures halted.Running? ==> Ready() && Current() == r
      ensures LetRound(ts, eof, i) == Round(halted, s, added, r)
    {
      BeforeEof(ts, eof, i);
      var stmt := NewLetStatement(currentToken.value);
      if stmt.Err? {
        halted := Raised(stmt.error);
        return None, [], i;
      }
      var ok := ExpectPeek(IDENT);
      if !ok {
        return None, [UnexpectedToken(IDENT, ts[i + 1].kind)], i;
      }
      BeforeEof(ts, eof, i + 1);
      s, added, r := ParseLetName(stmt.value, i + 1);
    }

    /** The rest of `parse_let_statement` once the current token, at
        stream index `j`, is its name: it ends as NameRound at `j`. */
    method ParseLetName(stmt: Statement, ghost j: nat) returns (s: Option<Statement>, ghost added: seq<UnexpectedToken>, ghost r: nat)
      requires Ready() && Current() == j && j < eof && stmt.LetStatement?
      modifies this, lexer
      ensures Valid() && fetched >= old(fetched) && errors == old(errors) + added
      ensures halted.Running? ==> Ready() && Current() == r
      ensures NameRound(ts, eof, j, stmt) == Round(halted, s, added, r)
    {
      var id := Identifier(currentToken.value, currentToken.value.literal);
      var ok := ExpectPeek(ASSIGN);
      if !ok {
        return None, [UnexpectedToken(ASSIGN, ts[j + 1].kind)], j;
      }
      added := [];
      r := SkipToSemicolon(j + 1);
      if !halted.Running? {
        return None, [], j;
      }
      s := Some(stmt.(name := Some(id)));
    }

    /** `parse_statement`, from stream index `i`: a let statement, or
        nothing for any other token; it ends as StatementRound at `i`. */
    method ParseStatement(ghost i: nat) returns (s: Option<Statement>, ghost added: seq<UnexpectedToken>, ghost r: nat)
      requires Ready() && Current() == i && currentToken.value.kind != EOF
      modifies this, lexer
      ensures i < eof && ts[i].kind != EOF
      ensures Valid() && fetched >= old(fetched) && errors == old(errors) + added
      ensures halted.Running? ==> Ready() && Current() == r
      ensures StatementRound(ts, eof, i) == Round(halted, s, added, r)
    {
      BeforeEof(ts, eof, i);
      if currentToken.value.kind == LET {
        s, added, r := ParseLetStatement(i);
      } else {
        s, added, r := None, [], i;
      }
    }

    /** One round of the loop of `parse_program`, from stream index `i`,
        with `stmts` returned and `errors` recorded so far: parse a
        statement, then move past its last token, at index `j`. */
    method ParseRound(ghost i: nat, ghost stmts: seq<Statement>, ghost recorded: seq<UnexpectedToken>) returns (s: Option<Statement>, ghost j: nat)
      requires Ready() && Current() == i && currentToken.value.kind != EOF && errors == recorded
      modifies this, lexer
      ensures Valid() && i < eof
      ensures halted.Running? ==> Ready() && i <= j && Current() == j + 1
      ensures halted.Running? ==> Run(ts, eof, i, stmts, recorded) == Run(ts, eof, j + 1, stmts + Listed(s), errors)
      ensures !halted.Running? ==> Run(ts, eof, i, stmts, recorded) == Outcome(halted, stmts, errors)
    {
      ghost var added;
      s, added, j := ParseStatement(i);
      RoundStep(ts, eof, i, stmts, recorded, Round(halted, s, added, j));
      if halted.Running? {
        NextToken();
      }
    }

    /** `parse_program`: the statements returned, the errors recorded and
        how the run ends are exactly Run from the current token. */
    method ParseProgram() returns (p: Program)
      requires Ready()
      modifies this, lexer
      ensures Valid()
      ensures Run(ts, eof, old(Current()), [], old(errors)) == Outcome(halted, p.statements, errors)
      ensures halted.Running? ==> currentToken.Some? && currentToken.value.kind == EOF
    {
      p := Program([]);
      ghost var o, e := Current(), errors;
      ghost var at := o;
      while currentToken.Some? && currentToken.value.kind != EOF
        invariant Ready() && Current() == at
        invariant Run(ts, eof, o, [], e) == Run(ts, eof, at, p.statements, errors)
        decreases eof - at
      {
        var stmt, j := ParseRound(at, p.statements, errors);
        if !halted.Running? {
          return;
        }
        p := Program(p.statements + Listed(stmt));
        at := j + 1;
      }
    }
  }

  /** The line break and indentation before each line of the test program. */
  const Indent: string := "\n        "

  /** The program of the earlier snapshot's parser test: three let
      statements, each missing a part. */
  const MalformedLets: string :=
    Indent + "let x 5;" + Indent + "let = 10;" + Indent + "let 838838;" + Indent

  /** Call 0 of `next_token` on MalformedLets reads the first line's `let`. */
  lemma MalformedLetsScan0()
    ensures Scan(MalformedLets, 0) == Step(Token(LET, "let"), 12)
  {
    ScanLetters(MalformedLets, 0, 9, 12);
    assert MalformedLets[9..12] == "let";
  }

  /** Call 1 of `next_token` on MalformedLets reads its name `x`. */
  lemma MalformedLetsScan1()
    ensures Scan(MalformedLets, 12) == Step(Token(IDENT, "x"), 14)
  {
    ScanLetters(MalformedLets, 12, 13, 14);
    assert MalformedLets[13..14] == "x";
  }

  /** Call 2 of `next_token` on MalformedLets reads its value `5`. */
  lemma MalformedLetsScan2()
    ensures Scan(MalformedLets, 14) == Step(Token(INT, "5"), 16)
  {
    ScanDigits(MalformedLets, 14, 15, 16);
    assert MalformedLets[15..16] == "5";
  }

  /** Call 3 of `next_token` on MalformedLets reads its `;`. */
  lemma MalformedLetsScan3()
    ensures Scan(MalformedLets, 16) == Step(Token(SEMICOLON, ";"), 17)
  {
    ScanPunctuation(MalformedLets, 16, 16);
  }

  /** Call 4 of `next_token` on MalformedLets reads the second line's `let`. */
  lemma MalformedLetsScan4()
    ensures Scan(MalformedLets, 17) == Step(Token(LET, "let"), 29)
  {
    ScanLetters(MalformedLets, 17, 26, 29);
    assert MalformedLets[26..29] == "let";
  }

  /** Call 5 of `next_token` on MalformedLets reads the `=` where a name belongs. */
  lemma MalformedLetsScan5()
    ensures Scan(MalformedLets, 29) == Step(Token(ASSIGN, "="), 31)
  {
    ScanPunctuation(MalformedLets, 29, 30);
  }

  /** Call 6 of `next_token` on MalformedLets reads its value `10`. */
  lemma MalformedLetsScan6()
    ensures Scan(MalformedLets, 31) == Step(Token(INT, "10"), 34)
  {
    ScanDigits(MalformedLets, 31, 32, 34);
    assert MalformedLets[32..34] == "10";
  }

  /** Call 7 of `next_token` on MalformedLets reads its `;`. */
  lemma MalformedLetsScan7()
    ensures Scan(MalformedLets, 34) == Step(Token(SEMICOLON, ";"), 35)
  {
    ScanPunctuation(MalformedLets, 34, 34);
  }

  /** Call 8 of `next_token` on MalformedLets reads the third line's `let`. */
  lemma MalformedLetsScan8()
    ensures Scan(MalformedLets, 35) == Step(Token(LET, "let"), 47)
  {
    ScanLetters(MalformedLets, 35, 44, 47);
    assert MalformedLets[44..47] == "let";
  }

  /** Call 9 of `next_token` on MalformedLets reads the number where a name belongs. */
  lemma MalformedLetsScan9()
    ensures Scan(MalformedLets, 47) == Step(Token(INT, "838838"), 54)
  {
    ScanDigits(MalformedLets, 47, 48, 54);
    assert MalformedLets[48..54] == "838838";
  }

  /** Call 10 of `next_token` on MalformedLets reads its `;`. */
  lemma MalformedLetsScan10()
    ensures Scan(MalformedLets, 54) == Step(Token(SEMICOLON, ";"), 55)
  {
    ScanPunctuation(MalformedLets, 54, 54);
  }

  /** Call 11 of `next_token` on MalformedLets reads the end of input, past the last indentation. */
  lemma MalformedLetsScan11()
    ensures Scan(MalformedLets, 55) == Step(Token(EOF, ""), 65)
  {
    ScanEnd(MalformedLets, 55);
  }
  /** What the lexer returns for MalformedLets, one call after another. */
  const MalformedLetsTokens: seq<Token> :=
    [Token(LET, "let"), Token(IDENT, "x"), Token(INT, "5"), Token(SEMICOLON, ";"),
     Token(LET, "let"), Token(ASSIGN, "="), Token(INT, "10"), Token(SEMICOLON, ";"),
     Token(LET, "let"), Token(INT, "838838"), Token(SEMICOLON, ";"), Token(EOF, "")]

  /** The cursor before each of those calls, and after the last. */
  const MalformedLetsCursors: seq<nat> := [0, 12, 14, 16, 17, 29, 31, 34, 35, 47, 54, 55, 65]

  /** The lexer's first twelve calls on MalformedLets. */
  lemma MalformedLetsLexed()
    ensures StreamOf(MalformedLets, 0, MalformedLetsTokens, MalformedLetsCursors)
  {
    MalformedLetsLexedFirstName();
    MalformedLetsLexedFirstValue();
    MalformedLetsLexedSecondLine();
    MalformedLetsLexedThirdLine();
  }

  /** The calls that read `let x` on the first line. */
  lemma MalformedLetsLexedFirstName()
    ensures forall n | 0 <= n < 2 :: Fetches(MalformedLets, MalformedLetsTokens, MalformedLetsCursors, n)
  {
    forall n | 0 <= n < 2
      ensures Fetches(MalformedLets, MalformedLetsTokens, MalformedLetsCursors, n)
    {
      if n == 0 {
        MalformedLetsScan0();
      } else {
        MalformedLetsScan1();
      }
    }
  }

  /** The calls that read the rest of the first line, `5;`. */
  lemma MalformedLetsLexedFirstValue()
    ensures forall n | 2 <= n < 4 :: Fetches(MalformedLets, MalformedLetsTokens, MalformedLetsCursors, n)
  {
    forall n | 2 <= n < 4
      ensures Fetches(MalformedLets, MalformedLetsTokens, MalformedLetsCursors, n)
    {
      if n == 2 {
        MalformedLetsScan2();
      } else {
        MalformedLetsScan3();
      }
    }
  }

  /** The calls that read `let = 10;`. */
  lemma MalformedLetsLexedSecondLine()
    ensures forall n | 4 <= n < 8 :: Fetches(MalformedLets, MalformedLetsTokens, MalformedLetsCursors, n)
  {
    forall n | 4 <= n < 8
      ensures Fetches(MalformedLets, MalformedLetsTokens, MalformedLetsCursors, n)
    {
      if n == 4 {
        MalformedLetsScan4();
      } else if n == 5 {
        MalformedLetsScan5();
      } else if n == 6 {
        MalformedLetsScan6();
      } else {
        MalformedLetsScan7();
      }
    }
  }

  /** The calls that read `let 838838;` and then reach the end of input. */
  lemma MalformedLetsLexedThirdLine()
    ensures forall n | 8 <= n < 12 :: Fetches(MalformedLets, MalformedLetsTokens, MalformedLetsCursors, n)
  {
    forall n | 8 <= n < 12
      ensures Fetches(MalformedLets, MalformedLetsTokens, MalformedLetsCursors, n)
    {
      if n == 8 {
        MalformedLetsScan8();
      } else if n == 9 {
        MalformedLetsScan9();
      } else if n == 10 {
        MalformedLetsScan10();
      } else {
        MalformedLetsScan11();
      }
    }
  }

  /** The facts about the test's stream that its parse depends on. */
  ghost predicate MalformedLetsShape(ts: seq<Token>, eof: nat)
  {
    && 11 <= eof && eof + 1 < |ts| && ts[eof].kind == EOF
    && ts[0] == Token(LET, "let") && ts[1].kind == IDENT && ts[2].kind == INT && ts[3].kind == SEMICOLON
    && ts[4] == Token(LET, "let") && ts[5].kind == ASSIGN && ts[6].kind == INT && ts[7].kind == SEMICOLON
    && ts[8] == Token(LET, "let") && ts[9].kind == INT && ts[10].kind == SEMICOLON && ts[11].kind == EOF
  }

  /** The stream of MalformedLets up to its first EOF, token by token. */
  lemma MalformedLetsStream(ts: seq<Token>, ps: seq<nat>, eof: nat)
    requires StreamOf(MalformedLets, 0, ts, ps) && eof + 1 < |ts| && ts[eof].kind == EOF
    ensures MalformedLetsShape(ts, eof)
  {
    var steps := MalformedLetsTokens;
    MalformedLetsLexed();
    var m := if |ts| < 12 then |ts| else 12;
    StreamsAgree(MalformedLets, 0, ts, ps, steps, MalformedLetsCursors, m);
    if eof < 11 {
      assert false;
    }
    assert ts[0] == steps[0] && ts[1] == steps[1] && ts[2] == steps[2] && ts[3] == steps[3];
    assert ts[4] == steps[4] && ts[5] == steps[5] && ts[6] == steps[6] && ts[7] == steps[7];
    assert ts[8] == steps[8] && ts[9] == steps[9] && ts[10] == steps[10] && ts[11] == steps[11];
  }

  /** The first let of the test's program lacks its `=`. */
  lemma MalformedLetsFirst(ts: seq<Token>, eof: nat)
    requires MalformedLetsShape(ts, eof)
    ensures Run(ts, eof, 0, [], []) == Run(ts, eof, 4, [], [UnexpectedToken(ASSIGN, INT)])
  {
    RunLetWithoutAssign(ts, eof, 0, [], []);
    assert [] + [UnexpectedToken(ASSIGN, INT)] == [UnexpectedToken(ASSIGN, INT)];
    RunPassesOverAll(ts, eof, 2, 4, [], [UnexpectedToken(ASSIGN, INT)]);
  }

  /** The second let of the test's program lacks its name. */
  lemma MalformedLetsSecond(ts: seq<Token>, eof: nat)
    requires MalformedLetsShape(ts, eof)
    ensures Run(ts, eof, 4, [], [UnexpectedToken(ASSIGN, INT)]) ==
              Run(ts, eof, 8, [], [UnexpectedToken(ASSIGN, INT), UnexpectedToken(IDENT, ASSIGN)])
  {
    var errors := [UnexpectedToken(ASSIGN, INT), UnexpectedToken(IDENT, ASSIGN)];
    RunLetWithoutName(ts, eof, 4, [], [UnexpectedToken(ASSIGN, INT)]);
    assert [UnexpectedToken(ASSIGN, INT)] + [UnexpectedToken(IDENT, ASSIGN)] == errors;
    RunPassesOverAll(ts, eof, 5, 8, [], errors);
  }

  /** The third let of the test's program lacks its name as well, and then
      the input ends. */
  lemma MalformedLetsThird(ts: seq<Token>, eof: nat)
    requires MalformedLetsShape(ts, eof)
    ensures Run(ts, eof, 8, [], [UnexpectedToken(ASSIGN, INT), UnexpectedToken(IDENT, ASSIGN)]) ==
              Outcome(Running, [], [UnexpectedToken(ASSIGN, INT), UnexpectedToken(IDENT, ASSIGN), UnexpectedToken(IDENT, INT)])
  {
    var before := [UnexpectedToken(ASSIGN, INT), UnexpectedToken(IDENT, ASSIGN)];
    var errors := before + [UnexpectedToken(IDENT, INT)];
    RunLetWithoutName(ts, eof, 8, [], before);
    RunPassesOverAll(ts, eof, 9, 11, [], errors);
    assert errors == [UnexpectedToken(ASSIGN, INT), UnexpectedToken(IDENT, ASSIGN), UnexpectedToken(IDENT, INT)];
  }

  /** The test's program: each let stops at its first missing part, so
      `parse_program` returns no statement and records three errors, in
      source order. */
  lemma MalformedLetsParse(ts: seq<Token>, ps: seq<nat>, eof: nat)
    requires StreamOf(MalformedLets, 0, ts, ps) && eof + 1 < |ts| && ts[eof].kind == EOF
    ensures Run(ts, eof, 0, [], []) ==
              Outcome(Running, [], [UnexpectedToken(ASSIGN, INT), UnexpectedToken(IDENT, ASSIGN), UnexpectedToken(IDENT, INT)])
  {
    MalformedLetsStream(ts, ps, eof);
    MalformedLetsFirst(ts, eof);
    MalformedLetsSecond(ts, eof);
    MalformedLetsThird(ts, eof);
  }
}
