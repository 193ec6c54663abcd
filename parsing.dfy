/** The current parser (src/ponkey/parser.py).

    `Parser` holds the tokenizer and two tokens of lookahead. The model
    names the tokenizer's whole output once, in ghost constants: `ts` holds
    the tokens that the calls of `next_token` return (Fetch, Lexing.TokenAt),
    `ps` the tokenizer's cursor after each call, and the ghost counter
    `fetched` says how many calls have been made: `peekToken` is token
    `fetched - 1` of the stream and `currentToken` token `fetched - 2`.
    Each parsing method is proved against a function on the stream (the
    rounds of `parse_program` and Run), which states what the source does.

    Two source behaviours end a parse early, and the field `halted` records
    them. A `ValueError` raised by the tokenizer propagates out of every parser
    method (Raised). A let or return statement whose `;` never comes loops
    forever in the source, because EOF repeats (Diverged). Once `halted` is
    set, every method returns at once. */
module Parsing {
  import opened Wrappers
  import opened Tokens
  import opened Lexing
  import opened Ast

  /** `Priority`: the binding powers, lowest first. `parse_expression`
      accepts one but does not use it yet. */
  datatype Priority = LOWEST | EQUALS | LESSGREATER | SUM | PRODUCT | PREFIX | CALL

  /** The `IntEnum` value `auto()` gives each priority, counting from 1. */
  function Rank(p: Priority): (r: nat)
    ensures 1 <= r <= 7
    ensures p == LOWEST <==> r == 1
    ensures p == CALL <==> r == 7
  {
    match p
    case LOWEST => 1
    case EQUALS => 2
    case LESSGREATER => 3
    case SUM => 4
    case PRODUCT => 5
    case PREFIX => 6
    case CALL => 7
  }

  /** The three prefix parse functions a parser registers on itself. */
  datatype PrefixParseFn = ParseIdentifierFn | ParseIntegerLiteralFn | ParsePrefixExpressionFn

  /** The prefix table `__init__` builds: IDENT, INT, `!` and `-`. */
  const PrefixTable: map<TokenKind, PrefixParseFn> :=
    map[IDENT := ParseIdentifierFn, INT := ParseIntegerLiteralFn,
        BANG := ParsePrefixExpressionFn, MINUS := ParsePrefixExpressionFn]

  /** The message of the tokenizer's `ValueError`. */
  const TokenizerError := "ch is None"

  /** The ways a parse of tokenizer output can stop early: never through a
      node constructor's check, only through the tokenizer or a skip loop
      that never meets a `;`. */
  predicate NoCheckFailure(h: Halt)
  {
    h.Running? || h.Diverged? || h == Raised(TokenizerError)
  }

  /** `peek_error` message. */
  function ExpectedMessage(expected: TokenKind, got: TokenKind): string
  {
    "expected next token to be " + Value(expected) + ", got " + Value(got) + " instead"
  }

  /** `no_prefix_parser_error` message. */
  function NoPrefixMessage(k: TokenKind): string
  {
    "no prefix parse function for " + Value(k) + " found"
  }

  /** `parse_integer_literal` error message. */
  function CouldNotParseMessage(literal: string): string
  {
    "could not parse " + literal + " as integer"
  }

  predicate AllDigits(s: string)
  {
    forall i | 0 <= i < |s| :: IsDigitChar(s[i])
  }

  /** The decimal value of a string of ASCII digits. */
  function DigitsValue(s: string): nat
    requires AllDigits(s)
    decreases |s|
  {
    if s == [] then 0 else 10 * DigitsValue(s[..|s| - 1]) + (s[|s| - 1] as int - '0' as int)
  }

  /** Python's `int(literal)` on strings of ASCII characters without signs,
      spaces or underscores: a value for a non-empty run of digits, None
      where `int` raises. */
  function ParseInt(s: string): (r: Option<int>)
    ensures r.Some? <==> s != [] && AllDigits(s)
    ensures r.Some? ==> 0 <= r.value
  {
    if s != [] && AllDigits(s) then Some(DigitsValue(s)) else None
  }

  /** Reading one more digit multiplies the value so far by ten and adds
      the digit. */
  lemma ParseIntAppendDigit(s: string, c: char)
    requires ParseInt(s).Some? && IsDigitChar(c)
    ensures ParseInt(s + [c]) == Some(10 * ParseInt(s).value + (c as int - '0' as int))
  {
    assert (s + [c])[..|s|] == s;
  }

  /** A single digit is its own value. */
  lemma ParseIntDigit(c: char)
    requires IsDigitChar(c)
    ensures ParseInt([c]) == Some(c as int - '0' as int)
  {
    assert [c][..0] == [];
    assert AllDigits([c]);
    assert DigitsValue([c]) == 10 * DigitsValue([]) + (c as int - '0' as int);
  }

  /** Every INT token the tokenizer produces parses as an integer, so the
      "could not parse" error never arises on tokenizer output. */
  lemma StreamIntegersParse(input: string, origin: nat, n: nat)
    requires TokenAt(input, origin, n).Some? && TokenAt(input, origin, n).value.kind == INT
    ensures ParseInt(TokenAt(input, origin, n).value.literal).Some?
  {
    var p := PosAfter(input, origin, n).value;
    ScanNumber(input, p);
    var lit := Scan(input, p).token.literal;
    assert forall i | 0 <= i < |lit| :: lit[i] in lit;
  }

  /** The operand a prefix parse function reaches at token `t`: the node
      `parse_identifier` or `parse_integer_literal` builds, or None when no
      prefix parse function is registered for its kind. */
  function Leaf(t: Token): Option<Expression>
  {
    if t.kind == IDENT then Some(IdentifierExpr(Identifier(t, t.literal)))
    else if t.kind == INT then Some(IntegerLiteral(t, ParseInt(t.literal)))
    else None
  }

  /** The errors reaching operand `t` appends. */
  function LeafErrors(t: Token): seq<string>
  {
    if t.kind == IDENT then []
    else if t.kind == INT then (if ParseInt(t.literal).Some? then [] else [CouldNotParseMessage(t.literal)])
    else [NoPrefixMessage(t.kind)]
  }

  /** The kinds with `parse_prefix_expression` as prefix parse function. */
  predicate IsPrefixOperator(k: TokenKind)
  {
    k == BANG || k == MINUS
  }

  /** Token `k` of the stream held by `ts`. The sequence holds the tokens up
      to the first EOF, which then comes back forever; or, when the
      tokenizer raises, the tokens before the call that raises, after which
      there is none. */
  function Fetch(ts: seq<Token>, k: nat): Option<Token>
  {
    if k < |ts| then Some(ts[k])
    else if |ts| > 0 && ts[|ts| - 1].kind == EOF then Some(ts[|ts| - 1])
    else None
  }

  /** `ts` holds the tokenizer's stream from cursor `origin`: call `k` of
      `next_token` returns Fetch(ts, k), and raises where that is None. */
  ghost predicate IsStream(input: string, origin: nat, ts: seq<Token>)
  {
    forall k: nat {:trigger TokenAt(input, origin, k)} :: TokenAt(input, origin, k) == Fetch(ts, k)
  }

  /** Once a call of `next_token` has raised, no later call returns. */
  lemma {:induction false} RaiseIsFinal(input: string, origin: nat, n: nat, m: nat)
    requires PosAfter(input, origin, n).None? && n <= m
    ensures PosAfter(input, origin, m).None? && TokenAt(input, origin, m).None?
    decreases m - n
  {
    if n < m {
      RaiseIsFinal(input, origin, n + 1, m);
    }
  }

  /** Some sequence holds the tokenizer's stream from any cursor: the calls
      reach EOF or raise, since every other token consumes input. */
  lemma TokenizerStream(input: string, origin: nat) returns (ts: seq<Token>)
    ensures IsStream(input, origin, ts)
  {
    ts := StreamFrom(input, origin, 0, []);
  }

  /** The stream from call `n` on, the tokens before it being `acc`, none
      of them EOF. */
  lemma {:induction false} StreamFrom(input: string, origin: nat, n: nat, acc: seq<Token>) returns (ts: seq<Token>)
    requires PosAfter(input, origin, n).Some? && |acc| == n
    requires forall k | 0 <= k < n :: TokenAt(input, origin, k) == Some(acc[k]) && acc[k].kind != EOF
    ensures IsStream(input, origin, ts)
    decreases Remaining(input, PosAfter(input, origin, n).value)
  {
    var p := PosAfter(input, origin, n).value;
    match Scan(input, p)
    case Raise(_) =>
      ts := acc;
      assert TokenAt(input, origin, n).None? && PosAfter(input, origin, n + 1).None?;
      StreamRaisesAt(input, origin, acc);
    case Emit(t, q) =>
      assert TokenAt(input, origin, n) == Some(t);
      if t.kind == EOF {
        ScanEndOfInput(input, p);
        ts := acc + [t];
        StreamEndsAt(input, origin, acc, t);
      } else {
        ScanProgress(input, p);
        assert PosAfter(input, origin, n + 1) == Some(q);
        HeldExtends(input, origin, acc, t);
        ts := StreamFrom(input, origin, n + 1, acc + [t]);
      }
  }

  /** The tokens before a call that raises, none of them EOF, hold the
      whole stream. */
  lemma StreamRaisesAt(input: string, origin: nat, acc: seq<Token>)
    requires forall k | 0 <= k < |acc| :: TokenAt(input, origin, k) == Some(acc[k]) && acc[k].kind != EOF
    requires TokenAt(input, origin, |acc|).None? && PosAfter(input, origin, |acc| + 1).None?
    ensures IsStream(input, origin, acc)
  {
    forall k: nat
      ensures TokenAt(input, origin, k) == Fetch(acc, k)
    {
      if |acc| < k {
        RaiseIsFinal(input, origin, |acc| + 1, k);
      }
    }
  }

  /** The tokens before a call that returns EOF, and then that EOF, hold
      the whole stream. */
  lemma StreamEndsAt(input: string, origin: nat, acc: seq<Token>, t: Token)
    requires forall k | 0 <= k < |acc| :: TokenAt(input, origin, k) == Some(acc[k])
    requires TokenAt(input, origin, |acc|) == Some(t) && t == Token(EOF, "")
    ensures IsStream(input, origin, acc + [t])
  {
    forall k: nat
      ensures TokenAt(input, origin, k) == Fetch(acc + [t], k)
    {
      if k < |acc| {
        assert (acc + [t])[k] == acc[k];
      } else if |acc| < k {
        EofIsSticky(input, origin, |acc|, k);
      }
    }
  }

  /** The tokens before a call that returns `t`, none of them EOF, and
      then `t`. */
  lemma HeldExtends(input: string, origin: nat, acc: seq<Token>, t: Token)
    requires forall k | 0 <= k < |acc| :: TokenAt(input, origin, k) == Some(acc[k]) && acc[k].kind != EOF
    requires TokenAt(input, origin, |acc|) == Some(t) && t.kind != EOF
    ensures forall k | 0 <= k < |acc| + 1 :: TokenAt(input, origin, k) == Some((acc + [t])[k]) && (acc + [t])[k].kind != EOF
  {
    forall k | 0 <= k < |acc| + 1
      ensures TokenAt(input, origin, k) == Some((acc + [t])[k]) && (acc + [t])[k].kind != EOF
    {
      if k < |acc| {
        assert (acc + [t])[k] == acc[k];
      }
    }
  }

  /** The call of `next_token` after `n` calls, from cursor `p`: what it
      scans is token `n` of the stream, and the cursor it leaves is the
      one after `n + 1` calls. */
  lemma StreamStep(input: string, origin: nat, ts: seq<Token>, n: nat, p: nat)
    requires IsStream(input, origin, ts) && PosAfter(input, origin, n) == Some(p)
    ensures match Scan(input, p)
            case Emit(t, q) => Fetch(ts, n) == Some(t) && PosAfter(input, origin, n + 1) == Some(q)
            case Raise(_) => Fetch(ts, n).None?
  {
    assert TokenAt(input, origin, n) == Fetch(ts, n);
  }

  /** The cursor after `n` calls, as `ps` records it: the cursors after
      the calls up to the end of the stream held, then one further per
      call, as every call past the end of the input reads one more
      character that is not there. */
  function Cursor(ps: seq<nat>, n: nat): nat
    requires |ps| > 0
  {
    if n < |ps| then ps[n] else ps[|ps| - 1] + (n - |ps| + 1)
  }

  /** `ps` holds the cursor after each call of `next_token` from `origin`
      up to the end of the stream held; when that end is EOF, the cursor
      is then past the end of the input. */
  ghost predicate Cursors(input: string, origin: nat, ts: seq<Token>, ps: seq<nat>)
  {
    && |ps| == |ts| + 1
    && (forall n: nat {:trigger PosAfter(input, origin, n)} | n <= |ts| :: PosAfter(input, origin, n) == Some(ps[n]))
    && (Fetch(ts, |ts|).Some? ==> ts[|ts| - 1] == Token(EOF, "") && ps[|ts|] >= |input|)
  }

  /** Past the end of the input every call answers EOF and moves the
      cursor by one. */
  lemma ScanPastEnd(input: string, p: nat)
    requires p >= |input|
    ensures Scan(input, p) == Emit(Token(EOF, ""), p + 1)
  {
  }

  /** The cursors of the stream from `origin`, recorded once. */
  lemma TokenizerCursors(input: string, origin: nat, ts: seq<Token>) returns (ps: seq<nat>)
    requires IsStream(input, origin, ts)
    ensures Cursors(input, origin, ts, ps)
  {
    forall k | 0 <= k <= |ts|
      ensures PosAfter(input, origin, k).Some?
    {
      CursorDefined(input, origin, ts, k);
    }
    ps := seq(|ts| + 1, k requires 0 <= k <= |ts| => PosAfter(input, origin, k).value);
    if Fetch(ts, |ts|).Some? {
      var e := |ts| - 1;
      assert TokenAt(input, origin, e) == Fetch(ts, e);
      ScanEndOfInput(input, ps[e]);
      assert PosAfter(input, origin, e + 1) == Some(ps[e + 1]);
    }
  }

  /** No call up to the end of the stream held raises before it. */
  lemma {:induction false} CursorDefined(input: string, origin: nat, ts: seq<Token>, n: nat)
    requires IsStream(input, origin, ts) && n <= |ts|
    ensures PosAfter(input, origin, n).Some?
  {
    if n > 0 {
      CursorDefined(input, origin, ts, n - 1);
      assert TokenAt(input, origin, n - 1) == Fetch(ts, n - 1);
    }
  }

  /** The call of `next_token` with `n` tokens fetched: it emits token `n`
      of the stream and leaves the cursor at the next recorded one, or it
      raises where the stream has no token `n`. */
  lemma CursorStep(input: string, origin: nat, ts: seq<Token>, ps: seq<nat>, n: nat)
    requires IsStream(input, origin, ts) && Cursors(input, origin, ts, ps)
    requires n <= |ts| || Fetch(ts, n).Some?
    ensures match Scan(input, Cursor(ps, n))
            case Emit(t, q) => Fetch(ts, n) == Some(t) && q == Cursor(ps, n + 1)
            case Raise(_) => Fetch(ts, n).None?
  {
    if n < |ts| || (n == |ts| && Fetch(ts, n).None?) {
      assert PosAfter(input, origin, n) == Some(ps[n]);
      StreamStep(input, origin, ts, n, ps[n]);
      if n < |ts| {
        assert PosAfter(input, origin, n + 1) == Some(ps[n + 1]);
      }
    } else {
      ScanPastEnd(input, Cursor(ps, n));
    }
  }

  /** Stream tokens other than IDENT, INT and ILLEGAL are spelled by their
      kind's value, so a LET or RETURN token passes its statement's check. */
  lemma StreamLiteral(input: string, origin: nat, ts: seq<Token>, k: nat)
    requires IsStream(input, origin, ts) && Fetch(ts, k).Some?
    requires Fetch(ts, k).value.kind !in {IDENT, INT, ILLEGAL}
    ensures Fetch(ts, k).value.literal == Value(Fetch(ts, k).value.kind)
  {
    assert TokenAt(input, origin, k) == Fetch(ts, k);
    TokenAtLiteral(input, origin, k);
  }

  /** Once the stream has reached EOF, every later token is that EOF. */
  lemma StreamEofIsSticky(input: string, origin: nat, ts: seq<Token>, k: nat, m: nat)
    requires IsStream(input, origin, ts) && Fetch(ts, k).Some? && Fetch(ts, k).value.kind == EOF && k <= m
    ensures Fetch(ts, m) == Some(Token(EOF, ""))
  {
    assert TokenAt(input, origin, k) == Fetch(ts, k);
    ScanEndOfInput(input, PosAfter(input, origin, k).value);
    EofIsSticky(input, origin, k, m);
    assert TokenAt(input, origin, m) == Fetch(ts, m);
  }

  /** Where a loop that advances until the current token is `;` stops: how
      the run goes on and the stream position of the current token. */
  datatype Stop = Stop(halt: Halt, last: nat)

  /** The loop of `parse_let_statement` and `parse_return_statement` with
      token `k` current: it stops at the first `;`; at EOF it never stops
      (Diverged); it raises when the tokenizer does. */
  function SkipEnd(ts: seq<Token>, k: nat): (r: Stop)
    requires Fetch(ts, k + 1).Some?
    ensures k <= r.last
    ensures r.halt.Running? || r.halt.Diverged? || r.halt == Raised(TokenizerError)
    ensures r.halt.Running? ==> Fetch(ts, r.last + 1).Some? && Fetch(ts, r.last).value.kind == SEMICOLON
    decreases |ts| - k
  {
    var t := Fetch(ts, k).value;
    if t.kind == SEMICOLON then Stop(Running, k)
    else if t.kind == EOF then Stop(Diverged, k)
    else if Fetch(ts, k + 2).None? then Stop(Raised(TokenizerError), k + 1)
    else SkipEnd(ts, k + 1)
  }

  /** A skip that stops does so at the first `;` from token `k` on. */
  lemma {:induction false} SkipEndStopsAtFirst(ts: seq<Token>, k: nat)
    requires Fetch(ts, k + 1).Some?
    ensures var r := SkipEnd(ts, k);
            r.halt.Running? ==> forall j | k <= j < r.last :: Fetch(ts, j).Some? && Fetch(ts, j).value.kind != SEMICOLON
    decreases |ts| - k
  {
    var t := Fetch(ts, k).value;
    if t.kind != SEMICOLON && t.kind != EOF && Fetch(ts, k + 2).Some? {
      SkipEndStopsAtFirst(ts, k + 1);
    }
  }

  /** Every token from stream position `from` on is present and is not a
      `;`: a loop waiting for `;` from there never ends. */
  ghost predicate NoSemicolonFrom(input: string, origin: nat, from: int)
  {
    forall m: nat | from <= m :: TokenAt(input, origin, m).Some? && TokenAt(input, origin, m).value.kind != SEMICOLON
  }

  /** NoSemicolonFrom, read off the sequence that holds the stream. */
  ghost predicate NoSemicolonHeld(ts: seq<Token>, from: int)
  {
    forall m: nat | from <= m :: Fetch(ts, m).Some? && Fetch(ts, m).value.kind != SEMICOLON
  }

  /** On the tokenizer's stream, the skip diverges exactly when no `;` ever
      comes and the tokenizer never raises. */
  lemma SkipEndDiverges(input: string, origin: nat, ts: seq<Token>, k: nat)
    requires IsStream(input, origin, ts) && Fetch(ts, k + 1).Some?
    ensures SkipEnd(ts, k).halt.Diverged? <==> NoSemicolonFrom(input, origin, k)
  {
    SkipEndDivergesHeld(input, origin, ts, k);
    if NoSemicolonHeld(ts, k) {
      forall m: nat | k <= m
        ensures TokenAt(input, origin, m).Some? && TokenAt(input, origin, m).value.kind != SEMICOLON
      {
        assert TokenAt(input, origin, m) == Fetch(ts, m);
      }
    } else {
      var m: nat :| k <= m && !(Fetch(ts, m).Some? && Fetch(ts, m).value.kind != SEMICOLON);
      assert TokenAt(input, origin, m) == Fetch(ts, m);
    }
  }

  /** The skip from token `k` diverges exactly when every token from `k` on
      is present and is not a `;`. */
  lemma {:induction false} SkipEndDivergesHeld(input: string, origin: nat, ts: seq<Token>, k: nat)
    requires IsStream(input, origin, ts) && Fetch(ts, k + 1).Some?
    ensures SkipEnd(ts, k).halt.Diverged? <==> NoSemicolonHeld(ts, k)
    decreases |ts| - k
  {
    var t := Fetch(ts, k).value;
    if t.kind == SEMICOLON {
      assert Fetch(ts, k).value.kind == SEMICOLON;
    } else if t.kind == EOF {
      forall m: nat | k <= m
        ensures Fetch(ts, m).Some? && Fetch(ts, m).value.kind != SEMICOLON
      {
        StreamEofIsSticky(input, origin, ts, k, m);
      }
    } else if Fetch(ts, k + 2).Some? {
      SkipEndDivergesHeld(input, origin, ts, k + 1);
      assert SkipEnd(ts, k) == SkipEnd(ts, k + 1);
    }
  }

  /** What `parse_expression` gives with a token current: the expression,
      the stream position of its operand token, and the errors reaching
      that operand records. */
  datatype Parsed = Parsed(expression: Option<Expression>, leaf: nat, errors: seq<string>)

  /** `parse_expression` with token `i` current: each `!` or `-` wraps the
      expression after it, down to an operand token; None when the
      tokenizer raises on the way. */
  function ExpressionAt(ts: seq<Token>, i: nat): (r: Option<Parsed>)
    requires Fetch(ts, i + 1).Some?
    ensures r.Some? ==> i <= r.value.leaf && Fetch(ts, r.value.leaf + 1).Some?
    decreases |ts| - i
  {
    var t := Fetch(ts, i).value;
    if !IsPrefixOperator(t.kind) then Some(Parsed(Leaf(t), i, LeafErrors(t)))
    else if Fetch(ts, i + 2).None? then None
    else
      match ExpressionAt(ts, i + 1)
      case None => None
      case Some(p) => Some(p.(expression := Some(PrefixExpression(t, t.literal, p.expression))))
  }

  /** A parsed expression spans `!`/`-` operators up to its operand token,
      which is not one; the operand's errors are the ones recorded. The
      expression is None exactly for a lone operand with no prefix parse
      function, and every node of it passes its constructor's check. */
  lemma {:induction false} ExpressionShape(ts: seq<Token>, i: nat)
    requires Fetch(ts, i + 1).Some? && ExpressionAt(ts, i).Some?
    ensures var p := ExpressionAt(ts, i).value;
            && (forall j | i <= j < p.leaf :: Fetch(ts, j).Some? && IsPrefixOperator(Fetch(ts, j).value.kind))
            && Fetch(ts, p.leaf).Some? && !IsPrefixOperator(Fetch(ts, p.leaf).value.kind)
            && p.errors == LeafErrors(Fetch(ts, p.leaf).value)
            && (p.expression.None? <==> p.leaf == i && Fetch(ts, i).value.kind != IDENT && Fetch(ts, i).value.kind != INT)
            && (p.expression.Some? ==> ExpressionChecked(p.expression.value))
    decreases |ts| - i
  {
    if IsPrefixOperator(Fetch(ts, i).value.kind) {
      ExpressionShape(ts, i + 1);
    }
  }

  /** On the tokenizer's stream an operand records no error, except the
      "no prefix parse function" error of a token that has none. */
  lemma StreamOperandErrors(input: string, origin: nat, ts: seq<Token>, i: nat)
    requires IsStream(input, origin, ts) && Fetch(ts, i + 1).Some? && ExpressionAt(ts, i).Some?
    ensures var p := ExpressionAt(ts, i).value;
            var k := Fetch(ts, p.leaf).value.kind;
            p.errors == if k == IDENT || k == INT then [] else [NoPrefixMessage(k)]
  {
    ExpressionShape(ts, i);
    var leaf := ExpressionAt(ts, i).value.leaf;
    if Fetch(ts, leaf).value.kind == INT {
      assert TokenAt(input, origin, leaf) == Fetch(ts, leaf);
      StreamIntegersParse(input, origin, leaf);
    }
  }

  /** How one round of the loop of `parse_program` ends, from its call of
      `parse_statement` on: how the run goes on, the statement returned
      (None once halted), the errors recorded, and the stream position of
      the current token when `parse_statement` returns. */
  datatype Round = Round(halt: Halt, statement: Option<Statement>, errors: seq<string>, last: nat)

  /** How a whole `parse_program` call ends: how the run ended, the
      statements of the program and the errors recorded. */
  datatype Outcome = Outcome(halt: Halt, statements: seq<Statement>, errors: seq<string>)

  function Listed(s: Option<Statement>): seq<Statement>
  {
    if s.Some? then [s.value] else []
  }

  /** `parse_expression_statement` with token `i` current: the expression,
      then the `;` after it, if any, becomes current. */
  function ExpressionRound(ts: seq<Token>, i: nat): (r: Round)
    requires Fetch(ts, i + 1).Some?
    ensures r.halt.Running? ==> i <= r.last && Fetch(ts, r.last + 1).Some?
    ensures !r.halt.Running? ==> r.statement.None?
  {
    match ExpressionAt(ts, i)
    case None => Round(Raised(TokenizerError), None, [], i)
    case Some(p) =>
      var stmt := ExpressionStatement(Fetch(ts, i), p.expression);
      if Fetch(ts, p.leaf + 1).value.kind != SEMICOLON then Round(Running, Some(stmt), p.errors, p.leaf)
      else if Fetch(ts, p.leaf + 2).None? then Round(Raised(TokenizerError), None, p.errors, p.leaf + 1)
      else Round(Running, Some(stmt), p.errors, p.leaf + 1)
  }

  /** `parse_return_statement` with token `i` current: the constructor's
      check, then the skip to `;`. */
  function ReturnRound(ts: seq<Token>, i: nat): (r: Round)
    requires Fetch(ts, i + 1).Some?
    ensures r.halt.Running? ==> i <= r.last && Fetch(ts, r.last + 1).Some?
    ensures !r.halt.Running? ==> r.statement.None?
  {
    match NewReturnStatement(Fetch(ts, i).value)
    case Err(message) => Round(Raised(message), None, [], i)
    case Ok(stmt) =>
      var st := SkipEnd(ts, i);
      Round(st.halt, if st.halt.Running? then Some(stmt) else None, [], st.last)
  }

  /** `parse_let_statement` with token `i` current: the constructor's
      check, then an IDENT must follow; otherwise one error is recorded and
      token `i` stays current. */
  function LetRound(ts: seq<Token>, i: nat): (r: Round)
    requires Fetch(ts, i + 1).Some?
    ensures r.halt.Running? ==> i <= r.last && Fetch(ts, r.last + 1).Some?
    ensures !r.halt.Running? ==> r.statement.None?
  {
    match NewLetStatement(Fetch(ts, i).value, None, None)
    case Err(message) => Round(Raised(message), None, [], i)
    case Ok(stmt) =>
      var next := Fetch(ts, i + 1).value;
      if next.kind != IDENT then Round(Running, None, [ExpectedMessage(IDENT, next.kind)], i)
      else if Fetch(ts, i + 2).None? then Round(Raised(TokenizerError), None, [], i + 1)
      else NameRound(ts, i + 1, stmt)
  }

  /** A let that passes its constructor's check with a name after it ends
      as the round from that name. */
  lemma LetRoundNamed(ts: seq<Token>, i: nat, stmt: Statement)
    requires Fetch(ts, i + 2).Some? && NewLetStatement(Fetch(ts, i).value, None, None) == Ok(stmt)
    requires Fetch(ts, i + 1).value.kind == IDENT
    ensures LetRound(ts, i) == NameRound(ts, i + 1, stmt)
  {
  }

  /** The rest of `parse_let_statement` once its name, token `j`, is
      current: an `=` must follow, otherwise one error is recorded and the
      name stays current; then the skip to `;`. */
  function NameRound(ts: seq<Token>, j: nat, stmt: Statement): (r: Round)
    requires Fetch(ts, j + 1).Some? && stmt.LetStatement?
    ensures r.halt.Running? ==> j <= r.last && Fetch(ts, r.last + 1).Some?
    ensures !r.halt.Running? ==> r.statement.None?
  {
    var name := Fetch(ts, j).value;
    var next := Fetch(ts, j + 1).value;
    if next.kind != ASSIGN then Round(Running, None, [ExpectedMessage(ASSIGN, next.kind)], j)
    else if Fetch(ts, j + 2).None? then Round(Raised(TokenizerError), None, [], j + 1)
    else
      var st := SkipEnd(ts, j + 1);
      Round(st.halt, if st.halt.Running? then Some(stmt.(name := Some(Identifier(name, name.literal)))) else None,
            [], st.last)
  }

  /** `parse_statement` with token `i` current: a let, a return or an
      expression statement, chosen by the token's kind. */
  function StatementRound(ts: seq<Token>, i: nat): (r: Round)
    requires Fetch(ts, i + 1).Some?
    ensures r.halt.Running? ==> i <= r.last && Fetch(ts, r.last + 1).Some?
    ensures !r.halt.Running? ==> r.statement.None?
  {
    var k := Fetch(ts, i).value.kind;
    if k == LET then LetRound(ts, i)
    else if k == RETURN then ReturnRound(ts, i)
    else ExpressionRound(ts, i)
  }

  /** `parse_program` with token `i` current, having collected `stmts` and
      recorded `errors`: a round per statement, each followed by one
      `next_token`, until the current token is EOF. A round that stops the
      run ends it; so does a `next_token` that raises, after the round's
      statement has been appended. */
  function Run(ts: seq<Token>, i: nat, stmts: seq<Statement>, errors: seq<string>): Outcome
    requires Fetch(ts, i + 1).Some?
    decreases |ts| - i, 1
  {
    if Fetch(ts, i).value.kind == EOF then Outcome(Running, stmts, errors)
    else RunAfter(ts, i, stmts, errors)
  }

  /** The rest of `parse_program` from the round at token `i`, which is not
      EOF: the round's statement and errors are added, then the run ends or
      goes on after the round's last token. */
  function RunAfter(ts: seq<Token>, i: nat, stmts: seq<Statement>, errors: seq<string>): Outcome
    requires Fetch(ts, i + 1).Some? && Fetch(ts, i).value.kind != EOF
    decreases |ts| - i, 0
  {
    var r := StatementRound(ts, i);
    if !r.halt.Running? then Outcome(r.halt, stmts, errors + r.errors)
    else if Fetch(ts, r.last + 2).None? then
      Outcome(Raised(TokenizerError), stmts + Listed(r.statement), errors + r.errors)
    else Run(ts, r.last + 1, stmts + Listed(r.statement), errors + r.errors)
  }

  /** The run from token `i`, with `stmts` collected and `errors`
      recorded, ends as `o`. */
  ghost predicate RunEndsAs(ts: seq<Token>, i: nat, stmts: seq<Statement>, errors: seq<string>, o: Outcome)
    requires Fetch(ts, i + 1).Some?
  {
    Run(ts, i, stmts, errors) == o
  }

  /** One round of `parse_program`: the round at token `i` adds its
      statement and its errors to those before, then the run goes on after
      its last token, or ends. */
  lemma RoundStep(ts: seq<Token>, i: nat, stmts: seq<Statement>, errors: seq<string>, r: Round,
                  stmts': seq<Statement>, errors': seq<string>)
    requires Fetch(ts, i + 1).Some? && Fetch(ts, i).value.kind != EOF && StatementRound(ts, i) == r
    requires stmts' == stmts + Listed(r.statement) && errors' == errors + r.errors
    ensures !r.halt.Running? ==> Run(ts, i, stmts, errors) == Outcome(r.halt, stmts', errors')
    ensures r.halt.Running? && Fetch(ts, r.last + 2).None? ==>
              Run(ts, i, stmts, errors) == Outcome(Raised(TokenizerError), stmts', errors')
  {
    if !r.halt.Running? {
      assert Listed(r.statement) == [];
    }
  }

  /** A round that leaves the run going on, with a token after the one
      after its last: the run goes on from there with the round's
      statement and errors added. */
  lemma RoundGoesOn(ts: seq<Token>, i: nat, stmts: seq<Statement>, errors: seq<string>, r: Round,
                    j: nat, stmts': seq<Statement>, errors': seq<string>)
    requires Fetch(ts, i + 1).Some? && Fetch(ts, i).value.kind != EOF && StatementRound(ts, i) == r
    requires r.halt.Running? && Fetch(ts, r.last + 2).Some? && j == r.last + 1
    requires stmts' == stmts + Listed(r.statement) && errors' == errors + r.errors
    ensures Run(ts, i, stmts, errors) == Run(ts, j, stmts', errors')
  {
  }

  /** The statement of a round passes its constructor's checks and answers
      the literal of the token the round started at; its kind follows that
      token's kind. */
  lemma RoundShape(ts: seq<Token>, i: nat)
    requires Fetch(ts, i + 1).Some?
    ensures var r, t := StatementRound(ts, i), Fetch(ts, i).value;
            && (r.statement.Some? ==>
                  StatementChecked(r.statement.value) && StatementTokenLiteral(r.statement.value) == t.literal)
            && (t.kind == LET ==> r.statement.None? || r.statement.value.LetStatement?)
            && (r.halt.Running? && t.kind == RETURN ==> r.statement.Some? && r.statement.value.ReturnStatement?)
            && (r.halt.Running? && t.kind != LET && t.kind != RETURN ==>
                  r.statement.Some? && r.statement.value.ExpressionStatement?)
  {
    var t := Fetch(ts, i).value;
    if t.kind != LET && t.kind != RETURN && ExpressionAt(ts, i).Some? {
      ExpressionShape(ts, i);
    }
  }

  /** On the tokenizer's stream no round fails a constructor's check: it
      goes on, diverges, or stops where the tokenizer raises. */
  lemma StreamRoundChecks(input: string, origin: nat, ts: seq<Token>, i: nat)
    requires IsStream(input, origin, ts) && Fetch(ts, i + 1).Some?
    ensures NoCheckFailure(StatementRound(ts, i).halt)
  {
    var t := Fetch(ts, i).value;
    if t.kind == LET || t.kind == RETURN {
      StreamLiteral(input, origin, ts, i);
    }
  }

  /** On the tokenizer's stream `parse_program` never fails a constructor's
      check, and every statement it adds passes all of them. */
  lemma {:induction false} RunShape(input: string, origin: nat, ts: seq<Token>, i: nat,
                                    stmts: seq<Statement>, errors: seq<string>)
    requires IsStream(input, origin, ts) && Fetch(ts, i + 1).Some?
    ensures NoCheckFailure(Run(ts, i, stmts, errors).halt)
    ensures forall s | s in Run(ts, i, stmts, errors).statements :: s in stmts || StatementChecked(s)
    decreases |ts| - i
  {
    if Fetch(ts, i).value.kind != EOF {
      var r := StatementRound(ts, i);
      StreamRoundChecks(input, origin, ts, i);
      RoundShape(ts, i);
      if r.halt.Running? && Fetch(ts, r.last + 2).Some? {
        RunShape(input, origin, ts, r.last + 1, stmts + Listed(r.statement), errors + r.errors);
      }
    }
  }

  /** A let whose next token is not an identifier records one error,
      expecting IDENT, and gives no statement; the LET stays current, so
      the loop goes on at the token after it. */
  lemma LetWithoutName(ts: seq<Token>, i: nat)
    requires Fetch(ts, i + 1).Some? && Fetch(ts, i) == Some(Token(LET, "let"))
    requires Fetch(ts, i + 1).value.kind != IDENT
    ensures StatementRound(ts, i) == Round(Running, None, [ExpectedMessage(IDENT, Fetch(ts, i + 1).value.kind)], i)
  {
  }

  /** A let with a name but no `=` after it records one error, expecting
      ASSIGN, and gives no statement; the name stays current, so the loop
      goes on at the token after it. */
  lemma LetWithoutAssign(ts: seq<Token>, i: nat)
    requires Fetch(ts, i + 2).Some? && Fetch(ts, i) == Some(Token(LET, "let"))
    requires Fetch(ts, i + 1).value.kind == IDENT && Fetch(ts, i + 2).value.kind != ASSIGN
    ensures StatementRound(ts, i) == Round(Running, None, [ExpectedMessage(ASSIGN, Fetch(ts, i + 2).value.kind)], i + 1)
  {
  }

  /** An operand followed by `;` is an expression statement of its own,
      with the operand's errors; the `;` ends the round. */
  lemma OperandStatement(ts: seq<Token>, i: nat)
    requires Fetch(ts, i + 2).Some? && Fetch(ts, i + 1).value.kind == SEMICOLON
    requires var k := Fetch(ts, i).value.kind; k != LET && k != RETURN && !IsPrefixOperator(k)
    ensures var t := Fetch(ts, i).value;
            StatementRound(ts, i) == Round(Running, Some(ExpressionStatement(Some(t), Leaf(t))), LeafErrors(t), i + 1)
  {
  }

  /** An operand with no `;` after it is an expression statement of its
      own, with the operand's errors; the operand ends the round. */
  lemma OperandAlone(ts: seq<Token>, i: nat)
    requires Fetch(ts, i + 1).Some? && Fetch(ts, i + 1).value.kind != SEMICOLON
    requires var k := Fetch(ts, i).value.kind; k != LET && k != RETURN && !IsPrefixOperator(k)
    ensures var t := Fetch(ts, i).value;
            StatementRound(ts, i) == Round(Running, Some(ExpressionStatement(Some(t), Leaf(t))), LeafErrors(t), i)
  {
  }

  /** `Parser`: a tokenizer with two tokens of lookahead, the errors found
      so far, and the prefix parse function table. */
  class Parser {
    const tokenizer: Tokenizer
    ghost const origin: nat
    /** The tokenizer's stream from `origin`. */
    ghost const ts: seq<Token>
    /** The tokenizer's cursor after each call. */
    ghost const ps: seq<nat>
    var errors: seq<string>
    var currentToken: Option<Token>
    var peekToken: Option<Token>
    var prefixParseFunctions: map<TokenKind, PrefixParseFn>
    /** The kinds with an infix parse function; none is ever registered. */
    var infixKinds: set<TokenKind>
    var halted: Halt
    /** How many tokens have been fetched from the tokenizer. */
    ghost var fetched: nat

    /** Until a parse halts, the lookahead tokens are the last two tokens
        fetched from the stream, and the tokenizer's cursor is where that
        many calls of `next_token` leave it. */
    ghost predicate Valid()
      reads tokenizer, this`halted, this`fetched, this`peekToken, this`currentToken
    {
      && tokenizer.Valid()
      && IsStream(tokenizer.input, origin, ts)
      && Cursors(tokenizer.input, origin, ts, ps)
      && (halted.Running? ==>
            && (fetched <= |ts| || Fetch(ts, fetched).Some?)
            && tokenizer.position == Cursor(ps, fetched)
            && peekToken == (if fetched >= 1 then Fetch(ts, fetched - 1) else None)
            && currentToken == (if fetched >= 2 then Fetch(ts, fetched - 2) else None))
    }

    /** A parser as `__init__` leaves it: primed, not halted, with the
        standard prefix table. */
    ghost predicate Ready()
      reads tokenizer, this`halted, this`fetched, this`peekToken, this`currentToken
      reads this`prefixParseFunctions
    {
      Valid() && halted.Running? && fetched >= 2 && Fetch(ts, fetched - 1).Some? &&
      prefixParseFunctions == PrefixTable
    }

    /** The stream position of the current token. */
    ghost function Current(): nat
      reads this`fetched
      requires fetched >= 2
    {
      fetched - 2
    }

    /** The termination measure: how far the fetches are from the end of
        the stream held. */
    ghost function Left(): nat
      reads this`fetched
    {
      if fetched <= |ts| + 2 then |ts| + 2 - fetched else 0
    }

    /** What every parsing method keeps: the tables, and the tokens fetched
        and errors reported are only ever extended. */
    twostate predicate Continues()
      reads this, tokenizer
    {
      && Valid()
      && prefixParseFunctions == old(prefixParseFunctions)
      && infixKinds == old(infixKinds)
      && old(fetched) <= fetched
      && old(errors) <= errors
    }

    /** Parsing one expression from the state before ends as ExpressionAt
        at the token current then: the operand is now current and its
        errors were appended; or the tokenizer raised and nothing was
        recorded. */
    twostate predicate ExpressionParsed(new r: Option<Expression>)
      reads this, tokenizer
    {
      && old(fetched) >= 2 && Fetch(ts, old(fetched) - 1).Some?
      && (halted.Running? <==> ExpressionAt(ts, old(fetched) - 2).Some?)
      && (halted.Running? ==>
            var p := ExpressionAt(ts, old(fetched) - 2).value;
            r == p.expression && fetched - 2 == p.leaf && errors == old(errors) + p.errors)
      && (!halted.Running? ==> halted == Raised(TokenizerError) && errors == old(errors))
    }

    constructor (tokenizer: Tokenizer)
      requires tokenizer.Valid()
      modifies tokenizer
      ensures this.tokenizer == tokenizer && origin == old(tokenizer.position)
      ensures Valid() && errors == []
      ensures prefixParseFunctions == PrefixTable && infixKinds == {}
      ensures halted.Running? <==> Fetch(ts, 1).Some?
      ensures halted.Running? ==>
                Ready() && Current() == 0 &&
                currentToken == TokenAt(tokenizer.input, origin, 0) &&
                peekToken == TokenAt(tokenizer.input, origin, 1)
      ensures !halted.Running? ==> halted == Raised(TokenizerError)
    {
      this.tokenizer := tokenizer;
      origin := tokenizer.position;
      ghost var stream := TokenizerStream(tokenizer.input, tokenizer.position);
      ts := stream;
      ghost var cursors := TokenizerCursors(tokenizer.input, tokenizer.position, stream);
      ps := cursors;
      assert PosAfter(tokenizer.input, tokenizer.position, 0) == Some(cursors[0]);
      errors := [];
      currentToken := None;
      peekToken := None;
      prefixParseFunctions := map[];
      infixKinds := {};
      halted := Running;
      fetched := 0;
      new;
      RegisterPrefix(IDENT, ParseIdentifierFn);
      RegisterPrefix(INT, ParseIntegerLiteralFn);
      RegisterPrefix(BANG, ParsePrefixExpressionFn);
      RegisterPrefix(MINUS, ParsePrefixExpressionFn);
      InitTokens();
    }

    /** `next_token`: shift the lookahead by one token. */
    method NextToken()
      requires Valid() && halted.Running?
      modifies this`currentToken, this`peekToken, this`fetched, this`halted, tokenizer
      ensures Continues() && errors == old(errors)
      ensures currentToken == old(peekToken)
      ensures halted.Running? <==> Fetch(ts, old(fetched)).Some?
      ensures halted.Running? ==> fetched == old(fetched) + 1
      ensures !halted.Running? ==> halted == Raised(TokenizerError)
    {
      ghost var n := fetched;
      currentToken := peekToken;
      var t := Pull(n);
      match t {
        case Ok(tok) =>
          peekToken := Some(tok);
          fetched := n + 1;
        case Err(message) =>
          halted := Raised(message);
      }
    }

    /** The call of the tokenizer's `next_token`: it returns the next
        token of the stream and moves the cursor past it, or raises where
        the stream has no next token. */
    method Pull(ghost n: nat) returns (t: Result<Token>)
      requires tokenizer.Valid() && IsStream(tokenizer.input, origin, ts) && Cursors(tokenizer.input, origin, ts, ps)
      requires (n <= |ts| || Fetch(ts, n).Some?) && tokenizer.position == Cursor(ps, n)
      modifies tokenizer
      ensures tokenizer.Valid()
      ensures t.Ok? <==> Fetch(ts, n).Some?
      ensures t.Ok? ==> Fetch(ts, n) == Some(t.value) && tokenizer.position == Cursor(ps, n + 1)
      ensures t.Err? ==> t.error == TokenizerError
    {
      CursorStep(tokenizer.input, origin, ts, ps, n);
      t := tokenizer.NextToken();
    }

    /** `_init_tokens`: fetch the first two tokens. */
    method InitTokens()
      requires Valid() && halted.Running? && fetched == 0
      modifies this, tokenizer
      ensures Continues() && errors == old(errors)
      ensures halted.Running? <==> Fetch(ts, 1).Some?
      ensures halted.Running? ==> fetched == 2
      ensures !halted.Running? ==> halted == Raised(TokenizerError)
    {
      NextToken();
      if halted.Running? {
        NextToken();
      }
    }

    /** `register_prefix`. */
    method RegisterPrefix(k: TokenKind, fn: PrefixParseFn)
      modifies this`prefixParseFunctions
      ensures prefixParseFunctions == old(prefixParseFunctions)[k := fn]
    {
      prefixParseFunctions := prefixParseFunctions[k := fn];
    }

    /** `register_infix`, for a kind and nothing more: no infix parse
        function exists yet. */
    method RegisterInfix(k: TokenKind)
      modifies this`infixKinds
      ensures infixKinds == old(infixKinds) + {k}
    {
      infixKinds := infixKinds + {k};
    }

    /** `peek_token_is`. */
    function PeekTokenIs(k: TokenKind): bool
      reads this
      requires peekToken.Some?
    {
      peekToken.value.kind == k
    }

    /** `current_token_is`. */
    function CurrentTokenIs(k: TokenKind): bool
      reads this
      requires peekToken.Some? && currentToken.Some?
    {
      currentToken.value.kind == k
    }

    /** `_is_end_of_statement`: no current token, or EOF. */
    function IsEndOfStatement(): bool
      reads this
    {
      currentToken.None? || currentToken.value.kind == EOF
    }

    /** `peek_error`. */
    method PeekError(k: TokenKind)
      requires peekToken.Some?
      modifies this`errors
      ensures errors == old(errors) + [ExpectedMessage(k, peekToken.value.kind)]
    {
      errors := errors + [ExpectedMessage(k, peekToken.value.kind)];
    }

    /** `no_prefix_parser_error`. */
    method NoPrefixParserError(k: TokenKind)
      modifies this`errors
      ensures errors == old(errors) + [NoPrefixMessage(k)]
    {
      errors := errors + [NoPrefixMessage(k)];
    }

    /** `expect_peek`: advance when the next token has kind `k`, otherwise
        report it and stay. */
    method ExpectPeek(k: TokenKind) returns (ok: bool)
      requires Ready()
      modifies this, tokenizer
      ensures Continues()
      ensures ok <==> old(peekToken).value.kind == k
      ensures ok ==> currentToken == old(peekToken) && errors == old(errors)
      ensures ok ==> (halted.Running? <==> Fetch(ts, old(fetched)).Some?)
      ensures ok && halted.Running? ==> Ready() && fetched == old(fetched) + 1
      ensures ok && !halted.Running? ==> halted == Raised(TokenizerError)
      ensures !ok ==> Ready() && fetched == old(fetched) &&
                      errors == old(errors) + [ExpectedMessage(k, old(peekToken).value.kind)]
    {
      if PeekTokenIs(k) {
        NextToken();
        ok := true;
      } else {
        PeekError(k);
        ok := false;
      }
    }

    /** The loop of `parse_let_statement` and `parse_return_statement`,
        from the current token at stream position `k`: advance until the
        current token is `;`. When the current token is EOF the source
        loops forever; the model stops with Diverged. */
    method AdvanceToSemicolon(ghost k: nat) returns (ghost r: nat)
      requires Ready() && Current() == k
      modifies this, tokenizer
      ensures Continues() && errors == old(errors)
      ensures SkipEnd(ts, k) == Stop(halted, r)
      ensures halted.Running? ==> Ready() && Current() == r && currentToken.value.kind == SEMICOLON
      ensures halted.Diverged? ==> NoSemicolonFrom(tokenizer.input, origin, k)
    {
      r := k;
      while currentToken.value.kind != SEMICOLON
        invariant Ready() && Continues() && errors == old(errors)
        invariant Current() == r && k <= r && SkipEnd(ts, r) == SkipEnd(ts, k)
        decreases Left()
      {
        if currentToken.value.kind == EOF {
          halted := Diverged;
          SkipEndDiverges(tokenizer.input, origin, ts, k);
          return;
        }
        NextToken();
        r := r + 1;
        if !halted.Running? {
          return;
        }
      }
    }

    /** `parse_let_statement`, from the current token at stream position
        `i`: it ends as LetRound at `i`, and `r` is where the current token
        then is. */
    method ParseLetStatement(ghost i: nat) returns (s: Option<Statement>, ghost added: seq<string>, ghost r: nat)
      requires Ready() && Current() == i
      modifies this, tokenizer
      ensures Continues() && errors == old(errors) + added
      ensures halted.Running? ==> Ready() && Current() == r
      ensures LetRound(ts, i) == Round(halted, s, added, r)
    {
      var stmt := NewLetStatement(currentToken.value, None, None);
      if stmt.Err? {
        halted := Raised(stmt.error);
        return None, [], i;
      }
      var ok := ExpectPeek(IDENT);
      if !ok {
        return None, [ExpectedMessage(IDENT, Fetch(ts, i + 1).value.kind)], i;
      }
      if !halted.Running? {
        return None, [], i + 1;
      }
      LetRoundNamed(ts, i, stmt.value);
      s, added, r := ParseLetName(stmt.value, i + 1);
    }

    /** The rest of `parse_let_statement` once its name, at stream position
        `j`, is current: it ends as NameRound at `j`. */
    method ParseLetName(stmt: Statement, ghost j: nat) returns (s: Option<Statement>, ghost added: seq<string>, ghost r: nat)
      requires Ready() && Current() == j && currentToken.value.kind == IDENT && stmt.LetStatement?
      modifies this, tokenizer
      ensures Continues() && errors == old(errors) + added
      ensures halted.Running? ==> Ready() && Current() == r
      ensures NameRound(ts, j, stmt) == Round(halted, s, added, r)
    {
      var name := NewIdentifier(currentToken.value, currentToken.value.literal);
      var ok := ExpectPeek(ASSIGN);
      if !ok {
        return None, [ExpectedMessage(ASSIGN, Fetch(ts, j + 1).value.kind)], j;
      }
      if !halted.Running? {
        return None, [], j + 1;
      }
      added := [];
      r := AdvanceToSemicolon(j + 1);
      if !halted.Running? {
        return None, [], r;
      }
      s := Some(stmt.(name := Some(name.value)));
    }

    /** `parse_return_statement`, from the current token at stream position
        `i`: it ends as ReturnRound at `i`, recording nothing. */
    method ParseReturnStatement(ghost i: nat) returns (s: Option<Statement>, ghost r: nat)
      requires Ready() && Current() == i
      modifies this, tokenizer
      ensures Continues() && errors == old(errors)
      ensures halted.Running? ==> Ready() && Current() == r
      ensures ReturnRound(ts, i) == Round(halted, s, [], r)
    {
      var stmt := NewReturnStatement(currentToken.value);
      if stmt.Err? {
        halted := Raised(stmt.error);
        return None, i;
      }
      r := AdvanceToSemicolon(i);
      if !halted.Running? {
        return None, r;
      }
      s := Some(stmt.value);
    }

    /** `parse_identifier`: the identifier for the current token. Its
        constructor raises unless that token is IDENT. */
    method ParseIdentifier() returns (r: Result<Expression>)
      requires Ready()
      ensures r.Ok? <==> currentToken.value.kind == IDENT
      ensures r.Ok? ==> r == Ok(IdentifierExpr(Identifier(currentToken.value, currentToken.value.literal)))
      ensures r.Ok? ==> ExpressionParsed(Some(r.value))
    {
      var id := NewIdentifier(currentToken.value, currentToken.value.literal);
      if id.Err? {
        return Err(id.error);
      }
      r := Ok(IdentifierExpr(id.value));
    }

    /** `parse_integer_literal`: the literal's value, or an error when it
        does not parse. Its constructor raises unless the token is INT. */
    method ParseIntegerLiteral() returns (r: Result<Expression>)
      requires Ready()
      modifies this`errors
      ensures r.Ok? <==> currentToken.value.kind == INT
      ensures r.Ok? ==> r == Ok(IntegerLiteral(currentToken.value, ParseInt(currentToken.value.literal)))
      ensures r.Ok? ==> ExpressionParsed(Some(r.value))
      ensures r.Err? ==> errors == old(errors)
    {
      var lit := NewIntegerLiteral(currentToken.value, None);
      if lit.Err? {
        return Err(lit.error);
      }
      var node := lit.value;
      var value := ParseInt(currentToken.value.literal);
      if value.Some? {
        node := node.(value := value);
      } else {
        errors := errors + [CouldNotParseMessage(currentToken.value.literal)];
      }
      r := Ok(node);
    }

    /** `parse_expression`: look up the current token's prefix parse
        function and call it; the priority is not used. */
    method ParseExpression(priority: Priority) returns (r: Option<Expression>)
      requires Ready()
      modifies this, tokenizer
      ensures Continues() && ExpressionParsed(r)
      ensures halted.Running? ==> Ready()
      decreases Left(), 2
    {
      var k := currentToken.value.kind;
      if k !in prefixParseFunctions {
        NoPrefixParserError(k);
        return None;
      }
      r := InvokePrefix(prefixParseFunctions[k]);
    }

    /** `prefix()`: call the prefix parse function the table gave for the
        current token. */
    method InvokePrefix(fn: PrefixParseFn) returns (r: Option<Expression>)
      requires Ready() && currentToken.value.kind in PrefixTable && fn == PrefixTable[currentToken.value.kind]
      modifies this, tokenizer
      ensures Continues() && ExpressionParsed(r)
      ensures halted.Running? ==> Ready()
      decreases Left(), 1
    {
      match fn {
        case ParseIdentifierFn =>
          var e := ParseIdentifier();
          r := Some(e.value);
        case ParseIntegerLiteralFn =>
          var e := ParseIntegerLiteral();
          r := Some(e.value);
        case ParsePrefixExpressionFn =>
          var e := ParsePrefixExpression();
          r := Some(e);
      }
    }

    /** `parse_prefix_expression`: the operator, then the expression after
        it as its operand. */
    method ParsePrefixExpression() returns (e: Expression)
      requires Ready() && IsPrefixOperator(currentToken.value.kind)
      modifies this, tokenizer
      ensures Continues() && ExpressionParsed(Some(e))
      ensures halted.Running? ==> Ready()
      ensures e.PrefixExpression? && e.token == old(currentToken).value && e.operator == old(currentToken).value.literal
      decreases Left(), 0
    {
      e := PrefixExpression(currentToken.value, currentToken.value.literal, None);
      NextToken();
      if !halted.Running? {
        return;
      }
      var right := ParseExpression(PREFIX);
      e := e.(right := right);
    }

    /** `parse_expression_statement`, from the current token at stream
        position `i`: it ends as ExpressionRound at `i`, and `s` is the
        statement built. */
    method ParseExpressionStatement(ghost i: nat) returns (s: Statement, ghost added: seq<string>, ghost r: nat)
      requires Ready() && Current() == i
      modifies this, tokenizer
      ensures Continues() && errors == old(errors) + added
      ensures halted.Running? ==> Ready() && Current() == r
      ensures s.ExpressionStatement? && s.firstToken == old(currentToken)
      ensures ExpressionRound(ts, i) == Round(halted, if halted.Running? then Some(s) else None, added, r)
    {
      s := ExpressionStatement(currentToken, None);
      var expression := ParseExpression(LOWEST);
      if !halted.Running? {
        return s, [], i;
      }
      ghost var p := ExpressionAt(ts, i).value;
      added, r := p.errors, p.leaf;
      if expression.Some? {
        s := s.(expression := expression);
      }
      if PeekTokenIs(SEMICOLON) {
        NextToken();
        r := r + 1;
      }
    }

    /** `parse_statement`, from the current token at stream position `i`:
        it ends as StatementRound at `i`. */
    method ParseStatement(ghost i: nat) returns (s: Option<Statement>, ghost added: seq<string>, ghost r: nat)
      requires Ready() && Current() == i
      modifies this, tokenizer
      ensures Continues() && errors == old(errors) + added
      ensures halted.Running? ==> Ready() && Current() == r
      ensures StatementRound(ts, i) == Round(halted, s, added, r)
      ensures NoCheckFailure(halted)
      ensures s.Some? ==>
                StatementChecked(s.value) && StatementTokenLiteral(s.value) == old(currentToken).value.literal
    {
      ghost var round := StatementRound(ts, i);
      if currentToken.value.kind == LET {
        assert round == LetRound(ts, i);
        s, added, r := ParseLetStatement(i);
      } else if currentToken.value.kind == RETURN {
        assert round == ReturnRound(ts, i);
        s, r := ParseReturnStatement(i);
        added := [];
      } else {
        assert round == ExpressionRound(ts, i);
        var stmt;
        stmt, added, r := ParseExpressionStatement(i);
        s := if halted.Running? then Some(stmt) else None;
      }
      RoundShape(ts, i);
      StreamRoundChecks(tokenizer.input, origin, ts, i);
    }

    /** One round of the `parse_program` loop from stream position `i`,
        with `stmts` collected and `recorded` errors so far: parse the
        statement at the current token, then move past its last token. */
    method ParseProgramRound(ghost i: nat, ghost stmts: seq<Statement>, ghost recorded: seq<string>)
      returns (stmt: Option<Statement>)
      requires Ready() && Current() == i && currentToken.value.kind != EOF && errors == recorded
      modifies this, tokenizer
      ensures Continues() && NoCheckFailure(halted)
      ensures stmt.Some? ==>
                StatementChecked(stmt.value) && StatementTokenLiteral(stmt.value) == old(currentToken).value.literal
      ensures halted.Running? ==>
                Ready() && i < Current() &&
                Run(ts, i, stmts, recorded) == Run(ts, Current(), stmts + Listed(stmt), errors)
      ensures !halted.Running? ==> Run(ts, i, stmts, recorded) == Outcome(halted, stmts + Listed(stmt), errors)
    {
      ghost var added, last;
      stmt, added, last := ParseStatement(i);
      ghost var r := Round(halted, stmt, added, last);
      RoundStep(ts, i, stmts, recorded, r, stmts + Listed(stmt), errors);
      if !halted.Running? {
        return;
      }
      NextToken();
      if halted.Running? {
        RoundGoesOn(ts, i, stmts, recorded, r, Current(), stmts + Listed(stmt), errors);
      }
    }

    /** `parse_program`: statements until the current token is EOF. The
        statements returned, the errors recorded and how the run ends are
        exactly Run from the current token. */
    method ParseProgram() returns (p: Program)
      requires Ready()
      modifies this, tokenizer
      ensures Continues() && NoCheckFailure(halted)
      ensures RunEndsAs(ts, old(Current()), [], old(errors), Outcome(halted, p.statements, errors))
      ensures halted.Running? ==> currentToken.Some? && currentToken.value.kind == EOF
      ensures forall i | 0 <= i < |p.statements| :: StatementChecked(p.statements[i])
    {
      p := Program([]);
      ghost var o, e := Current(), errors;
      while !IsEndOfStatement()
        invariant Ready() && Continues()
        invariant RunEndsAs(ts, Current(), p.statements, errors, Run(ts, o, [], e))
        invariant forall i | 0 <= i < |p.statements| :: StatementChecked(p.statements[i])
        decreases Left()
      {
        ghost var before := p.statements;
        var stmt := ParseProgramRound(Current(), p.statements, errors);
        if stmt.Some? {
          p := Program(p.statements + [stmt.value]);
        }
        assert p.statements == before + Listed(stmt);
        if !halted.Running? {
          return;
        }
      }
    }
  }
}
