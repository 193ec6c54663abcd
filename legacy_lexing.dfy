/** The lexer of the earlier snapshot (ponkey/src/ponkey/lexer.py).

    It differs from the current tokenizer in three checkable ways: the
    current character is a string that is empty at the end of the input
    (rather than None), only `= + ( ) { } , ;` are punctuation (no `==`,
    `!=`, `-`, `!`, `*`, `/`, `<`, `>`), and an identifier or number that
    runs into the end of the input ends cleanly instead of raising. So its
    `next_token` is total: Scan returns a token and the next cursor.

    The character classes and run ends are the ones of module Lexing. */
module LegacyLexing {
  import opened Wrappers
  import opened Tokens
  import Lexing
  import LegacyTokens

  /** The punctuation tokens: `=` is always ASSIGN, whatever follows it. */
  function Punctuation(c: char): Option<TokenKind>
  {
    match c
    case '=' => Some(ASSIGN)
    case '+' => Some(PLUS)
    case '(' => Some(LPAREN)
    case ')' => Some(RPAREN)
    case '{' => Some(LBRACE)
    case '}' => Some(RBRACE)
    case ',' => Some(COMMA)
    case ';' => Some(SEMICOLON)
    case _ => None
  }

  /** What one `next_token` call from a cursor at `pos` returns, and where
      it leaves the cursor. */
  datatype Step = Step(token: Token, next: nat)

  /** The specification of `Lexer.next_token`. */
  function Scan(input: string, pos: nat): Step
  {
    var q := Lexing.WhitespaceEnd(input, pos);
    if q >= |input| then Step(Token(EOF, ""), q + 1)
    else
      var c := input[q];
      if Punctuation(c).Some? then Step(Token(Punctuation(c).value, [c]), q + 1)
      else if Lexing.IsLetterChar(c) then
        var e := Lexing.LetterRunEnd(input, q);
        Step(Token(LegacyTokens.LookupTable(input[q..e]), input[q..e]), e)
      else if Lexing.IsDigitChar(c) then
        var e := Lexing.DigitRunEnd(input, q);
        Step(Token(INT, input[q..e]), e)
      else Step(Token(ILLEGAL, [c]), q + 1)
  }

  /** The lexer answers EOF exactly when nothing but whitespace is left,
      and then returns `Token(EOF, "")` and leaves the cursor past the end. */
  lemma ScanEndOfInput(input: string, pos: nat)
    ensures Scan(input, pos).token.kind == EOF <==>
              forall i | pos <= i < |input| :: Lexing.IsWhitespace(input[i])
    ensures Scan(input, pos).token.kind == EOF ==>
              Scan(input, pos).token.literal == "" && Scan(input, pos).next > |input|
  {
    var q := Lexing.WhitespaceEnd(input, pos);
    if q < |input| {
      assert !Lexing.IsWhitespace(input[q]);
      var c := input[q];
      if Lexing.IsLetterChar(c) {
        assert LegacyTokens.LookupTable(input[q..Lexing.LetterRunEnd(input, q)]) != EOF;
      }
    }
  }

  /** Every token other than EOF consumes at least one character. */
  lemma ScanProgress(input: string, pos: nat)
    requires Scan(input, pos).token.kind != EOF
    ensures pos < Scan(input, pos).next <= |input|
    ensures Lexing.Remaining(input, Scan(input, pos).next) < Lexing.Remaining(input, pos)
  {
    ScanEndOfInput(input, pos);
  }

  /** A keyword token carries its keyword as its literal. */
  lemma ScanKeywordLiteral(input: string, pos: nat)
    requires IsKeyword(Scan(input, pos).token.kind)
    ensures Scan(input, pos).token.literal == Value(Scan(input, pos).token.kind)
  {
    var q := Lexing.WhitespaceEnd(input, pos);
    if q < |input| && Punctuation(input[q]).None? && Lexing.IsLetterChar(input[q]) {
      LegacyTokens.LookupTableKeywords(input[q..Lexing.LetterRunEnd(input, q)]);
    }
  }

  /** An identifier is the maximal run of letters after the whitespace,
      classified by the keyword table, whether or not the input ends
      right after it. */
  lemma ScanIdentifier(input: string, pos: nat)
    requires Lexing.WhitespaceEnd(input, pos) < |input|
    requires Lexing.IsLetterChar(input[Lexing.WhitespaceEnd(input, pos)])
    ensures var q := Lexing.WhitespaceEnd(input, pos);
            var s := Scan(input, pos);
            && q < s.next <= |input| && s.next == Lexing.LetterRunEnd(input, q)
            && s.token == Token(LegacyTokens.LookupTable(input[q..s.next]), input[q..s.next])
            && (forall i | q <= i < s.next :: Lexing.IsLetterChar(input[i]))
            && (s.next == |input| || !Lexing.IsLetterChar(input[s.next]))
  {
    var q := Lexing.WhitespaceEnd(input, pos);
    assert Punctuation(input[q]).None?;
  }

  /** A number is the maximal run of digits after the whitespace, of kind
      INT, whether or not the input ends right after it. */
  lemma ScanNumber(input: string, pos: nat)
    requires Lexing.WhitespaceEnd(input, pos) < |input|
    requires Lexing.IsDigitChar(input[Lexing.WhitespaceEnd(input, pos)])
    ensures var q := Lexing.WhitespaceEnd(input, pos);
            var s := Scan(input, pos);
            && q < s.next <= |input| && s.next == Lexing.DigitRunEnd(input, q)
            && s.token == Token(INT, input[q..s.next])
            && (forall i | q <= i < s.next :: Lexing.IsDigitChar(input[i]))
            && (s.next == |input| || !Lexing.IsDigitChar(input[s.next]))
  {
    var q := Lexing.WhitespaceEnd(input, pos);
    assert Punctuation(input[q]).None?;
  }

  /** A character that is not whitespace, punctuation, a letter or a digit
      (among them `-`, `!`, `*`, `/`, `<`, `>`) is one ILLEGAL token. */
  lemma ScanIllegal(input: string, pos: nat)
    requires Lexing.WhitespaceEnd(input, pos) < |input|
    requires var c := input[Lexing.WhitespaceEnd(input, pos)];
             Punctuation(c).None? && !Lexing.IsLetterChar(c) && !Lexing.IsDigitChar(c)
    ensures var q := Lexing.WhitespaceEnd(input, pos);
            Scan(input, pos) == Step(Token(ILLEGAL, [input[q]]), q + 1)
  {
  }

  /** A call of `next_token` that skips whitespace up to `q` and reads the
      letter run from `q` up to `e`. */
  lemma ScanLetters(input: string, pos: nat, q: nat, e: nat)
    requires pos <= q < e <= |input|
    requires forall i | pos <= i < q :: Lexing.IsWhitespace(input[i])
    requires forall i | q <= i < e :: Lexing.IsLetterChar(input[i])
    requires e < |input| ==> !Lexing.IsLetterChar(input[e])
    ensures Scan(input, pos) == Step(Token(LegacyTokens.LookupTable(input[q..e]), input[q..e]), e)
  {
    Lexing.WhitespaceEndIs(input, pos, q);
    assert Lexing.LetterRunEnd(input, q) == e;
  }

  /** A call of `next_token` that skips whitespace up to `q` and reads the
      digit run from `q` up to `e`. */
  lemma ScanDigits(input: string, pos: nat, q: nat, e: nat)
    requires pos <= q < e <= |input|
    requires forall i | pos <= i < q :: Lexing.IsWhitespace(input[i])
    requires forall i | q <= i < e :: Lexing.IsDigitChar(input[i])
    requires e < |input| ==> !Lexing.IsDigitChar(input[e])
    ensures Scan(input, pos) == Step(Token(INT, input[q..e]), e)
  {
    Lexing.WhitespaceEndIs(input, pos, q);
  }

  /** A call of `next_token` that skips whitespace up to the punctuation
      character at `q`. */
  lemma ScanPunctuation(input: string, pos: nat, q: nat)
    requires pos <= q < |input| && Punctuation(input[q]).Some?
    requires forall i | pos <= i < q :: Lexing.IsWhitespace(input[i])
    ensures Scan(input, pos) == Step(Token(Punctuation(input[q]).value, [input[q]]), q + 1)
  {
    Lexing.WhitespaceEndIs(input, pos, q);
  }

  /** A call of `next_token` with nothing but whitespace left. */
  lemma ScanEnd(input: string, pos: nat)
    requires pos <= |input|
    requires forall i | pos <= i < |input| :: Lexing.IsWhitespace(input[i])
    ensures Scan(input, pos) == Step(Token(EOF, ""), |input| + 1)
  {
    Lexing.WhitespaceEndIs(input, pos, |input|);
  }

  /** The cursor after `n` calls of `next_token` from `origin`. */
  function PosAfter(input: string, origin: nat, n: nat): nat
  {
    if n == 0 then origin else Scan(input, PosAfter(input, origin, n - 1)).next
  }

  /** The token returned by call number `n` (counting from 0) of
      `next_token` from `origin`. */
  function TokenAt(input: string, origin: nat, n: nat): Token
  {
    Scan(input, PosAfter(input, origin, n)).token
  }

  /** Once `next_token` has returned EOF, every later call returns
      `Token(EOF, "")` again. */
  lemma {:induction false} EofIsSticky(input: string, origin: nat, n: nat, m: nat)
    requires TokenAt(input, origin, n).kind == EOF && n <= m
    ensures TokenAt(input, origin, m) == Token(EOF, "")
    decreases m - n
  {
    var p := PosAfter(input, origin, n);
    ScanEndOfInput(input, p);
    if n < m {
      ScanEndOfInput(input, Scan(input, p).next);
      EofIsSticky(input, origin, n + 1, m);
    }
  }

  /** `==` is two ASSIGN tokens here; the current tokenizer reads one EQ. */
  lemma DoubleEqualsIsTwoAssigns()
    ensures TokenAt("==", 0, 0) == Token(ASSIGN, "=") && TokenAt("==", 0, 1) == Token(ASSIGN, "=")
    ensures TokenAt("==", 0, 2) == Token(EOF, "")
    ensures Lexing.Scan("==", 0) == Lexing.Emit(Token(EQ, "=="), 2)
  {
    assert PosAfter("==", 0, 1) == 1;
    assert PosAfter("==", 0, 2) == 2;
  }

  /** An identifier that ends the input is a token here; the current
      tokenizer raises on it. */
  lemma IdentifierAtEndOfInput()
    ensures TokenAt("x", 0, 0) == Token(IDENT, "x")
    ensures Lexing.Scan("x", 0) == Lexing.Raise(1)
  {
    assert Lexing.LetterRunEnd("x", 0) == 1;
    assert "x"[0..1] == "x";
    assert LegacyTokens.LookupTable("x") == IDENT;
  }

  /** `Lexer`: a cursor with one character of lookahead. `ch` is the
      character at `position` as a string, empty past the end of the input. */
  class Lexer {
    const input: string
    var position: int
    var readPosition: int
    var ch: string

    /** The cursor invariant kept by `to_next_char`. */
    ghost predicate Valid()
      reads this
    {
      0 <= position && readPosition == position + 1 &&
      ch == (if position < |input| then [input[position]] else "")
    }

    /** `__init__`: the cursor starts before the input at -1, and
        `to_next_char` loads the first character. */
    constructor (input: string)
      ensures this.input == input && position == 0 && readPosition == 1
      ensures ch == if input == [] then "" else [input[0]]
      ensures Valid()
    {
      this.input := input;
      position := -1;
      readPosition := 0;
      ch := "";
      new;
      ToNextChar();
    }

    /** `to_next_char`: move the cursor one character forward. */
    method ToNextChar()
      requires readPosition >= 0
      modifies this
      ensures position == old(readPosition) && readPosition == position + 1
      ensures ch == if position < |input| then [input[position]] else ""
      ensures Valid()
    {
      if readPosition >= |input| {
        ch := "";
      } else {
        ch := [input[readPosition]];
      }
      position := readPosition;
      readPosition := position + 1;
    }

    /** `is_letter`: an ASCII letter or `_`; the empty string is none. */
    static function IsLetter(ch: string): (b: bool)
      ensures b <==> |ch| == 1 && Lexing.IsLetterChar(ch[0])
    {
      |ch| == 1 && (('a' <= ch[0] <= 'z') || ('A' <= ch[0] <= 'Z') || ch[0] == '_')
    }

    /** `is_number`: an ASCII digit; the empty string is none. */
    static function IsNumber(ch: string): (b: bool)
      ensures b <==> |ch| == 1 && Lexing.IsDigitChar(ch[0])
    {
      |ch| == 1 && '0' <= ch[0] <= '9'
    }

    /** `skip_whitespace`. */
    method SkipWhitespace()
      requires Valid()
      modifies this
      ensures Valid()
      ensures position == Lexing.WhitespaceEnd(input, old(position))
    {
      while ch in [" ", "\t", "\n", "\r"]
        invariant Valid()
        invariant Lexing.WhitespaceEnd(input, old(position)) == Lexing.WhitespaceEnd(input, position)
        decreases |input| - position
      {
        ToNextChar();
      }
    }

    /** `read_number`: consume the maximal digit run and return it. */
    method ReadNumber() returns (s: string)
      requires Valid()
      modifies this
      ensures Valid()
      ensures position == Lexing.DigitRunEnd(input, old(position))
      ensures s == if old(position) <= |input| then input[old(position)..position] else ""
    {
      var start := position;
      while IsNumber(ch)
        invariant Valid() && start <= position && (start < position ==> position <= |input|)
        invariant Lexing.DigitRunEnd(input, start) == Lexing.DigitRunEnd(input, position)
        decreases |input| - position
      {
        ToNextChar();
      }
      s := if start <= |input| then input[start..position] else "";
    }

    /** `read_identifier`: consume the maximal letter run and return it. */
    method ReadIdentifier() returns (s: string)
      requires Valid()
      modifies this
      ensures Valid()
      ensures position == Lexing.LetterRunEnd(input, old(position))
      ensures s == if old(position) <= |input| then input[old(position)..position] else ""
    {
      var start := position;
      while IsLetter(ch)
        invariant Valid() && start <= position && (start < position ==> position <= |input|)
        invariant Lexing.LetterRunEnd(input, start) == Lexing.LetterRunEnd(input, position)
        decreases |input| - position
      {
        ToNextChar();
      }
      s := if start <= |input| then input[start..position] else "";
    }

    /** `next_token`: skip whitespace, then read one token. */
    method NextToken() returns (tok: Token)
      requires Valid()
      modifies this
      ensures Valid()
      ensures Scan(input, old(position)) == Step(tok, position)
    {
      SkipWhitespace();
      if ch == "" {
        tok := Token(EOF, "");
      } else {
        var c := ch[0];
        match c {
          case '=' => tok := Token(ASSIGN, "=");
          case '+' => tok := Token(PLUS, "+");
          case '(' => tok := Token(LPAREN, "(");
          case ')' => tok := Token(RPAREN, ")");
          case '{' => tok := Token(LBRACE, "{");
          case '}' => tok := Token(RBRACE, "}");
          case ',' => tok := Token(COMMA, ",");
          case ';' => tok := Token(SEMICOLON, ";");
          case _ =>
            assert Punctuation(c).None?;
            if IsLetter(ch) {
              var literal := ReadIdentifier();
              return Token(LegacyTokens.LookupTable(literal), literal);
            } else if IsNumber(ch) {
              var literal := ReadNumber();
              return Token(INT, literal);
            } else {
              tok := Token(ILLEGAL, ch);
            }
        }
      }
      assert Scan(input, old(position)) == Step(tok, position + 1);
      ToNextChar();
    }
  }
}
