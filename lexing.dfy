/** The current tokenizer (src/ponkey/tokenizer.py).

    The specification functions describe one `next_token` call as a pure
    step over the input and the cursor position (Scan), and the whole token
    stream as the n-th step from a starting position (PosAfter, TokenAt).
    The class Tokenizer is the cursor state machine itself, each method
    proved against those functions. */
module Lexing {
  import opened Wrappers
  import opened Tokens

  /** `Tokenizer.WHITESPACES`: space, tab, line feed, carriage return. */
  predicate IsWhitespace(c: char)
  {
    c == ' ' || c == '\t' || c == '\n' || c == '\r'
  }

  /** ASCII letters and the underscore. */
  predicate IsLetterChar(c: char)
  {
    ('a' <= c <= 'z') || ('A' <= c <= 'Z') || c == '_'
  }

  /** ASCII decimal digits. */
  predicate IsDigitChar(c: char)
  {
    '0' <= c <= '9'
  }

  /** The character under a cursor, None once the cursor is past the input. */
  function CharAt(input: string, pos: nat): Option<char>
  {
    if pos < |input| then Some(input[pos]) else None
  }

  /** Characters of the input not yet consumed by a cursor at `pos`. */
  function Remaining(input: string, pos: nat): nat
  {
    if pos < |input| then |input| - pos else 0
  }

  /** Where the whitespace run starting at `pos` ends. */
  function WhitespaceEnd(input: string, pos: nat): (q: nat)
    ensures pos <= q
    ensures pos < q ==> q <= |input|
    ensures forall i | pos <= i < q :: i < |input| && IsWhitespace(input[i])
    ensures q < |input| ==> !IsWhitespace(input[q])
    decreases |input| - pos
  {
    if pos < |input| && IsWhitespace(input[pos]) then WhitespaceEnd(input, pos + 1) else pos
  }

  /** Where the maximal run of letters starting at `pos` ends. */
  function LetterRunEnd(input: string, pos: nat): (e: nat)
    ensures pos <= e
    ensures pos < e ==> e <= |input|
    ensures forall i | pos <= i < e :: i < |input| && IsLetterChar(input[i])
    ensures e < |input| ==> !IsLetterChar(input[e])
    decreases |input| - pos
  {
    if pos < |input| && IsLetterChar(input[pos]) then LetterRunEnd(input, pos + 1) else pos
  }

  /** Where the maximal run of digits starting at `pos` ends. */
  function DigitRunEnd(input: string, pos: nat): (e: nat)
    ensures pos <= e
    ensures pos < e ==> e <= |input|
    ensures forall i | pos <= i < e :: i < |input| && IsDigitChar(input[i])
    ensures e < |input| ==> !IsDigitChar(input[e])
    decreases |input| - pos
  {
    if pos < |input| && IsDigitChar(input[pos]) then DigitRunEnd(input, pos + 1) else pos
  }

  /** The kinds of the one-character tokens other than `=` and `!`. */
  function SingleCharKind(c: char): Option<TokenKind>
  {
    match c
    case '+' => Some(PLUS)
    case '-' => Some(MINUS)
    case '*' => Some(ASTERISK)
    case '/' => Some(SLASH)
    case '<' => Some(LT)
    case '>' => Some(GT)
    case '(' => Some(LPAREN)
    case ')' => Some(RPAREN)
    case '{' => Some(LBRACE)
    case '}' => Some(RBRACE)
    case ',' => Some(COMMA)
    case ';' => Some(SEMICOLON)
    case _ => None
  }

  /** One `next_token` call from a cursor at `pos`: the token it returns and
      where the cursor is left, or the ValueError it raises (with the cursor
      where it stopped). */
  datatype Step = Emit(token: Token, next: nat) | Raise(at: nat)

  /** The specification of `Tokenizer.next_token`. */
  function Scan(input: string, pos: nat): Step
  {
    var q := WhitespaceEnd(input, pos);
    if q >= |input| then Emit(Token(EOF, ""), q + 1)
    else
      var c := input[q];
      if c == '=' then
        if q + 1 < |input| && input[q + 1] == '=' then Emit(Token(EQ, "=="), q + 2)
        else Emit(Token(ASSIGN, "="), q + 1)
      else if c == '!' then
        if q + 1 < |input| && input[q + 1] == '=' then Emit(Token(NEQ, "!="), q + 2)
        else Emit(Token(BANG, "!"), q + 1)
      else if SingleCharKind(c).Some? then Emit(Token(SingleCharKind(c).value, [c]), q + 1)
      else if IsLetterChar(c) then
        var e := LetterRunEnd(input, q);
        if e < |input| then Emit(Token(LookupTable(input[q..e]), input[q..e]), e) else Raise(e)
      else if IsDigitChar(c) then
        var e := DigitRunEnd(input, q);
        if e < |input| then Emit(Token(INT, input[q..e]), e) else Raise(e)
      else Emit(Token(ILLEGAL, [c]), q + 1)
  }

  predicate IsEof(s: Step)
  {
    s.Emit? && s.token.kind == EOF
  }

  /** `next_token` answers EOF exactly when nothing but whitespace is left,
      and then it returns `Token(EOF, "")` and leaves the cursor past the end. */
  lemma ScanEndOfInput(input: string, pos: nat)
    ensures IsEof(Scan(input, pos)) <==> forall i | pos <= i < |input| :: IsWhitespace(input[i])
    ensures IsEof(Scan(input, pos)) ==>
              Scan(input, pos).token.literal == "" && Scan(input, pos).next > |input|
  {
    var q := WhitespaceEnd(input, pos);
    if q < |input| {
      assert !IsWhitespace(input[q]);
    }
  }

  /** Every token other than EOF consumes at least one character. */
  lemma ScanProgress(input: string, pos: nat)
    requires Scan(input, pos).Emit? && Scan(input, pos).token.kind != EOF
    ensures pos < Scan(input, pos).next <= |input|
    ensures Remaining(input, Scan(input, pos).next) < Remaining(input, pos)
  {
  }

  /** `==` and `!=` are read as one token of two characters; a lone `=` or
      `!` is ASSIGN or BANG and consumes one character. */
  lemma ScanEqualsAndBang(input: string, pos: nat)
    requires WhitespaceEnd(input, pos) < |input|
    requires input[WhitespaceEnd(input, pos)] in {'=', '!'}
    ensures var q := WhitespaceEnd(input, pos);
            var two := q + 1 < |input| && input[q + 1] == '=';
            Scan(input, pos) ==
              if two then Emit(Token(if input[q] == '=' then EQ else NEQ, input[q..q + 2]), q + 2)
              else Emit(Token(if input[q] == '=' then ASSIGN else BANG, [input[q]]), q + 1)
  {
    var q := WhitespaceEnd(input, pos);
    if q + 1 < |input| && input[q + 1] == '=' {
      assert input[q..q + 2] == [input[q], input[q + 1]];
    }
  }

  /** An identifier or keyword token is the maximal run of letters after the
      skipped whitespace: non-empty, made of letters only, followed by a
      character that is not a letter (a digit ends it too); its kind is what
      the keyword table says for its text. */
  lemma ScanIdentifier(input: string, pos: nat)
    requires Scan(input, pos).Emit?
    requires Scan(input, pos).token.kind == IDENT || IsKeyword(Scan(input, pos).token.kind)
    ensures var q, s := WhitespaceEnd(input, pos), Scan(input, pos);
            && q < s.next < |input|
            && s.token.literal == input[q..s.next]
            && (forall c | c in s.token.literal :: IsLetterChar(c))
            && !IsLetterChar(input[s.next])
            && s.token.kind == LookupTable(s.token.literal)
  {
    var q := WhitespaceEnd(input, pos);
    assert q < |input| && IsLetterChar(input[q]);
    var e := LetterRunEnd(input, q);
    assert Scan(input, pos) == Emit(Token(LookupTable(input[q..e]), input[q..e]), e);
  }

  /** A number token is the maximal run of digits after the skipped
      whitespace, followed by a character that is not a digit. */
  lemma ScanNumber(input: string, pos: nat)
    requires Scan(input, pos).Emit? && Scan(input, pos).token.kind == INT
    ensures var q, s := WhitespaceEnd(input, pos), Scan(input, pos);
            && q < s.next < |input|
            && s.token.literal == input[q..s.next]
            && (forall c | c in s.token.literal :: IsDigitChar(c))
            && !IsDigitChar(input[s.next])
  {
  }

  /** Any other character is an ILLEGAL token carrying just that character,
      and the cursor moves one position past it. */
  lemma ScanIllegal(input: string, pos: nat)
    requires Scan(input, pos).Emit? && Scan(input, pos).token.kind == ILLEGAL
    ensures var q, s := WhitespaceEnd(input, pos), Scan(input, pos);
            && q < |input|
            && s.token.literal == [input[q]]
            && s.next == q + 1
            && !IsWhitespace(input[q]) && !IsLetterChar(input[q]) && !IsDigitChar(input[q])
            && input[q] !in {'=', '!'} && SingleCharKind(input[q]).None?
  {
  }

  /** `next_token` raises exactly when the rest of the input, after the
      skipped whitespace, is a non-empty run of letters or of digits: the
      run reaches the end, `ch` becomes None and `_is_letter`/`_is_number`
      raise. */
  lemma ScanRaises(input: string, pos: nat)
    ensures var q := WhitespaceEnd(input, pos);
            Scan(input, pos).Raise? <==>
              q < |input| &&
              ((forall i | q <= i < |input| :: IsLetterChar(input[i])) ||
               (forall i | q <= i < |input| :: IsDigitChar(input[i])))
    ensures Scan(input, pos).Raise? ==> Scan(input, pos).at == |input|
  {
    var q := WhitespaceEnd(input, pos);
    if q < |input| {
      var c := input[q];
      if IsLetterChar(c) {
        assert c != '=' && c != '!' && SingleCharKind(c).None?;
        var e := LetterRunEnd(input, q);
        if e < |input| {
          assert !IsLetterChar(input[e]);
          assert !IsDigitChar(input[q]);
        } else {
        }
      } else if IsDigitChar(c) {
        assert c != '=' && c != '!' && SingleCharKind(c).None?;
        var e := DigitRunEnd(input, q);
        if e < |input| {
          assert !IsDigitChar(input[e]);
          assert !IsLetterChar(input[q]);
        }
      } else {
        assert !IsLetterChar(input[q]) && !IsDigitChar(input[q]);
      }
    }
  }

  /** Every token whose kind is neither IDENT, INT nor ILLEGAL carries its
      kind's value as its literal (operators, delimiters, keywords, EOF). */
  lemma ScanLiteralIsValue(input: string, pos: nat)
    requires Scan(input, pos).Emit?
    requires Scan(input, pos).token.kind !in {IDENT, INT, ILLEGAL}
    ensures Scan(input, pos).token.literal == Value(Scan(input, pos).token.kind)
  {
    var q := WhitespaceEnd(input, pos);
    if q < |input| && IsLetterChar(input[q]) {
      var e := LetterRunEnd(input, q);
      if e < |input| {
        LookupTableKeywords(input[q..e]);
      }
    }
  }

  /** The cursor after `n` calls of `next_token` from `origin`, or None if
      one of those calls raised. */
  function PosAfter(input: string, origin: nat, n: nat): Option<nat>
  {
    if n == 0 then Some(origin)
    else
      match PosAfter(input, origin, n - 1)
      case None => None
      case Some(p) =>
        match Scan(input, p)
        case Emit(_, q) => Some(q)
        case Raise(_) => None
  }

  /** The token returned by call number `n` (counting from 0) of
      `next_token` from `origin`, or None if that call, or an earlier one, raised. */
  function TokenAt(input: string, origin: nat, n: nat): Option<Token>
  {
    match PosAfter(input, origin, n)
    case None => None
    case Some(p) =>
      match Scan(input, p)
      case Emit(t, _) => Some(t)
      case Raise(_) => None
  }

  /** Once `next_token` has returned EOF, every later call returns
      `Token(EOF, "")` again. */
  lemma {:induction false} EofIsSticky(input: string, origin: nat, n: nat, m: nat)
    requires TokenAt(input, origin, n) == Some(Token(EOF, ""))
    requires n <= m
    ensures TokenAt(input, origin, m) == Some(Token(EOF, ""))
    decreases m - n
  {
    if n < m {
      var p := PosAfter(input, origin, n).value;
      ScanEndOfInput(input, p);
      var p' := Scan(input, p).next;
      assert PosAfter(input, origin, n + 1) == Some(p');
      ScanEndOfInput(input, p');
      EofIsSticky(input, origin, n + 1, m);
    }
  }

  /** Empty or whitespace-only input yields EOF on the first call and on
      every call after it. */
  lemma WhitespaceOnlyInputIsEof(input: string, n: nat)
    requires forall i | 0 <= i < |input| :: IsWhitespace(input[i])
    ensures TokenAt(input, 0, n) == Some(Token(EOF, ""))
  {
    ScanEndOfInput(input, 0);
    EofIsSticky(input, 0, 0, n);
  }

  /** Stream tokens carry their kind's value as literal, except IDENT, INT
      and ILLEGAL tokens. */
  lemma TokenAtLiteral(input: string, origin: nat, n: nat)
    requires TokenAt(input, origin, n).Some?
    requires TokenAt(input, origin, n).value.kind !in {IDENT, INT, ILLEGAL}
    ensures TokenAt(input, origin, n).value.literal == Value(TokenAt(input, origin, n).value.kind)
  {
    ScanLiteralIsValue(input, PosAfter(input, origin, n).value);
  }

  /** The whitespace run from `pos` ends at `q`. */
  lemma WhitespaceEndIs(input: string, pos: nat, q: nat)
    requires pos <= q <= |input|
    requires forall i | pos <= i < q :: IsWhitespace(input[i])
    requires q < |input| ==> !IsWhitespace(input[q])
    ensures WhitespaceEnd(input, pos) == q
  {
  }

  /** A call of `next_token` that skips whitespace up to `q` and reads the
      letter run from `q` up to `e`, which a character other than a letter
      follows. */
  lemma ScanLetters(input: string, pos: nat, q: nat, e: nat)
    requires pos <= q < e < |input|
    requires forall i | pos <= i < q :: IsWhitespace(input[i])
    requires forall i | q <= i < e :: IsLetterChar(input[i])
    requires !IsLetterChar(input[e])
    ensures Scan(input, pos) == Emit(Token(LookupTable(input[q..e]), input[q..e]), e)
  {
    WhitespaceEndIs(input, pos, q);
    assert LetterRunEnd(input, q) == e;
  }

  /** A call of `next_token` that skips whitespace up to `q` and reads the
      digit run from `q` up to `e`, which a character other than a digit
      follows. */
  lemma ScanDigits(input: string, pos: nat, q: nat, e: nat)
    requires pos <= q < e < |input|
    requires forall i | pos <= i < q :: IsWhitespace(input[i])
    requires forall i | q <= i < e :: IsDigitChar(input[i])
    requires !IsDigitChar(input[e])
    ensures Scan(input, pos) == Emit(Token(INT, input[q..e]), e)
  {
    WhitespaceEndIs(input, pos, q);
    assert DigitRunEnd(input, q) == e;
  }

  /** A call of `next_token` that skips whitespace up to a one-character
      token at `q`. */
  lemma ScanSingle(input: string, pos: nat, q: nat)
    requires pos <= q < |input| && SingleCharKind(input[q]).Some?
    requires forall i | pos <= i < q :: IsWhitespace(input[i])
    ensures Scan(input, pos) == Emit(Token(SingleCharKind(input[q]).value, [input[q]]), q + 1)
  {
    WhitespaceEndIs(input, pos, q);
  }

  /** A call of `next_token` that skips whitespace up to a lone `=` at `q`. */
  lemma ScanAssign(input: string, pos: nat, q: nat)
    requires pos <= q < |input| && input[q] == '=' && (q + 1 < |input| ==> input[q + 1] != '=')
    requires forall i | pos <= i < q :: IsWhitespace(input[i])
    ensures Scan(input, pos) == Emit(Token(ASSIGN, "="), q + 1)
  {
    WhitespaceEndIs(input, pos, q);
  }

  /** A call of `next_token` with nothing but whitespace left. */
  lemma ScanEnd(input: string, pos: nat)
    requires pos <= |input|
    requires forall i | pos <= i < |input| :: IsWhitespace(input[i])
    ensures Scan(input, pos) == Emit(Token(EOF, ""), |input| + 1)
  {
    WhitespaceEndIs(input, pos, |input|);
  }

  /** `Tokenizer`: a cursor over the input with one character of lookahead. */
  class Tokenizer {
    const input: string
    var position: nat
    var readPosition: nat
    var ch: Option<char>

    /** The cursor invariant kept by `read_char`. */
    ghost predicate Valid()
      reads this
    {
      readPosition == position + 1 && ch == CharAt(input, position)
    }

    /** Construction and `__post_init__`: the cursor starts at 0 and `read_char`
        loads the first character. */
    constructor (input: string)
      ensures this.input == input && position == 0 && readPosition == 1
      ensures ch == if input == [] then None else Some(input[0])
      ensures Valid()
    {
      this.input := input;
      position, readPosition := 0, 0;
      ch := None;
      new;
      ReadChar();
    }

    /** `peek_char`: the character after the current one, without moving. */
    function PeekChar(): (c: Option<char>)
      reads this
      requires Valid()
      ensures c == CharAt(input, position + 1)
    {
      if readPosition >= |input| then None else Some(input[readPosition])
    }

    /** `read_char`: move the cursor one character forward. */
    method ReadChar()
      modifies this
      ensures position == old(readPosition) && readPosition == position + 1
      ensures ch == CharAt(input, position)
      ensures Valid()
    {
      if readPosition >= |input| {
        ch := None;
      } else {
        ch := Some(input[readPosition]);
      }
      position := readPosition;
      readPosition := position + 1;
    }

    /** `_is_letter`, which raises when there is no current character. */
    static function IsLetter(ch: Option<char>): (r: Result<bool>)
      ensures r.Err? <==> ch.None?
    {
      if ch.None? then Err("ch is None") else Ok(IsLetterChar(ch.value))
    }

    /** `_is_number`, which raises when there is no current character. */
    static function IsNumber(ch: Option<char>): (r: Result<bool>)
      ensures r.Err? <==> ch.None?
    {
      if ch.None? then Err("ch is None") else Ok(IsDigitChar(ch.value))
    }

    /** `read_number`: consume the maximal digit run and return it; raises
        if the run reaches the end of the input. */
    method ReadNumber() returns (r: Result<string>)
      requires Valid()
      modifies this
      ensures Valid()
      ensures position == DigitRunEnd(input, old(position))
      ensures r == if position < |input| then Ok(input[old(position)..position]) else Err("ch is None")
    {
      var start := position;
      var digit := IsNumber(ch);
      while digit == Ok(true)
        invariant Valid() && start <= position
        invariant DigitRunEnd(input, start) == DigitRunEnd(input, position)
        invariant digit == IsNumber(ch)
        decreases |input| - position
      {
        ReadChar();
        digit := IsNumber(ch);
      }
      if digit.Err? {
        return Err(digit.error);
      }
      r := Ok(input[start..position]);
    }

    /** `read_identifier`: consume the maximal letter run and return it;
        raises if the run reaches the end of the input. */
    method ReadIdentifier() returns (r: Result<string>)
      requires Valid()
      modifies this
      ensures Valid()
      ensures position == LetterRunEnd(input, old(position))
      ensures r == if position < |input| then Ok(input[old(position)..position]) else Err("ch is None")
    {
      var start := position;
      var letter := IsLetter(ch);
      while letter == Ok(true)
        invariant Valid() && start <= position
        invariant LetterRunEnd(input, start) == LetterRunEnd(input, position)
        invariant letter == IsLetter(ch)
        decreases |input| - position
      {
        ReadChar();
        letter := IsLetter(ch);
      }
      if letter.Err? {
        return Err(letter.error);
      }
      r := Ok(input[start..position]);
    }

    /** `_skip_whitespace`. */
    method SkipWhitespace()
      requires Valid()
      modifies this
      ensures Valid()
      ensures position == WhitespaceEnd(input, old(position))
    {
      while ch.Some? && IsWhitespace(ch.value)
        invariant Valid()
        invariant WhitespaceEnd(input, old(position)) == WhitespaceEnd(input, position)
        decreases |input| - position
      {
        ReadChar();
      }
    }

    /** `next_token`: skip whitespace, then read one token. */
    method NextToken() returns (r: Result<Token>)
      requires Valid()
      modifies this
      ensures Valid()
      ensures match Scan(input, old(position))
              case Emit(t, next) => r == Ok(t) && position == next
              case Raise(at) => r == Err("ch is None") && position == at
    {
      SkipWhitespace();
      var tok: Token;
      match ch {
        case None =>
          tok := Token(EOF, "");
        case Some(c) =>
          match c {
            case '=' =>
              if PeekChar() == Some('=') {
                ReadChar();
                tok := Token(EQ, [c] + [ch.value]);
              } else {
                tok := Token(ASSIGN, "=");
              }
            case '+' => tok := Token(PLUS, "+");
            case '-' => tok := Token(MINUS, "-");
            case '!' =>
              if PeekChar() == Some('=') {
                ReadChar();
                tok := Token(NEQ, [c] + [ch.value]);
              } else {
                tok := Token(BANG, "!");
              }
            case '*' => tok := Token(ASTERISK, "*");
            case '/' => tok := Token(SLASH, "/");
            case '<' => tok := Token(LT, "<");
            case '>' => tok := Token(GT, ">");
            case '(' => tok := Token(LPAREN, "(");
            case ')' => tok := Token(RPAREN, ")");
            case '{' => tok := Token(LBRACE, "{");
            case '}' => tok := Token(RBRACE, "}");
            case ',' => tok := Token(COMMA, ",");
            case ';' => tok := Token(SEMICOLON, ";");
            case _ =>
              assert SingleCharKind(c).None?;
              if IsLetter(ch) == Ok(true) {
                var literal := ReadIdentifier();
                if literal.Err? {
                  return Err(literal.error);
                }
                return Ok(Token(LookupTable(literal.value), literal.value));
              } else if IsNumber(ch) == Ok(true) {
                var literal := ReadNumber();
                if literal.Err? {
                  return Err(literal.error);
                }
                return Ok(Token(INT, literal.value));
              } else {
                tok := Token(ILLEGAL, [c]);
              }
          }
      }
      assert Scan(input, old(position)) == Emit(tok, position + 1);
      ReadChar();
      r := Ok(tok);
    }
  }
}
