/**
 * The lexer: a scanner over the runes of the input. Its state is the index of
 * the current rune (`position`), the index of the next one (`readPosition`)
 * and the current rune itself (`ch`, 0 past the end). `Scan` describes, as a
 * function of the input and a position, the token that `NextToken` returns
 * and the position it leaves behind.
 */
module Lexing {
  import opened Tokens
  import opened Strconv

  /** Letters (with `_`), digits and whitespace are disjoint classes. */
  predicate IsLetter(ch: char): (r: bool)
    ensures r ==> !IsDigit(ch) && !IsWhitespace(ch)
  {
    'a' <= ch <= 'z' || 'A' <= ch <= 'Z' || ch == '_'
  }

  predicate IsDigit(ch: char): (r: bool)
    ensures r ==> !IsWhitespace(ch)
  {
    '0' <= ch <= '9'
  }

  predicate IsWhitespace(ch: char) {
    ch == ' ' || ch == '\t' || ch == '\n' || ch == '\r'
  }

  /** Characters that continue a string literal: anything but NUL and the closing quote. */
  predicate InString(ch: char) {
    ch != '\0' && ch != '"'
  }

  /** The character classes the lexer reads runs of. */
  datatype CharClass = Whitespace | Letter | Digit | StringBody

  predicate InClass(cls: CharClass, ch: char) {
    match cls
    case Whitespace => IsWhitespace(ch)
    case Letter => IsLetter(ch)
    case Digit => IsDigit(ch)
    case StringBody => InString(ch)
  }

  /** The rune at `i`, or NUL outside the input: what `ch` holds when `position` is `i`. */
  function CharAt(input: seq<char>, i: int): char {
    if 0 <= i < |input| then input[i] else '\0'
  }

  function NewToken(tokenType: TokenType, ch: char): (tok: Token)
    ensures tok.tokenType == tokenType && |tok.literal| == 1 && tok.literal[0] == ch
  {
    Token(tokenType, [ch])
  }

  /**
   * Where the run of characters in `inClass` that starts at `p` ends: every
   * character from `p` up to the result is in the class and the one at the
   * result is not. NUL is never in the class, so a run stops at the end of
   * the input.
   */
  function RunEnd(input: seq<char>, p: nat, cls: CharClass): (q: nat)
    ensures p <= q
    ensures p <= |input| ==> q <= |input|
    ensures forall i | p <= i < q :: InClass(cls, CharAt(input, i))
    ensures !InClass(cls, CharAt(input, q))
    decreases |input| - p
  {
    if InClass(cls, CharAt(input, p)) then RunEnd(input, p + 1, cls) else p
  }

  /** Tokens as the lexer produces them: what the parser may rely on. */
  predicate WellFormed(tok: Token) {
    && (tok.tokenType == IDENT ==> |tok.literal| > 0 && forall i | 0 <= i < |tok.literal| :: IsLetter(tok.literal[i]))
    && (tok.tokenType == INT ==> |tok.literal| > 0 && IsDecimal(tok.literal))
    && (IsKeyword(tok.tokenType) ==> tok.literal == Spelling(tok.tokenType))
    && (tok.tokenType == EOF ==> tok.literal == "")
  }

  predicate NoWhitespace(s: string) {
    forall i | 0 <= i < |s| :: !IsWhitespace(s[i])
  }

  /** The operators that become two-character tokens when followed by '='. */
  predicate IsOneOrTwo(c: char) {
    c == '=' || c == '!' || c == '<' || c == '>'
  }

  /** The kind of one of those operators alone, and followed by '='. */
  function OneOrTwoTypes(c: char): (TokenType, TokenType)
    requires IsOneOrTwo(c)
  {
    match c
    case '=' => (ASSIGN, EQ)
    case '!' => (BANG, NOT_EQ)
    case '<' => (LT, LT_EQ)
    case '>' => (GT, GT_EQ)
  }

  /** The characters that are a token on their own. */
  predicate IsSingleChar(c: char) {
    c == ';' || c == '(' || c == ')' || c == '{' || c == '}' || c == '[' || c == ']'
    || c == ',' || c == '+' || c == '-' || c == '/' || c == '*'
  }

  function SingleCharType(c: char): TokenType
    requires IsSingleChar(c)
  {
    match c
    case ';' => SEMICOLON
    case '(' => LPAREN
    case ')' => RPAREN
    case '{' => LBRACE
    case '}' => RBRACE
    case '[' => LBRACKET
    case ']' => RBRACKET
    case ',' => COMMA
    case '+' => PLUS
    case '-' => MINUS
    case '/' => SLASH
    case '*' => ASTERISK
  }

  datatype Scanned = Scanned(token: Token, next: nat)

  /** The characters from `p` to `q` of a run that ends at `q` are all in the class. */
  lemma RunSlice(input: seq<char>, p: nat, cls: CharClass)
    requires p <= |input|
    ensures forall i | 0 <= i < RunEnd(input, p, cls) - p :: InClass(cls, input[p..RunEnd(input, p, cls)][i])
  {
    var q := RunEnd(input, p, cls);
    forall i | 0 <= i < q - p ensures InClass(cls, input[p..q][i]) {
      assert input[p..q][i] == CharAt(input, p + i);
    }
  }

  /**
   * The token that starts at the first non-whitespace character at or after
   * `p`, and the position of the character after it. Each call moves past at
   * least one character; past the end of the input the token is EOF.
   */
  function Scan(input: seq<char>, p: nat): (r: Scanned)
    ensures r.next > p
    ensures WellFormed(r.token)
    ensures r.token.tokenType != STRING ==> NoWhitespace(r.token.literal)
    ensures r.token.tokenType == EOF <==> CharAt(input, RunEnd(input, p, Whitespace)) == '\0'
    ensures p >= |input| ==> r == Scanned(Token(EOF, ""), p + 1)
  {
    var s := RunEnd(input, p, Whitespace);
    ScanAtProperties(input, s);
    ScanAt(input, s)
  }

  /** The token that starts exactly at `s`. */
  function ScanAt(input: seq<char>, s: nat): (r: Scanned)
    ensures r.next > s
  {
    var c := CharAt(input, s);
    if IsOneOrTwo(c) then
      if CharAt(input, s + 1) == '=' then Scanned(Token(OneOrTwoTypes(c).1, [c, '=']), s + 2)
      else Scanned(NewToken(OneOrTwoTypes(c).0, c), s + 1)
    else if IsSingleChar(c) then
      Scanned(NewToken(SingleCharType(c), c), s + 1)
    else if c == '"' then
      var e := RunEnd(input, s + 1, StringBody);
      Scanned(Token(STRING, input[s + 1..e]), e + 1)
    else if c == '\0' then
      Scanned(Token(EOF, ""), s + 1)
    else if IsLetter(c) then
      var e := RunEnd(input, s, Letter);
      Scanned(Token(LookupIdentifier(input[s..e]), input[s..e]), e)
    else if IsDigit(c) then
      var e := RunEnd(input, s, Digit);
      Scanned(Token(INT, input[s..e]), e)
    else
      Scanned(NewToken(ILLEGAL, c), s + 1)
  }

  /** What every token the lexer produces at `s` satisfies. */
  predicate ScannedWell(input: seq<char>, s: nat, r: Scanned) {
    && WellFormed(r.token)
    && (r.token.tokenType != STRING && !IsWhitespace(CharAt(input, s)) ==> NoWhitespace(r.token.literal))
    && (r.token.tokenType == EOF <==> CharAt(input, s) == '\0')
    && (s >= |input| ==> r == Scanned(Token(EOF, ""), s + 1))
  }

  lemma ScanAtProperties(input: seq<char>, s: nat)
    ensures ScannedWell(input, s, ScanAt(input, s))
  {
    var c := CharAt(input, s);
    if IsOneOrTwo(c) {
      ScanOneOrTwo(input, s);
    } else if IsSingleChar(c) {
      ScanSingleChar(input, s);
    } else {
      ScanOther(input, s);
    }
  }

  lemma ScanOneOrTwo(input: seq<char>, s: nat)
    requires IsOneOrTwo(CharAt(input, s))
    ensures ScannedWell(input, s, ScanAt(input, s))
    ensures var c := CharAt(input, s);
      ScanAt(input, s) ==
        if CharAt(input, s + 1) == '=' then Scanned(Token(OneOrTwoTypes(c).1, [c, '=']), s + 2)
        else Scanned(NewToken(OneOrTwoTypes(c).0, c), s + 1)
  {
  }

  lemma ScanSingleChar(input: seq<char>, s: nat)
    requires IsSingleChar(CharAt(input, s))
    ensures ScannedWell(input, s, ScanAt(input, s))
    ensures ScanAt(input, s) == Scanned(NewToken(SingleCharType(CharAt(input, s)), CharAt(input, s)), s + 1)
  {
  }

  lemma ScanOther(input: seq<char>, s: nat)
    requires !IsOneOrTwo(CharAt(input, s)) && !IsSingleChar(CharAt(input, s))
    ensures ScannedWell(input, s, ScanAt(input, s))
    ensures var c := CharAt(input, s);
      ScanAt(input, s) ==
        if c == '"' then
          var e := RunEnd(input, s + 1, StringBody);
          Scanned(Token(STRING, input[s + 1..e]), e + 1)
        else if c == '\0' then Scanned(Token(EOF, ""), s + 1)
        else if IsLetter(c) then
          var e := RunEnd(input, s, Letter);
          Scanned(Token(LookupIdentifier(input[s..e]), input[s..e]), e)
        else if IsDigit(c) then
          var e := RunEnd(input, s, Digit);
          Scanned(Token(INT, input[s..e]), e)
        else Scanned(NewToken(ILLEGAL, c), s + 1)
  {
    var c := CharAt(input, s);
    if IsLetter(c) {
      RunSlice(input, s, Letter);
    } else if IsDigit(c) {
      RunSlice(input, s, Digit);
    }
  }

  /** `=`, `!`, `<` and `>` take a following `=` into a two-character token, and otherwise stand alone. */
  lemma MaximalMunch(input: seq<char>, p: nat)
    ensures var s := RunEnd(input, p, Whitespace);
      var twoChars := CharAt(input, s + 1) == '=';
      var r := Scan(input, p);
      && (CharAt(input, s) == '=' ==> r == if twoChars then Scanned(Token(EQ, "=="), s + 2) else Scanned(Token(ASSIGN, "="), s + 1))
      && (CharAt(input, s) == '!' ==> r == if twoChars then Scanned(Token(NOT_EQ, "!="), s + 2) else Scanned(Token(BANG, "!"), s + 1))
      && (CharAt(input, s) == '<' ==> r == if twoChars then Scanned(Token(LT_EQ, "<="), s + 2) else Scanned(Token(LT, "<"), s + 1))
      && (CharAt(input, s) == '>' ==> r == if twoChars then Scanned(Token(GT_EQ, ">="), s + 2) else Scanned(Token(GT, ">"), s + 1))
  {
    var s := RunEnd(input, p, Whitespace);
    if IsOneOrTwo(CharAt(input, s)) {
      ScanOneOrTwo(input, s);
    }
  }

  /**
   * A word is the longest run of letters and underscores at the token's
   * start (a digit ends it), and its kind is what the keyword lookup says.
   */
  lemma IdentifierIsMaximalRun(input: seq<char>, p: nat)
    requires IsLetter(CharAt(input, RunEnd(input, p, Whitespace)))
    ensures var s := RunEnd(input, p, Whitespace);
      var r := Scan(input, p);
      && s < r.next <= |input|
      && r.token == Token(LookupIdentifier(input[s..r.next]), input[s..r.next])
      && (forall i | s <= i < r.next :: IsLetter(input[i]))
      && !IsLetter(CharAt(input, r.next))
  {
    var s := RunEnd(input, p, Whitespace);
    ScanOther(input, s);
    forall i | s <= i < RunEnd(input, s, Letter) ensures IsLetter(input[i]) {
      assert InClass(Letter, CharAt(input, i));
    }
  }

  /** A number is the longest run of ASCII digits at the token's start, of kind INT. */
  lemma NumberIsMaximalRun(input: seq<char>, p: nat)
    requires IsDigit(CharAt(input, RunEnd(input, p, Whitespace)))
    ensures var s := RunEnd(input, p, Whitespace);
      var r := Scan(input, p);
      && s < r.next <= |input|
      && r.token == Token(INT, input[s..r.next])
      && (forall i | s <= i < r.next :: IsDigit(input[i]))
      && !IsDigit(CharAt(input, r.next))
  {
    var s := RunEnd(input, p, Whitespace);
    ScanOther(input, s);
    forall i | s <= i < RunEnd(input, s, Digit) ensures IsDigit(input[i]) {
      assert InClass(Digit, CharAt(input, i));
    }
  }

  /**
   * A string token holds exactly the characters after the opening quote up
   * to the closing quote, with no escape processing, and the closing quote is
   * consumed. Without a closing quote (or an embedded NUL) the literal runs
   * to the end of the input.
   */
  lemma StringLiteral(input: seq<char>, p: nat)
    requires CharAt(input, RunEnd(input, p, Whitespace)) == '"'
    ensures var s := RunEnd(input, p, Whitespace);
      var r := Scan(input, p);
      var close := r.next - 1;
      && s < close <= |input|
      && r.token == Token(STRING, input[s + 1..close])
      && (forall i | s < i < close :: input[i] != '"' && input[i] != '\0')
      && (CharAt(input, close) == '"' || CharAt(input, close) == '\0')
      && ((forall i | s < i < |input| :: input[i] != '"' && input[i] != '\0') ==> close == |input|)
  {
    StringLiteralAt(input, RunEnd(input, p, Whitespace));
  }

  /** A string literal that starts exactly at `s`. */
  lemma StringLiteralAt(input: seq<char>, s: nat)
    requires CharAt(input, s) == '"'
    ensures var r := ScanAt(input, s);
      var close := r.next - 1;
      && s < close <= |input|
      && r.token == Token(STRING, input[s + 1..close])
      && (forall i | s < i < close :: input[i] != '"' && input[i] != '\0')
      && (CharAt(input, close) == '"' || CharAt(input, close) == '\0')
      && ((forall i | s < i < |input| :: input[i] != '"' && input[i] != '\0') ==> close == |input|)
  {
    ScanString(input, s);
    StringBodyRun(input, s);
  }

  lemma ScanString(input: seq<char>, s: nat)
    requires CharAt(input, s) == '"'
    ensures var close := RunEnd(input, s + 1, StringBody);
      s < close <= |input| && ScanAt(input, s) == Scanned(Token(STRING, input[s + 1..close]), close + 1)
  {
  }

  /** The body of a string literal opened at `s`: no quote or NUL inside, and it reaches the end of the input when none follows. */
  lemma StringBodyRun(input: seq<char>, s: nat)
    requires s < |input|
    ensures var close := RunEnd(input, s + 1, StringBody);
      && (forall i | s < i < close :: input[i] != '"' && input[i] != '\0')
      && (CharAt(input, close) == '"' || CharAt(input, close) == '\0')
      && ((forall i | s < i < |input| :: input[i] != '"' && input[i] != '\0') ==> close == |input|)
  {
    var close := RunEnd(input, s + 1, StringBody);
    forall i | s < i < close ensures input[i] != '"' && input[i] != '\0' {
      assert InClass(StringBody, CharAt(input, i));
    }
    assert !InClass(StringBody, CharAt(input, close));
  }

  /** A NUL character, and the end of the input, read as EOF with an empty literal. */
  lemma NulIsEndOfFile(input: seq<char>, p: nat)
    requires CharAt(input, RunEnd(input, p, Whitespace)) == '\0'
    ensures Scan(input, p) == Scanned(Token(EOF, ""), RunEnd(input, p, Whitespace) + 1)
  {
    ScanOther(input, RunEnd(input, p, Whitespace));
  }

  /** Any other character is a one-character ILLEGAL token. */
  lemma IllegalCharacter(input: seq<char>, p: nat)
    requires var c := CharAt(input, RunEnd(input, p, Whitespace));
      !IsOneOrTwo(c) && !IsSingleChar(c) && c != '"' && c != '\0' && !IsLetter(c) && !IsDigit(c)
    ensures var s := RunEnd(input, p, Whitespace);
      Scan(input, p) == Scanned(Token(ILLEGAL, [CharAt(input, s)]), s + 1)
  {
    ScanOther(input, RunEnd(input, p, Whitespace));
  }

  class Lexer {
    const input: seq<char>
    var position: nat
    var readPosition: nat
    var ch: char

    ghost predicate Valid()
      reads this
    {
      readPosition == position + 1 && ch == CharAt(input, position)
    }

    /** Characters not yet consumed from `position` on. */
    function Remaining(): nat
      reads this
    {
      if position < |input| then |input| - position else 0
    }

    constructor New(input: seq<char>)
      ensures this.input == input && position == 0 && Valid()
    {
      this.input := input;
      position := 0;
      readPosition := 0;
      ch := '\0';
      new;
      ReadChar();
    }

    method ReadChar()
      modifies this
      ensures ch == CharAt(input, old(readPosition))
      ensures position == old(readPosition) && readPosition == old(readPosition) + 1
    {
      if readPosition >= |input| {
        ch := '\0';
      } else {
        ch := input[readPosition];
      }
      position := readPosition;
      readPosition := readPosition + 1;
    }

    function PeekChar(): (c: char)
      reads this
      ensures c == CharAt(input, readPosition)
    {
      if readPosition >= |input| then '\0' else input[readPosition]
    }

    method SkipWhitespace()
      requires Valid()
      modifies this
      ensures Valid() && position == RunEnd(input, old(position), Whitespace)
    {
      while ch == ' ' || ch == '\t' || ch == '\n' || ch == '\r'
        invariant Valid() && old(position) <= position
        invariant RunEnd(input, position, Whitespace) == RunEnd(input, old(position), Whitespace)
        decreases |input| - position
      {
        ReadChar();
      }
    }

    method ReadIdentifier() returns (identifier: string)
      requires Valid() && IsLetter(ch)
      modifies this
      ensures Valid() && position == RunEnd(input, old(position), Letter)
      ensures identifier == input[old(position)..position]
    {
      var start := position;
      while IsLetter(ch)
        invariant Valid() && start <= position
        invariant RunEnd(input, position, Letter) == RunEnd(input, start, Letter)
        decreases |input| - position
      {
        ReadChar();
      }
      identifier := input[start..position];
    }

    method ReadString() returns (s: string)
      requires Valid() && ch == '"'
      modifies this
      ensures Valid() && position == RunEnd(input, old(position) + 1, StringBody)
      ensures s == input[old(position) + 1..position]
    {
      ReadChar();
      var start := position;
      while ch != '\0' && ch != '"'
        invariant Valid() && start <= position
        invariant RunEnd(input, position, StringBody) == RunEnd(input, start, StringBody)
        decreases |input| - position
      {
        ReadChar();
      }
      s := input[start..position];
    }

    method ReadNumber() returns (number: string)
      requires Valid() && IsDigit(ch)
      modifies this
      ensures Valid() && position == RunEnd(input, old(position), Digit)
      ensures number == input[old(position)..position]
    {
      var start := position;
      while IsDigit(ch)
        invariant Valid() && start <= position
        invariant RunEnd(input, position, Digit) == RunEnd(input, start, Digit)
        decreases |input| - position
      {
        ReadChar();
      }
      number := input[start..position];
    }

    /**
     * The next token; the lexer moves to the character after it. Go's single
     * switch on `ch` is split three ways: the operators that may take a
     * following '=', the one-character tokens, and everything else.
     */
    method NextToken() returns (tok: Token)
      requires Valid()
      modifies this
      ensures Valid() && Scanned(tok, position) == Scan(input, old(position))
    {
      SkipWhitespace();
      if IsOneOrTwo(ch) {
        tok := ReadOperator();
      } else if IsSingleChar(ch) {
        ScanSingleChar(input, position);
        tok := NewToken(SingleCharType(ch), ch);
        ReadChar();
      } else {
        tok := ReadOther();
      }
    }

    /** `=`, `!`, `<` or `>`, with a following '=' if there is one. */
    method ReadOperator() returns (tok: Token)
      requires Valid() && IsOneOrTwo(ch)
      modifies this
      ensures Valid() && Scanned(tok, position) == ScanAt(input, old(position))
    {
      ScanOneOrTwo(input, position);
      match ch {
        case '=' =>
          if PeekChar() == '=' {
            ReadChar();
            tok := Token(EQ, "==");
          } else {
            tok := NewToken(ASSIGN, ch);
          }
        case '!' =>
          if PeekChar() == '=' {
            ReadChar();
            tok := Token(NOT_EQ, "!=");
          } else {
            tok := NewToken(BANG, ch);
          }
        case '<' =>
          if PeekChar() == '=' {
            ReadChar();
            tok := Token(LT_EQ, "<=");
          } else {
            tok := NewToken(LT, ch);
          }
        case '>' =>
          if PeekChar() == '=' {
            ReadChar();
            tok := Token(GT_EQ, ">=");
          } else {
            tok := NewToken(GT, ch);
          }
      }
      ReadChar();
    }

    /** A string literal, EOF, a word, a number or an ILLEGAL character. */
    method ReadOther() returns (tok: Token)
      requires Valid() && !IsOneOrTwo(ch) && !IsSingleChar(ch)
      modifies this
      ensures Valid() && Scanned(tok, position) == ScanAt(input, old(position))
    {
      ScanOther(input, position);
      if ch == '"' {
        var stringLiteral := ReadString();
        tok := Token(STRING, stringLiteral);
        ReadChar();
      } else if ch == '\0' {
        tok := Token(EOF, "");
        ReadChar();
      } else if IsLetter(ch) {
        var literal := ReadIdentifier();
        tok := Token(LookupIdentifier(literal), literal);
      } else if IsDigit(ch) {
        var literal := ReadNumber();
        tok := Token(INT, literal);
      } else {
        tok := NewToken(ILLEGAL, ch);
        ReadChar();
      }
    }
  }
}
